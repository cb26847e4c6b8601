/** What the two AI generator controls share: the outcome of one request,
    the message an exception shows, the description guard and the button's
    enabled state. */
module Generation {
  import opened JsValues

  /** What a failed request throws: an `Error` with its message, or any
      other value. */
  datatype Thrown = ErrorObject(message: string) | NonError

  /** How one request ends: the generated value (a tagline or an image data
      URI) or what it threw. */
  datatype Outcome = Success(value: string) | Failure(thrown: Thrown)

  /** `e instanceof Error ? e.message : fallback`. */
  function ErrorMessage(e: Thrown, fallback: string): (m: string)
    ensures e.ErrorObject? ==> m == e.message
    ensures e.NonError? ==> m == fallback
  {
    match e
    case ErrorObject(message) => message
    case NonError => fallback
  }

  /** The handler's guard `!eventDescription.trim()` fails: a request is made
      only for a description with something besides white space. */
  predicate GuardPasses(eventDescription: string) {
    Trim(eventDescription) != ""
  }

  /** `disabled={isLoading || !eventDescription}`: the button checks the
      description untrimmed. */
  predicate ButtonDisabled(isLoading: bool, eventDescription: string) {
    isLoading || !Truthy(eventDescription)
  }

  /** `{error && …}`: an error line is shown for a non-empty message. */
  predicate ErrorShown(error: Option<string>) {
    TruthyOpt(error)
  }

  /** The guard passes exactly when the description is not all white space. */
  lemma GuardPassesIff(eventDescription: string)
    ensures GuardPasses(eventDescription) <==> !AllWhiteSpace(eventDescription)
  {
    TrimEmptyIff(eventDescription);
  }

  /** A description the guard lets through also enables the idle button. */
  lemma GuardPassesEnablesButton(eventDescription: string)
    requires GuardPasses(eventDescription)
    ensures !ButtonDisabled(false, eventDescription)
  {
    TrimEmptyIff(eventDescription);
  }

  /** The converse fails: a description of white space only enables the
      idle button, but a click on it is turned away by the guard. */
  lemma WhiteSpaceEnablesButtonButIsRejected(eventDescription: string)
    requires eventDescription != "" && AllWhiteSpace(eventDescription)
    ensures !ButtonDisabled(false, eventDescription)
    ensures !GuardPasses(eventDescription)
  {
    TrimEmptyIff(eventDescription);
  }

  /** One space is such a description. */
  lemma OneSpaceExample()
    ensures !ButtonDisabled(false, " ") && !GuardPasses(" ")
  {
    WhiteSpaceEnablesButtonButIsRejected(" ");
  }
}
