/** The AI tagline generator control (AiTaglineGenerator.tsx). The request
    to the tagline flow is one step whose outcome is a parameter. */
module AiTaglineGenerator {
  import opened JsValues
  import opened Generation

  /** The message shown for a thrown value that is not an `Error`. */
  const UnknownError: string := "An unknown error occurred"

  /** `{currentTagline && …}`: the generated-tagline panel is shown for a
      non-empty tagline. */
  predicate TaglinePanelShown(currentTagline: string) {
    Truthy(currentTagline)
  }

  /** The control's two state cells. While a request is pending no error is
      held. */
  class TaglineGenerator {
    var isLoading: bool
    var error: Option<string>

    predicate Valid()
      reads this
    {
      isLoading ==> error.None?
    }

    constructor()
      ensures Valid()
      ensures !isLoading && error == None
    {
      isLoading := false;
      error := None;
    }

    /** The start of an attempt: loading, with the old error cleared. */
    method BeginAttempt()
      modifies this
      ensures Valid()
      ensures isLoading && error == None
    {
      isLoading := true;
      error := None;
    }

    /** The `try`/`catch`/`finally` of an attempt. On success the tagline is
        handed to `onTaglineGenerated` (returned in `delivered`) and no error
        is held; on failure the message is held and nothing is handed on;
        either way loading ends. */
    method SettleAttempt(outcome: Outcome) returns (delivered: Option<string>)
      requires Valid() && isLoading
      modifies this
      ensures Valid()
      ensures !isLoading
      ensures outcome.Success? ==> delivered == Some(outcome.value) && error == None
      ensures outcome.Failure? ==> delivered == None && error == Some(ErrorMessage(outcome.thrown, UnknownError))
    {
      delivered := None;
      match outcome {
        case Success(tagline) =>
          delivered := Some(tagline);
        case Failure(e) =>
          error := Some(ErrorMessage(e, UnknownError));
      }
      isLoading := false;
    }

    /** `handleGenerateTagline`. `called` tells whether the guard let the
        request through; if not, nothing changes. */
    method HandleGenerateTagline(eventDescription: string, outcome: Outcome)
      returns (called: bool, delivered: Option<string>)
      requires Valid()
      modifies this
      ensures Valid()
      ensures called <==> GuardPasses(eventDescription)
      ensures !called ==> delivered == None && isLoading == old(isLoading) && error == old(error)
      ensures called ==> !isLoading
      ensures called && outcome.Success? ==> delivered == Some(outcome.value) && error == None
      ensures called && outcome.Failure? ==>
                delivered == None && error == Some(ErrorMessage(outcome.thrown, UnknownError))
    {
      if !GuardPasses(eventDescription) {
        return false, None;
      }
      BeginAttempt();
      delivered := SettleAttempt(outcome);
      called := true;
    }

    /** `disabled={isLoading || !eventDescription}`. */
    predicate ButtonIsDisabled(eventDescription: string)
      reads this
    {
      ButtonDisabled(isLoading, eventDescription)
    }
  }
}
