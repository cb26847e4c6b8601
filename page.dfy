/** The session state of the home page (page.tsx): four state cells, changed
    only through the page's five handlers. */
module Page {
  import opened JsValues
  import opened FlyerTypes

  /** The seed event of a new session. */
  const SeedName: string := "My Awesome Event"
  const SeedDescription: string :=
    "Join us for an unforgettable experience filled with fun, music, and networking opportunities. "
    + "This event is perfect for professionals and enthusiasts alike. "
    + "We will have guest speakers, workshops, and a grand finale party!"
  const SeedLocation: string := "123 Main Street, Anytown, USA"

  /** The tagline of a new session, and of a template without one. */
  const DefaultTagline: string := "Your Amazing Tagline Goes Here!"

  /** The image hint while the placeholder is shown, unless a template says otherwise. */
  const PlaceholderHint: string := "event poster"

  /** The image hint once an image of the user's (generated or uploaded) is active. */
  const CustomImageHint: string := "event flyer custom"

  // ---------------------------------------------------------------------
  // Editing one field

  /** The fields of `EventDetails`. */
  datatype Field = NameField | DescriptionField | DateField | LocationField

  /** A `(fieldName, value)` pair of `handleDetailsChange`, typed by field. */
  datatype FieldUpdate =
    | SetName(name: string)
    | SetDescription(description: string)
    | SetDate(date: Option<Date>)
    | SetLocation(location: string)

  function FieldOf(u: FieldUpdate): Field {
    match u
    case SetName(_) => NameField
    case SetDescription(_) => DescriptionField
    case SetDate(_) => DateField
    case SetLocation(_) => LocationField
  }

  /** The update that writes back the current value of field `f` of `d`. */
  function Current(d: EventDetails, f: Field): (u: FieldUpdate)
    ensures FieldOf(u) == f
  {
    match f
    case NameField => SetName(d.name)
    case DescriptionField => SetDescription(d.description)
    case DateField => SetDate(d.date)
    case LocationField => SetLocation(d.location)
  }

  /** `{ ...prevDetails, [fieldName]: value }`: the named field takes the new
      value and every other field keeps its old one. */
  function Patched(d: EventDetails, u: FieldUpdate): (r: EventDetails)
    ensures r.name == (if u.SetName? then u.name else d.name)
    ensures r.description == (if u.SetDescription? then u.description else d.description)
    ensures r.date == (if u.SetDate? then u.date else d.date)
    ensures r.location == (if u.SetLocation? then u.location else d.location)
  {
    match u
    case SetName(v) => d.(name := v)
    case SetDescription(v) => d.(description := v)
    case SetDate(v) => d.(date := v)
    case SetLocation(v) => d.(location := v)
  }

  /** Of two edits of the same field only the later one shows. */
  lemma PatchLastWins(d: EventDetails, u: FieldUpdate, v: FieldUpdate)
    requires FieldOf(u) == FieldOf(v)
    ensures Patched(Patched(d, u), v) == Patched(d, v)
  {
  }

  /** Edits of different fields do not interfere. */
  lemma PatchCommutes(d: EventDetails, u: FieldUpdate, v: FieldUpdate)
    requires FieldOf(u) != FieldOf(v)
    ensures Patched(Patched(d, u), v) == Patched(Patched(d, v), u)
  {
  }

  /** Writing back a field's own value changes nothing. */
  lemma PatchCurrentIsNoOp(d: EventDetails, f: Field)
    ensures Patched(d, Current(d, f)) == d
  {
  }

  // ---------------------------------------------------------------------
  // Templates

  /** `exampleTemplates.find(t => t.id === templateId)`: the first entry of
      the catalog with that id, if there is one. */
  function FindTemplate(catalog: seq<Template>, templateId: string): (r: Option<Template>)
    ensures r.None? <==> forall i :: 0 <= i < |catalog| ==> catalog[i].id != templateId
    ensures r.Some? ==> exists i :: 0 <= i < |catalog| && catalog[i] == r.value &&
                          r.value.id == templateId &&
                          forall j :: 0 <= j < i ==> catalog[j].id != templateId
  {
    if catalog == [] then None
    else if catalog[0].id == templateId then Some(catalog[0])
    else
      var r := FindTemplate(catalog[1..], templateId);
      assert r.Some? ==> exists i :: 0 <= i < |catalog| && catalog[i] == r.value && r.value.id == templateId &&
                          forall j :: 0 <= j < i ==> catalog[j].id != templateId by {
        if r.Some? {
          var i :| 0 <= i < |catalog[1..]| && catalog[1..][i] == r.value && r.value.id == templateId &&
                   forall j :: 0 <= j < i ==> catalog[1..][j].id != templateId;
          assert catalog[i + 1] == r.value;
          assert forall j :: 0 <= j < i + 1 ==> catalog[j].id != templateId by {
            forall j | 0 <= j < i + 1 ensures catalog[j].id != templateId {
              if j > 0 { assert catalog[j] == catalog[1..][j - 1]; }
            }
          }
        }
      }
      assert r.None? ==> forall i :: 0 <= i < |catalog| ==> catalog[i].id != templateId by {
        if r.None? {
          forall i | 0 <= i < |catalog| ensures catalog[i].id != templateId {
            if i > 0 { assert catalog[i] == catalog[1..][i - 1]; }
          }
        }
      }
      r
  }

  /** The four state cells of the page, as one value. */
  datatype Session = Session(
    eventDetails: EventDetails,
    tagline: string,
    activeFlyerImage: Option<string>,
    currentImageHint: string)

  /** The page after applying template `t`: the name and the description
      are taken from the template where it has a non-empty default and kept
      otherwise; the date and the location are always kept; the tagline and
      the image hint come from the template or fall back to the session
      defaults, never from the old session; the image is cleared. */
  function WithTemplate(s: Session, t: Template): (r: Session)
    ensures r.eventDetails.name == OrOpt(t.defaultEventName, s.eventDetails.name)
    ensures r.eventDetails.description == OrOpt(t.defaultEventDescription, s.eventDetails.description)
    ensures r.eventDetails.date == s.eventDetails.date
    ensures r.eventDetails.location == s.eventDetails.location
    ensures r.tagline == OrOpt(t.defaultTagline, DefaultTagline)
    ensures r.activeFlyerImage == None
    ensures r.currentImageHint == OrOpt(t.defaultImageHint, PlaceholderHint)
  {
    Session(
      s.eventDetails.(name := OrOpt(t.defaultEventName, s.eventDetails.name),
                      description := OrOpt(t.defaultEventDescription, s.eventDetails.description)),
      OrOpt(t.defaultTagline, DefaultTagline),
      None,
      OrOpt(t.defaultImageHint, PlaceholderHint))
  }

  /** Applying the same template twice is the same as applying it once. */
  lemma WithTemplateIdempotent(s: Session, t: Template)
    ensures WithTemplate(WithTemplate(s, t), t) == WithTemplate(s, t)
  {
  }

  /** After a template only the name and the description can still tell two
      sessions apart: the tagline, the image and the hint no longer depend on
      what was there before. */
  lemma WithTemplateForgets(s1: Session, s2: Session, t: Template)
    requires s1.eventDetails == s2.eventDetails
    ensures WithTemplate(s1, t) == WithTemplate(s2, t)
  {
  }

  /** An active image always comes with the custom hint. */
  predicate HintConsistent(s: Session) {
    s.activeFlyerImage.Some? ==> s.currentImageHint == CustomImageHint
  }

  // ---------------------------------------------------------------------
  // The page

  /** The home page's state cells and their handlers. Every handler keeps
      the image hint consistent with the image: while an image is active,
      the hint is the custom one. */
  class HomePage {
    var eventDetails: EventDetails
    var tagline: string
    var activeFlyerImage: Option<string>
    var currentImageHint: string

    function State(): Session
      reads this
    {
      Session(eventDetails, tagline, activeFlyerImage, currentImageHint)
    }

    predicate Valid()
      reads this
    {
      HintConsistent(State())
    }

    /** The seed state; `now` is the `new Date()` of the first render. */
    constructor(now: Date)
      ensures Valid()
      ensures eventDetails == EventDetails(SeedName, SeedDescription, Some(now), SeedLocation)
      ensures tagline == DefaultTagline
      ensures activeFlyerImage == None
      ensures currentImageHint == PlaceholderHint
    {
      eventDetails := EventDetails(SeedName, SeedDescription, Some(now), SeedLocation);
      tagline := DefaultTagline;
      activeFlyerImage := None;
      currentImageHint := PlaceholderHint;
    }

    /** `handleDetailsChange`: exactly the named field changes. */
    method HandleDetailsChange(update: FieldUpdate)
      requires Valid()
      modifies this
      ensures Valid()
      ensures eventDetails == Patched(old(eventDetails), update)
      ensures tagline == old(tagline) && activeFlyerImage == old(activeFlyerImage)
      ensures currentImageHint == old(currentImageHint)
    {
      eventDetails := Patched(eventDetails, update);
    }

    /** `handleTaglineGenerated`: the tagline becomes exactly the given text. */
    method HandleTaglineGenerated(newTagline: string)
      requires Valid()
      modifies this
      ensures Valid()
      ensures tagline == newTagline
      ensures eventDetails == old(eventDetails) && activeFlyerImage == old(activeFlyerImage)
      ensures currentImageHint == old(currentImageHint)
    {
      tagline := newTagline;
    }

    /** `handleAiImageGenerated`: the generated image becomes the flyer
        image; returns the title of the notification. */
    method HandleAiImageGenerated(newImageDataUri: string) returns (toast: string)
      requires Valid()
      modifies this
      ensures Valid()
      ensures activeFlyerImage == Some(newImageDataUri) && currentImageHint == CustomImageHint
      ensures eventDetails == old(eventDetails) && tagline == old(tagline)
      ensures toast == "AI Image Set!"
    {
      activeFlyerImage := Some(newImageDataUri);
      currentImageHint := CustomImageHint;
      toast := "AI Image Set!";
    }

    /** `handleUserImageUpload`: the uploaded image becomes the flyer image;
        returns the title of the notification. The argument is the file
        reader's result, which is `null` (None) after a failed read; the
        handler sets it as it is. */
    method HandleUserImageUpload(imageDataUri: Option<string>) returns (toast: string)
      requires Valid()
      modifies this
      ensures Valid()
      ensures activeFlyerImage == imageDataUri && currentImageHint == CustomImageHint
      ensures eventDetails == old(eventDetails) && tagline == old(tagline)
      ensures toast == "Image Uploaded!"
    {
      activeFlyerImage := imageDataUri;
      currentImageHint := CustomImageHint;
      toast := "Image Uploaded!";
    }

    /** `handleTemplateSelect`: an id the catalog does not have changes
        nothing; otherwise the first template with that id is applied.
        Returns the title of the notification, if one is shown. */
    method HandleTemplateSelect(catalog: seq<Template>, templateId: string) returns (toast: Option<string>)
      requires Valid()
      modifies this
      ensures Valid()
      ensures FindTemplate(catalog, templateId).None? ==> State() == old(State()) && toast == None
      ensures FindTemplate(catalog, templateId).Some? ==>
                State() == WithTemplate(old(State()), FindTemplate(catalog, templateId).value) &&
                toast == Some("Template Selected!")
    {
      var selectedTemplate := FindTemplate(catalog, templateId);
      toast := None;
      if selectedTemplate.Some? {
        var t := selectedTemplate.value;
        eventDetails := eventDetails.(name := OrOpt(t.defaultEventName, eventDetails.name),
                                      description := OrOpt(t.defaultEventDescription, eventDetails.description));
        tagline := OrOpt(t.defaultTagline, DefaultTagline);
        activeFlyerImage := None;
        currentImageHint := OrOpt(t.defaultImageHint, PlaceholderHint);
        toast := Some("Template Selected!");
      }
    }
  }
}
