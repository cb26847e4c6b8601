/** How the home page connects its controls (page.tsx, lines 84-106): both
    generators read the event description and report to the page's
    handlers, the preview reads the page's state and reports uploads to it.
    Each user action is one sequential step. */
module Wiring {
  import opened JsValues
  import opened FlyerTypes
  import opened Generation
  import opened Page
  import opened FlyerPreview
  import AiTaglineGenerator
  import AiImageGenerator

  /** A click on "Generate Tagline": the control runs on the page's
      description, and a generated tagline replaces the page's tagline.
      Nothing else on the page changes, and a failure or a rejected click
      leaves the page as it was. */
  method GenerateTagline(page: HomePage, control: AiTaglineGenerator.TaglineGenerator, outcome: Outcome)
    returns (called: bool)
    requires page.Valid() && control.Valid()
    modifies page, control
    ensures page.Valid() && control.Valid()
    ensures called <==> GuardPasses(old(page.eventDetails.description))
    ensures called && outcome.Success? ==> page.State() == old(page.State()).(tagline := outcome.value)
    ensures !(called && outcome.Success?) ==> page.State() == old(page.State())
    ensures called && outcome.Success? ==>
              (AiTaglineGenerator.TaglinePanelShown(page.tagline) <==> Truthy(outcome.value))
    ensures !called ==> control.isLoading == old(control.isLoading) && control.error == old(control.error)
    ensures called ==> !control.isLoading && !control.ButtonIsDisabled(page.eventDetails.description)
    ensures called && outcome.Success? ==> control.error == None && !ErrorShown(control.error)
    ensures called && outcome.Failure? ==>
              control.error == Some(ErrorMessage(outcome.thrown, AiTaglineGenerator.UnknownError)) &&
              (ErrorShown(control.error) <==> Truthy(ErrorMessage(outcome.thrown, AiTaglineGenerator.UnknownError)))
  {
    var description := page.eventDetails.description;
    var delivered;
    called, delivered := control.HandleGenerateTagline(description, outcome);
    if delivered.Some? {
      page.HandleTaglineGenerated(delivered.value);
    }
    if called {
      GuardPassesEnablesButton(description);
    }
  }

  /** A click on "Generate AI Image": a generated image becomes the page's
      image with the custom hint, and the preview and the control's
      thumbnail both show it (when its URI is not empty); the details and
      the tagline never change, and a failure or a rejected click leaves the
      page as it was. */
  method GenerateImage(page: HomePage, control: AiImageGenerator.ImageGenerator, outcome: Outcome,
                       formatDate: Date -> string)
    returns (called: bool)
    requires page.Valid() && control.Valid()
    modifies page, control
    ensures page.Valid() && control.Valid()
    ensures called <==> GuardPasses(old(page.eventDetails.description))
    ensures called && outcome.Success? ==>
              page.State() == old(page.State()).(activeFlyerImage := Some(outcome.value),
                                                 currentImageHint := CustomImageHint)
    ensures !(called && outcome.Success?) ==> page.State() == old(page.State())
    ensures called && outcome.Success? && Truthy(outcome.value) ==>
              control.ShowsThumbnail(page.activeFlyerImage) &&
              Preview(page.eventDetails, page.tagline, page.activeFlyerImage, formatDate).imageSrc == outcome.value
    ensures called && outcome.Failure? && Truthy(ErrorMessage(outcome.thrown, AiImageGenerator.UnknownError)) ==>
              !control.ShowsThumbnail(page.activeFlyerImage)
    ensures !called ==> control.isLoading == old(control.isLoading) && control.error == old(control.error)
    ensures called ==> !control.isLoading && !control.ButtonIsDisabled(page.eventDetails.description)
    ensures called && outcome.Success? ==> control.error == None && !ErrorShown(control.error)
    ensures called && outcome.Failure? ==>
              control.error == Some(ErrorMessage(outcome.thrown, AiImageGenerator.UnknownError)) &&
              (ErrorShown(control.error) <==> Truthy(ErrorMessage(outcome.thrown, AiImageGenerator.UnknownError)))
  {
    var description := page.eventDetails.description;
    var delivered;
    called, delivered := control.HandleGenerateImage(description, outcome);
    if delivered.Some? {
      var _ := page.HandleAiImageGenerated(delivered.value);
    }
    if called {
      GuardPassesEnablesButton(description);
    }
  }

  /** A file chosen in the preview's picker, with the upload check as
      evidently intended: only an image file that was read reaches the page,
      which then shows it; every other selection leaves the page as it was. */
  method UploadFile(page: HomePage, file: Option<SelectedFile>, read: ReadResult)
    returns (change: FileChange)
    requires page.Valid()
    modifies page
    ensures page.Valid()
    ensures change == FileChangeIntended(file, read)
    ensures change.Uploaded? ==>
              page.State() == old(page.State()).(activeFlyerImage := Some(change.dataUri),
                                                 currentImageHint := CustomImageHint)
    ensures !change.Uploaded? ==> page.State() == old(page.State())
  {
    change := FileChangeIntended(file, read);
    if change.Uploaded? {
      var _ := page.HandleUserImageUpload(Some(change.dataUri));
    }
  }

  /** A file chosen in the preview's picker, with the upload handler as
      written: after a failed read of an image file the page's upload
      handler still runs, with `null`, so the active image is cleared while
      the hint and the notification say an image was uploaded. */
  method UploadFileAsWritten(page: HomePage, file: Option<SelectedFile>, read: ReadResult)
    returns (change: FileChange, toast: Option<string>)
    requires page.Valid()
    modifies page
    ensures page.Valid()
    ensures change == FileChangeAsWritten(file, read)
    ensures change.Uploaded? ==>
              page.State() == old(page.State()).(activeFlyerImage := Some(change.dataUri),
                                                 currentImageHint := CustomImageHint)
    ensures change.ReadErrorUploadsNull? ==>
              page.State() == old(page.State()).(activeFlyerImage := None,
                                                 currentImageHint := CustomImageHint) &&
              toast == Some("Image Uploaded!") && NoImageToDownload(page.activeFlyerImage)
    ensures !change.Uploaded? && !change.ReadErrorUploadsNull? ==> page.State() == old(page.State())
  {
    change := FileChangeAsWritten(file, read);
    toast := None;
    match change {
      case Uploaded(uri) =>
        var t := page.HandleUserImageUpload(Some(uri));
        toast := Some(t);
      case ReadErrorUploadsNull =>
        var t := page.HandleUserImageUpload(None);
        toast := Some(t);
      case _ =>
    }
  }

  /** The page's template handler, called with a catalog and an id: a known
      template brings back the placeholder, with its overlay, so the image
      export is refused until a new image is set. (The library's Select
      button is disabled, so the interface as written never calls it.) */
  method SelectTemplate(page: HomePage, catalog: seq<Template>, templateId: string,
                        formatDate: Date -> string)
    requires page.Valid()
    modifies page
    ensures page.Valid()
    ensures FindTemplate(catalog, templateId).None? ==> page.State() == old(page.State())
    ensures FindTemplate(catalog, templateId).Some? ==>
              page.State() == WithTemplate(old(page.State()), FindTemplate(catalog, templateId).value) &&
              NoImageToDownload(page.activeFlyerImage) &&
              Preview(page.eventDetails, page.tagline, page.activeFlyerImage, formatDate).overlay.Some?
  {
    var _ := page.HandleTemplateSelect(catalog, templateId);
  }

  /** The preview computes its image hint from the image alone and ignores
      the page's hint; while an image is shown the two agree. */
  lemma PreviewHintAgrees(s: Session, formatDate: Date -> string)
    requires HintConsistent(s)
    requires TruthyOpt(s.activeFlyerImage)
    ensures Preview(s.eventDetails, s.tagline, s.activeFlyerImage, formatDate).imageHint == s.currentImageHint
  {
  }

  /** A new session can be exported as a document at once, but has no image
      to export. */
  lemma SeedSessionExports(now: Date)
    ensures !NothingToExport(EventDetails(SeedName, SeedDescription, Some(now), SeedLocation), DefaultTagline, None)
    ensures NoImageToDownload(None)
  {
  }
}
