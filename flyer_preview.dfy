/** The flyer preview component (FlyerPreview.tsx): what the preview shows,
    the upload check, and the two exports with their guards. Notifications
    are recorded by their titles; the browser (file reader, image decoder,
    download link) is represented by the values it hands back. */
module FlyerPreview {
  import opened JsValues
  import opened FlyerTypes
  import opened FileName
  import opened PdfLayout

  /** The image the preview shows while no image is active. */
  const PlaceholderImageUrl: string := "https://placehold.co/600x800.png"

  /** `currentImage || PLACEHOLDER_IMAGE_URL`. */
  function ImageSrc(currentImage: Option<string>): string {
    OrOpt(currentImage, PlaceholderImageUrl)
  }

  // ---------------------------------------------------------------------
  // Preview

  /** The texts laid over the placeholder image. */
  datatype Overlay = Overlay(title: string, tagline: string)

  /** What the preview card shows: the title, the tagline line (only when
      there is a tagline), the image with its alt text and hint, the overlay
      (only over the placeholder), and the date, location and description
      lines (each only when set). */
  datatype PreviewView = PreviewView(
    title: string,
    taglineLine: Option<string>,
    imageSrc: string,
    imageAlt: string,
    imageHint: string,
    overlay: Option<Overlay>,
    dateLine: Option<string>,
    locationLine: Option<string>,
    descriptionBlock: Option<string>)

  /** The preview card. It never shows an empty title, and the overlay, which
      appears exactly when no image is active, never shows empty texts; the
      image shown is the active one or else the placeholder. */
  function Preview(details: EventDetails, tagline: string, currentImage: Option<string>,
                   formatDate: Date -> string): (v: PreviewView)
    ensures Truthy(v.title)
    ensures Truthy(details.name) ==> v.title == details.name
    ensures !Truthy(details.name) ==> v.title == "Event Name"
    ensures v.overlay.Some? <==> !TruthyOpt(currentImage)
    ensures v.overlay.Some? ==> Truthy(v.overlay.value.title) && Truthy(v.overlay.value.tagline)
    ensures v.overlay.Some? ==> v.overlay.value.title == Or(details.name, "Your Event Title") &&
                                v.overlay.value.tagline == Or(tagline, "Catchy Tagline Here")
    ensures v.imageSrc == (if TruthyOpt(currentImage) then currentImage.value else PlaceholderImageUrl)
    ensures v.imageHint == (if TruthyOpt(currentImage) then "event flyer custom" else "event poster")
    ensures v.taglineLine == (if Truthy(tagline) then Some(tagline) else None)
    ensures v.dateLine == (if details.date.Some? then Some(formatDate(details.date.value)) else None)
    ensures v.locationLine == (if Truthy(details.location) then Some(details.location) else None)
    ensures v.descriptionBlock == (if Truthy(details.description) then Some(details.description) else None)
  {
    PreviewView(
      Or(details.name, "Event Name"),
      if Truthy(tagline) then Some(tagline) else None,
      ImageSrc(currentImage),
      if TruthyOpt(currentImage) then "Event Flyer Image" else "Flyer Preview Placeholder",
      if TruthyOpt(currentImage) then "event flyer custom" else "event poster",
      if TruthyOpt(currentImage) then None
      else Some(Overlay(Or(details.name, "Your Event Title"), Or(tagline, "Catchy Tagline Here"))),
      if details.date.Some? then Some(formatDate(details.date.value)) else None,
      if Truthy(details.location) then Some(details.location) else None,
      if Truthy(details.description) then Some(details.description) else None)
  }

  // ---------------------------------------------------------------------
  // Upload

  /** The file the picker delivers, by its declared MIME type. */
  datatype SelectedFile = SelectedFile(mimeType: string)

  /** How reading the file as a data URI ends. */
  datatype ReadResult = ReadOk(dataUri: string) | ReadFailed

  /** `file.type.startsWith('image/')`. */
  predicate IsImageType(mimeType: string) {
    StartsWith(mimeType, "image/")
  }

  /** What a file selection leads to. */
  datatype FileChange =
    | Ignored                      // no file was selected
    | InvalidType                  // "Invalid File Type" notification, no upload
    | Uploaded(dataUri: string)    // `onImageUpload(dataUri)`
    | ReadError                    // "File Read Error" notification, no upload
    | ReadErrorUploadsNull         // "File Read Error" and `onImageUpload(null)`

  /** The handler as written: `onloadend` calls `onImageUpload(reader.result)`,
      and a file reader fires `loadend` after `error` too, with a `null`
      result; so a failed read both notifies and uploads `null`. */
  function FileChangeAsWritten(file: Option<SelectedFile>, read: ReadResult): (r: FileChange)
    ensures (r.Uploaded? || r.ReadErrorUploadsNull?) <==> file.Some? && IsImageType(file.value.mimeType)
    ensures r.InvalidType? <==> file.Some? && !IsImageType(file.value.mimeType)
  {
    if file.None? then Ignored
    else if !IsImageType(file.value.mimeType) then InvalidType
    else match read
      case ReadOk(uri) => Uploaded(uri)
      case ReadFailed => ReadErrorUploadsNull
  }

  /** A read error clears the active image: the page's upload handler is
      called with `null`. */
  lemma ReadErrorUploadsNullExample()
    ensures FileChangeAsWritten(Some(SelectedFile("image/png")), ReadFailed) == ReadErrorUploadsNull
  {
    assert StartsWith("image/png", "image/");
  }

  /** The handler as evidently intended: only an image file whose read
      succeeds reaches `onImageUpload`, with exactly the data URI read; any
      other selection changes nothing but may notify. */
  function FileChangeIntended(file: Option<SelectedFile>, read: ReadResult): (r: FileChange)
    ensures r.Uploaded? <==> file.Some? && IsImageType(file.value.mimeType) && read.ReadOk?
    ensures r.Uploaded? ==> read == ReadOk(r.dataUri)
    ensures r.InvalidType? <==> file.Some? && !IsImageType(file.value.mimeType)
    ensures !r.ReadErrorUploadsNull?
  {
    if file.None? then Ignored
    else if !IsImageType(file.value.mimeType) then InvalidType
    else match read
      case ReadOk(uri) => Uploaded(uri)
      case ReadFailed => ReadError
  }

  /** The two differ only on a failed read of an image file. */
  lemma FileChangeDifference(file: Option<SelectedFile>, read: ReadResult)
    ensures FileChangeAsWritten(file, read) != FileChangeIntended(file, read)
        <==> file.Some? && IsImageType(file.value.mimeType) && read.ReadFailed?
  {
  }

  // ---------------------------------------------------------------------
  // Export

  datatype ExportFormat = Png | Pdf

  /** The outcome of a download request. */
  datatype Download =
    | Refused(title: string)                                         // a notification, no file
    | PdfSaved(fileName: string, drawn: seq<Drawn>, imageError: bool) // `doc.save(fileName)`
    | PngSaved(fileName: string, href: string)                       // a link download of `href`

  /** The document guard: no image and every text field empty or unset. */
  predicate NothingToExport(details: EventDetails, tagline: string, currentImage: Option<string>) {
    !TruthyOpt(currentImage) && !Truthy(details.name) && !Truthy(tagline) &&
    details.date.None? && !Truthy(details.location) && !Truthy(details.description)
  }

  /** The image guard: `!currentImage || imageSrc === PLACEHOLDER_IMAGE_URL`. */
  predicate NoImageToDownload(currentImage: Option<string>) {
    !TruthyOpt(currentImage) || ImageSrc(currentImage) == PlaceholderImageUrl
  }

  /** The image export is refused exactly when the preview shows the
      placeholder image, whether because no image is active or because the
      active image is the placeholder's own URL. */
  lemma NoImageIffPlaceholderShown(details: EventDetails, tagline: string, currentImage: Option<string>,
                                   formatDate: Date -> string)
    ensures NoImageToDownload(currentImage)
        <==> Preview(details, tagline, currentImage, formatDate).imageSrc == PlaceholderImageUrl
  {
  }

  /** Whatever the image export accepts, the document export accepts too. */
  lemma ImageExportableIsDocumentExportable(details: EventDetails, tagline: string, currentImage: Option<string>)
    requires !NoImageToDownload(currentImage)
    ensures !NothingToExport(details, tagline, currentImage)
  {
  }

  /** `handleDownload`: the file name is sanitised once; the document export
      is refused when there is nothing to export and otherwise saves the
      composed document as `<name>.pdf`; the image export is refused without
      a real image and otherwise downloads the active image as `<name>.png`. */
  method HandleDownload(formatType: ExportFormat, details: EventDetails, tagline: string,
                        currentImage: Option<string>,
                        pageWidth: real, pageHeight: real, decode: Decode,
                        lineCount: (string, real) -> nat, formatDate: Date -> string)
    returns (r: Download)
    requires ValidInputs(pageWidth, pageHeight, decode)
    ensures formatType == Pdf ==>
      if NothingToExport(details, tagline, currentImage) then r == Refused("Cannot Generate PDF")
      else r.PdfSaved? && r.fileName == SafeName(details.name) + ".pdf" &&
           r.drawn == Compose(pageWidth, pageHeight, details, tagline, currentImage, decode, lineCount, formatDate).drawn &&
           (r.imageError <==> TruthyOpt(currentImage) && decode.Failed?)
    ensures formatType == Png ==>
      if NoImageToDownload(currentImage) then r == Refused("No Image to Download")
      else r == PngSaved(SafeName(details.name) + ".png", currentImage.value)
  {
    var safeEventName := SafeName(details.name);
    if formatType == Pdf {
      if NothingToExport(details, tagline, currentImage) {
        return Refused("Cannot Generate PDF");
      }
      var drawn, currentY, imageError :=
        ComposePdf(pageWidth, pageHeight, details, tagline, currentImage, decode, lineCount, formatDate);
      return PdfSaved(safeEventName + ".pdf", drawn, imageError);
    }
    var imageSrc := ImageSrc(currentImage);
    if !TruthyOpt(currentImage) || imageSrc == PlaceholderImageUrl {
      return Refused("No Image to Download");
    }
    r := PngSaved(safeEventName + ".png", imageSrc);
  }
}

/** Worked examples of the preview and its exports. */
module FlyerPreviewExamples {
  import opened JsValues
  import opened FlyerTypes
  import opened PdfLayout
  import opened FlyerPreview

  /** A flyer with every detail filled in but no tagline and no image
      draws the name, the date, the location and the description, in that
      order, and nothing else. */
  lemma TextOnlyFlyer(pageWidth: real, pageHeight: real, details: EventDetails, decode: Decode,
                      lineCount: (string, real) -> nat, formatDate: Date -> string)
    requires ValidInputs(pageWidth, pageHeight, decode)
    requires Truthy(details.name) && details.date.Some?
    requires Truthy(details.location) && Truthy(details.description)
    ensures !NothingToExport(details, "", None)
    ensures Kinds(Compose(pageWidth, pageHeight, details, "", None, decode, lineCount, formatDate).drawn)
         == [NameKind, DateKind, LocationKind, DescriptionKind]
  {
    LayoutSections(pageWidth, pageHeight, details, "", None, decode, lineCount, formatDate);
  }

  /** A document export of an entirely empty flyer is refused. */
  lemma EmptyFlyerRefused(date: Date)
    ensures NothingToExport(EventDetails("", "", None, ""), "", None)
    ensures !NothingToExport(EventDetails("", "", Some(date), ""), "", None)
  {
  }
}
