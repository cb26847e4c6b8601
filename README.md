# Flyerly, modelled in Dafny

Flyerly is a single-page web app for making event flyers. The user fills in
an event (name, description, optional date, location). They can pick a
template, have an AI service write a tagline or draw an image, or upload an
image of their own. A live preview shows the flyer, and it can be exported as
a PDF document or as a PNG image.

This project models the app's logic and proves properties about it:

- the four session state cells of the home page and the five handlers that
  change them;
- the two AI generator controls, as small state machines over "loading" and
  "error";
- the preview's show/hide rules;
- the upload type check;
- the download file name;
- the two export guards;
- the PDF layout: a cursor moving down the page section by section, with an
  aspect-preserving image fit.

The modules:

| file | module | models |
|---|---|---|
| `js_values.dfy` | `JsValues` | JavaScript truthiness of strings, `\|\|` fallbacks, `null`/`undefined` as `Option`, `startsWith`, `trim` |
| `flyer_types.dfy` | `FlyerTypes` | the `EventDetails` and template records |
| `file_name.dfy` | `FileName` | the sanitised download file name |
| `pdf_layout.dfy` | `PdfLayout` | the PDF composition: image fit, the cursor, the order of sections |
| `flyer_preview.dfy` | `FlyerPreview` | the preview card, the upload check, `handleDownload` and its guards |
| `page.dfy` | `Page` | class `HomePage`: the session state and its handlers, template lookup and application |
| `generation.dfy` | `Generation` | what the generators share: outcomes, error messages, the description guard, the button |
| `ai_tagline_generator.dfy` | `AiTaglineGenerator` | class `TaglineGenerator` |
| `ai_image_generator.dfy` | `AiImageGenerator` | class `ImageGenerator` |
| `wiring.dfy` | `Wiring` | how the page connects the controls to its handlers |

## How the model is built

The PDF layout has two parts:

- **Specification.** `PdfLayout.Compose` is a left fold, `Run`, of six stages
  (`Plan`): image, name, tagline, date, location and description. Each stage
  advances the cursor, may draw one section, and advances the cursor again.
- **Imperative version.** `PdfLayout.ComposePdf` mirrors the export's code,
  with a local `currentY` and an append-only log of drawn sections. It is
  proved equal to the fold.

The properties of the layout are lemmas about the fold: which sections are
drawn, their order, the cursor never going up, and where the name lands
after the image.

The session state is a class with four fields. Each handler states its whole
new state. The invariant `Valid` keeps the image hint consistent with the
image.

The generator controls are classes with `isLoading` and `error`:

- the network request is a parameter: its `Outcome`, success or failure;
- the value handed to the page's callback is an out-parameter;
- `Wiring` passes that value on to the page.

## Model

| member | source | states |
|---|---|---|
| JsValues.Or | src/components/flyerly/FlyerPreview.tsx:212 | `s \|\| fallback` on strings gives `s` when it is non-empty and the fallback otherwise |
| JsValues.OrOpt | src/app/page.tsx:60-61 | `o \|\| fallback` on an optional string gives the value when it is present and non-empty, else the fallback |
| JsValues.TrimStart | src/components/flyerly/AiTaglineGenerator.tsx:23 | the result is a suffix of the input, only white space is cut, and it does not start with white space |
| JsValues.TrimEnd | src/components/flyerly/AiTaglineGenerator.tsx:23 | the result is a prefix of the input, only white space is cut, and it does not end with white space |
| JsValues.Trim | src/components/flyerly/AiTaglineGenerator.tsx:23 | `trim()` returns a slice of the input with only white space cut on either side, neither starting nor ending with white space |
| JsValues.TrimEmptyIff | src/components/flyerly/AiTaglineGenerator.tsx:23 | `trim()` is empty exactly when the input is all white space |
| FileName.ReplaceNonAlnum | src/components/flyerly/FlyerPreview.tsx:66 | `replace(/[^a-z0-9]/gi, '_')` keeps the length; each character is kept if it is an ASCII letter or digit, and is `_` otherwise |
| FileName.ToLowerAscii | src/components/flyerly/FlyerPreview.tsx:66 | `toLowerCase()` keeps the length and lower-cases each ASCII letter in place |
| FileName.SafeName | src/components/flyerly/FlyerPreview.tsx:66 | an empty name gives `flyer`; otherwise the result has the name's length, with letters lower-cased, digits kept and every other character `_`; every character is in `[a-z0-9_]` |
| FileName.SafeNameIdempotent | src/components/flyerly/FlyerPreview.tsx:66 | sanitising a sanitised name returns it unchanged |
| FileNameExamples.MyEventExample | src/components/flyerly/FlyerPreview.tsx:66 | `"My Event! 2024"` becomes `my_event__2024` |
| FileNameExamples.SymbolsOnlyExample | src/components/flyerly/FlyerPreview.tsx:66 | a name of symbols only becomes underscores, not `flyer` |
| PdfLayout.FitImage | src/components/flyerly/FlyerPreview.tsx:103-116 | the placed image keeps the source aspect ratio, is at most half the page high and at most the width between the margins, reaches one of these bounds, and is centred with `x >= margin` |
| PdfLayout.PlaceImage | src/components/flyerly/FlyerPreview.tsx:105-116 | the fit computed by reassigning width and height in the clamp equals `FitImage` |
| PdfLayout.LayoutSections | src/components/flyerly/FlyerPreview.tsx:94-170 | the document draws the image if one was placed, then always the name, then the tagline, date, location and description, each exactly when it is set |
| PdfLayout.LayoutOrdered | src/components/flyerly/FlyerPreview.tsx:93-170 | sections are drawn in a fixed order, each at most once |
| PdfLayout.LayoutDescending | src/components/flyerly/FlyerPreview.tsx:91-170 | the cursor starts at the margin (30) and never decreases; each section is drawn at or below the one before it |
| PdfLayout.LayoutAfterImage | src/components/flyerly/FlyerPreview.tsx:91-126 | a placed image is drawn at the margin with the fitted size and the name follows at `margin + height + 20`; with no image or a failed decode the name comes first, at `margin + 20` |
| PdfLayout.ComposePdf | src/components/flyerly/FlyerPreview.tsx:91-170 | the step-by-step composition with a running `currentY` yields exactly the layout `Compose` specifies; an image error is reported exactly when there was an image that failed to decode |
| PdfLayout.ComposeDetails | src/components/flyerly/FlyerPreview.tsx:146-170 | the date, location and description stages advance the cursor by 20, `lines*12 + 10` and 5 before the description, each only when the field is set |
| FlyerPreview.Preview | src/components/flyerly/FlyerPreview.tsx:25-259 | the title is the name, or `Event Name` when it is empty; the overlay appears exactly when there is no image and shows the name or `Your Event Title` and the tagline or `Catchy Tagline Here`; the image shown is the active one or the placeholder, with the matching hint; the tagline, formatted date, location and description appear exactly when set, with their own text |
| FlyerPreview.FileChangeAsWritten | src/components/flyerly/FlyerPreview.tsx:35-59 | an image file always reaches `onImageUpload`, even when reading it fails; a non-image file is rejected |
| FlyerPreview.ReadErrorUploadsNullExample | src/components/flyerly/FlyerPreview.tsx:47-57 | a PNG file whose read fails both reports an error and passes `null` to the page |
| FlyerPreview.FileChangeIntended | src/components/flyerly/FlyerPreview.tsx:35-59 | an upload reaches the page exactly when the MIME type starts with `image/` and the read succeeds, carrying the data read; a non-image type is rejected |
| FlyerPreview.FileChangeDifference | src/components/flyerly/FlyerPreview.tsx:47-57 | the written and the intended handler differ exactly on a failed read of an image file |
| FlyerPreview.NoImageIffPlaceholderShown | src/components/flyerly/FlyerPreview.tsx:181 | the PNG export is refused exactly when the preview shows the placeholder image |
| FlyerPreview.ImageExportableIsDocumentExportable | src/components/flyerly/FlyerPreview.tsx:69-181 | whenever the PNG export is allowed, the PDF export is too |
| FlyerPreview.HandleDownload | src/components/flyerly/FlyerPreview.tsx:65-204 | PDF is refused exactly when the image and all text fields are empty or unset; otherwise the composed document is saved as `SafeName + ".pdf"`. PNG is refused exactly when there is no image or it is the placeholder; otherwise the image is downloaded as `SafeName + ".png"` |
| FlyerPreviewExamples.TextOnlyFlyer | src/components/flyerly/FlyerPreview.tsx:128-170 | with every detail set but no tagline and no image, the document holds the name, date, location and description, in that order |
| FlyerPreviewExamples.EmptyFlyerRefused | src/components/flyerly/FlyerPreview.tsx:69 | an entirely empty flyer is refused, but a date alone is enough to export |
| Page.Patched | src/app/page.tsx:26-31 | the named field takes the new value and the other three keep theirs |
| Page.PatchLastWins | src/app/page.tsx:26-31 | of two edits of the same field, only the later one shows |
| Page.PatchCommutes | src/app/page.tsx:26-31 | edits of different fields commute |
| Page.PatchCurrentIsNoOp | src/app/page.tsx:26-31 | writing back a field's own value changes nothing |
| Page.FindTemplate | src/app/page.tsx:56 | `find` returns nothing exactly when no entry has the id; otherwise it returns the first entry with that id |
| Page.WithTemplate | src/app/page.tsx:58-67 | name and description are taken from non-empty defaults and kept otherwise; date and location are kept; the tagline falls back to `'Your Amazing Tagline Goes Here!'` and the hint to `'event poster'`; the image is cleared |
| Page.WithTemplateIdempotent | src/app/page.tsx:58-67 | applying the same template twice equals applying it once |
| Page.WithTemplateForgets | src/app/page.tsx:65-67 | after a template, the tagline, image and hint no longer depend on the previous session |
| Page.HomePage.constructor | src/app/page.tsx:15-23 | the seed name, description, location and tagline, the current date, no image, and the hint `'event poster'` |
| Page.HomePage.HandleDetailsChange | src/app/page.tsx:26-31 | only the named field of the details changes; tagline, image and hint are unchanged |
| Page.HomePage.HandleTaglineGenerated | src/app/page.tsx:33-35 | the tagline becomes exactly the given string and nothing else changes |
| Page.HomePage.HandleAiImageGenerated | src/app/page.tsx:37-44 | the image becomes the given URI and the hint `'event flyer custom'`; details and tagline are unchanged |
| Page.HomePage.HandleUserImageUpload | src/app/page.tsx:46-53 | the image becomes the given file-reader result, which may be `null`, and the hint `'event flyer custom'`; details and tagline are unchanged |
| Page.HomePage.HandleTemplateSelect | src/app/page.tsx:55-73 | an unknown id changes nothing; otherwise the state becomes `WithTemplate` of the first template with that id |
| Generation.ErrorMessage | src/components/flyerly/AiTaglineGenerator.tsx:44 | an `Error` shows its own message; any other thrown value shows the fallback |
| Generation.GuardPassesIff | src/components/flyerly/AiImageGenerator.tsx:25 | the guard lets a request through exactly when the description is not all white space |
| Generation.GuardPassesEnablesButton | src/components/flyerly/AiTaglineGenerator.tsx:23-66 | a description the guard accepts also enables the idle button |
| Generation.WhiteSpaceEnablesButtonButIsRejected | src/components/flyerly/AiTaglineGenerator.tsx:23-66 | a non-empty, all-white-space description enables the idle button but is rejected by the guard |
| Generation.OneSpaceExample | src/components/flyerly/AiImageGenerator.tsx:25-70 | a single space enables the idle button but is rejected |
| AiTaglineGenerator.TaglineGenerator.constructor | src/components/flyerly/AiTaglineGenerator.tsx:18-19 | starts idle with no error |
| AiTaglineGenerator.TaglineGenerator.BeginAttempt | src/components/flyerly/AiTaglineGenerator.tsx:32-33 | an attempt starts loading, with the error cleared |
| AiTaglineGenerator.TaglineGenerator.SettleAttempt | src/components/flyerly/AiTaglineGenerator.tsx:34-53 | on success the tagline is handed on and no error is held; on failure the message (or `"An unknown error occurred"`) is held and nothing is handed on; loading ends either way |
| AiTaglineGenerator.TaglineGenerator.HandleGenerateTagline | src/components/flyerly/AiTaglineGenerator.tsx:22-54 | a request is made exactly when the trimmed description is non-empty; a rejected click changes nothing and hands nothing on; otherwise the result is as in `SettleAttempt` |
| AiImageGenerator.ImageGenerator.constructor | src/components/flyerly/AiImageGenerator.tsx:20-21 | starts idle with no error |
| AiImageGenerator.ImageGenerator.BeginAttempt | src/components/flyerly/AiImageGenerator.tsx:34-35 | an attempt starts loading, with the error cleared |
| AiImageGenerator.ImageGenerator.SettleAttempt | src/components/flyerly/AiImageGenerator.tsx:36-55 | on success the image URI is handed on and no error is held; on failure the message (or `"An unknown error occurred during image generation."`) is held and nothing is handed on; loading ends either way |
| AiImageGenerator.ImageGenerator.HandleGenerateImage | src/components/flyerly/AiImageGenerator.tsx:24-56 | a request is made exactly when the trimmed description is non-empty; a rejected click changes nothing and hands nothing on; otherwise the result is as in `SettleAttempt` |
| Wiring.GenerateTagline | src/app/page.tsx:84-88 | a generated tagline replaces the page's tagline and nothing else; a failed or rejected request leaves the page unchanged; a rejected click leaves the control unchanged; after a request the control is idle with its button enabled, holds no error after success, and after a failure holds the thrown message (or the fallback), shown exactly when non-empty |
| Wiring.GenerateImage | src/app/page.tsx:89-93 | a generated image becomes the page's image with the custom hint, and both the preview and the thumbnail show it; a failed or rejected request leaves the page unchanged; a rejected click leaves the control unchanged; after a request the control is idle with its button enabled, holds no error after success, and after a failure holds the thrown message (or the fallback), shown exactly when non-empty, which hides the thumbnail |
| Wiring.UploadFile | src/app/page.tsx:101-107 | only an image file that was read reaches the page, which then shows it; any other selection leaves the page unchanged |
| Wiring.UploadFileAsWritten | src/components/flyerly/FlyerPreview.tsx:35-59 | with the handler as written, a failed read of an image file clears the page's image while setting the custom hint and the "Image Uploaded!" notification; a read image is set; other selections change nothing |
| Wiring.SelectTemplate | src/app/page.tsx:94-96 | a known template brings back the placeholder with its overlay, so the PNG export is refused |
| Wiring.PreviewHintAgrees | src/app/page.tsx:106 | the preview ignores the page's hint; while an image is shown, the hint it computes equals the page's |
| Wiring.SeedSessionExports | src/app/page.tsx:15-23 | a new session can be exported as a PDF at once, but has no image to export as PNG |

## Left out

- Strings: a Dafny `char` is one Unicode code point, while JavaScript counts UTF-16 code units. For a character outside the Basic Multilingual Plane the lengths differ, and the file name shows one `_` where the app writes two. Lone surrogates, legal in a JavaScript string, are not modelled.
- The PDF library (jsPDF) is not modelled: fonts, colours, text alignment, the `px` unit, and `addImage`/`save`. Drawn sections are recorded in a log. `splitTextToSize(...).length` is the parameter `lineCount`, and the page size is a parameter.
- `PdfLayout.ValidInputs`: the page size is taken as a parameter wider than two margins. The app always uses 600 by 800.
- Dates are formatted with date-fns `format`, which is the parameter `formatDate`.
- The browser's file reader, image decoder and link download are represented by the values they hand back: `ReadResult`, `Decode` and the `PngSaved` record.
- `Decode.Failed` covers any exception while adding the image to the PDF, whether the decode or `addImage` fails.
- Images of zero width or height are excluded. The app would compute NaN or Infinity for them. Real arithmetic replaces floating point.
- Notifications are not modelled, except the titles the page handlers and the refused downloads return.
- The AI flows (`generateTagline`, `generateEventImage`) become the parameter `Outcome`. The image flow's error for a missing media URL is one of its failures.
- Async code and overlapping requests are not modelled: each handler is one sequential step. The control's pending state between `BeginAttempt` and `SettleAttempt` is therefore never seen by another handler.
- Template selection cannot be reached from the interface as written: the library's Select button is disabled (src/components/flyerly/TemplateLibrary.tsx:46), and its own example templates carry no default fields. `Page.HomePage.HandleTemplateSelect` and `Wiring.SelectTemplate` model the page's handler as if it were called.
- The form, the template library, the header and the template catalog are not part of this model. A template is a record with optional defaults. An empty default counts as absent, as `||` reads it. The template's icon is not modelled.
- The `currentImageHint` prop is passed to the preview, which ignores it. See `Wiring.PreviewHintAgrees`.
- Resetting the file input (`event.target.value = ''`) is not modelled.
- The upload button and the `fileInputRef` click are not modelled.
- Wiring.UploadFile: uses the corrected upload check `FileChangeIntended`, not the handler as written. See Findings.

Where a reader might expect otherwise, the model follows the code:

- A template without a default tagline resets the tagline to `'Your Amazing Tagline Goes Here!'`; it does not keep the old one.
- A name made only of symbols becomes underscores. Only an empty name gives `flyer`.

## Findings

| source | as written | input that shows it | evidently intended | confidence | as-written member | corrected member |
|---|---|---|---|---|---|---|
| src/components/flyerly/FlyerPreview.tsx:48-57 | `onloadend` calls `onImageUpload(reader.result)`; a file reader fires `loadend` after `error` too, with a `null` result | an `image/png` file whose read fails: "File Read Error" is shown, and then the page's image is set to `null`, clearing the current image (page effect stated by `Wiring.UploadFileAsWritten`) | a failed read only reports the error and leaves the page's image as it was | medium, not executed | FlyerPreview.ReadErrorUploadsNullExample | FlyerPreview.FileChangeIntended |
