/** The document export of the flyer preview (FlyerPreview.tsx, lines
    82-170): a portrait page composed top to bottom by a running cursor.
    The document library is not modelled: what it draws is recorded as a
    list of sections with the cursor position each was drawn at, the page
    size is a parameter, `splitTextToSize(text, width).length` is the
    parameter `lineCount` and the date formatter the parameter
    `formatDate`. */
module PdfLayout {
  import opened JsValues
  import opened FlyerTypes

  /** The page margin, and the first value of the cursor. */
  const Margin: real := 30.0

  /** The name drawn when the event has none. */
  const EventNameFallback: string := "Event Name"

  /** What the browser's image decoder reports for the active image. */
  datatype Decode = Loaded(width: real, height: real) | Failed

  /** The page size and the decoder's answer the composition can work with:
      a page wider than its two margins and decoded images of positive size. */
  predicate ValidInputs(pageWidth: real, pageHeight: real, decode: Decode) {
    pageWidth > 2.0 * Margin && pageHeight > 0.0 &&
    (decode.Loaded? ==> decode.width > 0.0 && decode.height > 0.0)
  }

  /** Where the image is placed: left edge, width and height. */
  datatype Fit = Fit(x: real, width: real, height: real)

  /** The image scaled to the width between the margins and, if that makes it
      taller than half the page, to half the page height instead. It keeps
      the source's aspect ratio, fits both bounds, touches one of them and
      is centred horizontally, never nearer the edge than the margin. */
  function FitImage(pageWidth: real, pageHeight: real, imgWidth: real, imgHeight: real): (f: Fit)
    requires pageWidth > 2.0 * Margin && pageHeight > 0.0
    requires imgWidth > 0.0 && imgHeight > 0.0
    ensures 0.0 < f.height <= pageHeight * 0.5
    ensures 0.0 < f.width <= pageWidth - 2.0 * Margin
    ensures f.width * imgHeight == f.height * imgWidth
    ensures f.width == pageWidth - 2.0 * Margin || f.height == pageHeight * 0.5
    ensures f.x == (pageWidth - f.width) / 2.0 && f.x >= Margin
  {
    var aspectRatio := imgWidth / imgHeight;
    var fullWidth := pageWidth - 2.0 * Margin;
    var maxImageHeight := pageHeight * 0.5;
    if fullWidth / aspectRatio > maxImageHeight then
      var w := maxImageHeight * aspectRatio;
      assert w * imgHeight == maxImageHeight * imgWidth;
      assert w < fullWidth by { DivBound(fullWidth, aspectRatio, maxImageHeight); }
      Fit((pageWidth - w) / 2.0, w, maxImageHeight)
    else
      var h := fullWidth / aspectRatio;
      assert fullWidth * imgHeight == h * imgWidth by { DivAspect(fullWidth, imgWidth, imgHeight); }
      Fit((pageWidth - fullWidth) / 2.0, fullWidth, h)
  }

  /** `n / d > m` with a positive `d` means `m * d < n`. */
  lemma DivBound(n: real, d: real, m: real)
    requires d > 0.0 && n / d > m
    ensures m * d < n
  {
    assert n == (n / d) * d;
  }

  /** Scaling by the inverse aspect ratio keeps width over height. */
  lemma DivAspect(w: real, imgWidth: real, imgHeight: real)
    requires imgWidth > 0.0 && imgHeight > 0.0
    ensures w * imgHeight == (w / (imgWidth / imgHeight)) * imgWidth
  {
    var a := imgWidth / imgHeight;
    assert a * imgHeight == imgWidth;
    assert (w / a) * a == w;
    calc {
      (w / a) * imgWidth;
      (w / a) * (a * imgHeight);
      ((w / a) * a) * imgHeight;
      w * imgHeight;
    }
  }

  /** The sections of the document, in the order the composition visits them. */
  datatype Kind = ImageKind | NameKind | TaglineKind | DateKind | LocationKind | DescriptionKind

  /** One thing drawn on the page: the image (source, left edge, size) or a
      block of text with its kind, its anchor `x` (the page centre for the
      name and the tagline, the margin for the rest) and its wrapped line
      count (1 for the date, which is drawn as a single string). */
  datatype Section =
    | Picture(uri: string, x: real, width: real, height: real)
    | Text(kind: Kind, text: string, x: real, lines: nat)

  function KindOf(s: Section): Kind {
    if s.Picture? then ImageKind else s.kind
  }

  /** Position of a kind in the fixed section order. */
  function Rank(k: Kind): nat {
    match k
    case ImageKind => 0
    case NameKind => 1
    case TaglineKind => 2
    case DateKind => 3
    case LocationKind => 4
    case DescriptionKind => 5
  }

  /** A section and the cursor value it was drawn at. */
  datatype Drawn = Drawn(section: Section, y: real)

  /** The drawn sections so far and the cursor. */
  datatype Layout = Layout(drawn: seq<Drawn>, cursor: real)

  /** One stage of the composition: move the cursor by `gapBefore`, draw
      `draw` (if any) there, then move the cursor by `gapAfter`. */
  datatype Step = Step(gapBefore: real, draw: Option<Section>, gapAfter: real)

  /** A stage that draws nothing and reserves no space. */
  const Skip: Step := Step(0.0, None, 0.0)

  function Apply(l: Layout, s: Step): Layout {
    var at := l.cursor + s.gapBefore;
    if s.draw.Some? then Layout(l.drawn + [Drawn(s.draw.value, at)], at + s.gapAfter)
    else Layout(l.drawn, at + s.gapAfter)
  }

  /** The stages run in order from an empty page with the cursor at `start`. */
  function Run(steps: seq<Step>, start: real): Layout
    decreases |steps|
  {
    if steps == [] then Layout([], start)
    else Apply(Run(steps[..|steps| - 1], start), steps[|steps| - 1])
  }

  /** The image stage: a decoded image is placed and the cursor moves past it
      and a 20 pixel gap; a failed decode, an empty or absent image moves the
      cursor by the gap alone. */
  function ImageStep(pageWidth: real, pageHeight: real, currentImage: Option<string>, decode: Decode): Step
    requires ValidInputs(pageWidth, pageHeight, decode)
  {
    if TruthyOpt(currentImage) && decode.Loaded? then
      var f := FitImage(pageWidth, pageHeight, decode.width, decode.height);
      Step(0.0, Some(Picture(currentImage.value, f.x, f.width, f.height)), f.height + 20.0)
    else
      Step(0.0, None, 20.0)
  }

  /** The name stage: never skipped; the name falls back to `Event Name`,
      is centred and moves the cursor by 20 per line plus 10. */
  function NameStep(pageWidth: real, details: EventDetails, lineCount: (string, real) -> nat): Step {
    var name := Or(details.name, EventNameFallback);
    var lines := lineCount(name, pageWidth - 2.0 * Margin);
    Step(0.0, Some(Text(NameKind, name, pageWidth / 2.0, lines)), (lines * 20 + 10) as real)
  }

  /** The tagline stage: only for a non-empty tagline, wrapped 20 pixels
      narrower than the name, centred, 12 per line plus 15. */
  function TaglineStep(pageWidth: real, tagline: string, lineCount: (string, real) -> nat): Step {
    if Truthy(tagline) then
      var lines := lineCount(tagline, pageWidth - 2.0 * Margin - 20.0);
      Step(0.0, Some(Text(TaglineKind, tagline, pageWidth / 2.0, lines)), (lines * 12 + 15) as real)
    else Skip
  }

  /** The date stage: only for a set date, one formatted line at the margin,
      20 pixels. */
  function DateStep(details: EventDetails, formatDate: Date -> string): Step {
    if details.date.Some? then
      Step(0.0, Some(Text(DateKind, formatDate(details.date.value), Margin, 1)), 20.0)
    else Skip
  }

  /** The location stage: only for a non-empty location, at the margin,
      12 per line plus 10. */
  function LocationStep(pageWidth: real, details: EventDetails, lineCount: (string, real) -> nat): Step {
    if Truthy(details.location) then
      var lines := lineCount(details.location, pageWidth - 2.0 * Margin);
      Step(0.0, Some(Text(LocationKind, details.location, Margin, lines)), (lines * 12 + 10) as real)
    else Skip
  }

  /** The description stage: only for a non-empty description; the cursor
      moves by 5 before it is drawn at the margin, and nothing follows. */
  function DescriptionStep(pageWidth: real, details: EventDetails, lineCount: (string, real) -> nat): Step {
    if Truthy(details.description) then
      var lines := lineCount(details.description, pageWidth - 2.0 * Margin);
      Step(5.0, Some(Text(DescriptionKind, details.description, Margin, lines)), 0.0)
    else Skip
  }

  /** The six stages of the composition, in order. */
  function Plan(pageWidth: real, pageHeight: real, details: EventDetails, tagline: string,
                currentImage: Option<string>, decode: Decode,
                lineCount: (string, real) -> nat, formatDate: Date -> string): seq<Step>
    requires ValidInputs(pageWidth, pageHeight, decode)
  {
    [ ImageStep(pageWidth, pageHeight, currentImage, decode),
      NameStep(pageWidth, details, lineCount),
      TaglineStep(pageWidth, tagline, lineCount),
      DateStep(details, formatDate),
      LocationStep(pageWidth, details, lineCount),
      DescriptionStep(pageWidth, details, lineCount) ]
  }

  /** Running one more stage applies it to the layout so far. */
  lemma RunSnoc(steps: seq<Step>, k: nat, start: real)
    requires k < |steps|
    ensures Run(steps[..k + 1], start) == Apply(Run(steps[..k], start), steps[k])
  {
    assert steps[..k + 1][..k] == steps[..k];
  }

  /** Six stages run one after the other. */
  lemma RunSix(steps: seq<Step>, start: real)
    requires |steps| == 6
    ensures Run(steps, start)
         == Apply(Apply(Apply(Apply(Apply(Apply(Layout([], start),
              steps[0]), steps[1]), steps[2]), steps[3]), steps[4]), steps[5])
  {
    RunSnoc(steps, 0, start);
    RunSnoc(steps, 1, start);
    RunSnoc(steps, 2, start);
    RunSnoc(steps, 3, start);
    RunSnoc(steps, 4, start);
    RunSnoc(steps, 5, start);
    assert steps[..6] == steps;
  }

  /** The document the composition produces. */
  function Compose(pageWidth: real, pageHeight: real, details: EventDetails, tagline: string,
                   currentImage: Option<string>, decode: Decode,
                   lineCount: (string, real) -> nat, formatDate: Date -> string): Layout
    requires ValidInputs(pageWidth, pageHeight, decode)
  {
    Run(Plan(pageWidth, pageHeight, details, tagline, currentImage, decode, lineCount, formatDate), Margin)
  }

  /** The kinds of the drawn sections, in drawing order. */
  function Kinds(drawn: seq<Drawn>): (ks: seq<Kind>)
    ensures |ks| == |drawn|
    ensures forall i :: 0 <= i < |drawn| ==> ks[i] == KindOf(drawn[i].section)
  {
    if drawn == [] then [] else [KindOf(drawn[0].section)] + Kinds(drawn[1..])
  }

  /** The kind a stage draws, if it draws anything. */
  function StepKinds(s: Step): seq<Kind> {
    if s.draw.Some? then [KindOf(s.draw.value)] else []
  }

  /** A stage adds its own section, if any, after those drawn before. */
  lemma KindsApply(l: Layout, s: Step)
    ensures Kinds(Apply(l, s).drawn) == Kinds(l.drawn) + StepKinds(s)
  {
    var d := Apply(l, s).drawn;
    assert |Kinds(d)| == |Kinds(l.drawn) + StepKinds(s)|;
    forall i | 0 <= i < |d| ensures Kinds(d)[i] == (Kinds(l.drawn) + StepKinds(s))[i] {
      if i < |l.drawn| { assert d[i] == l.drawn[i]; }
    }
  }

  /** No stage moves the cursor up. */
  predicate Forward(steps: seq<Step>) {
    forall i :: 0 <= i < |steps| ==> steps[i].gapBefore >= 0.0 && steps[i].gapAfter >= 0.0
  }

  /** The cursor positions of a layout never go back: every section is drawn
      at or below `start`, each at or below the ones drawn before it, and the
      final cursor is at or below all of them. */
  predicate Descending(l: Layout, start: real) {
    start <= l.cursor &&
    (forall i :: 0 <= i < |l.drawn| ==> start <= l.drawn[i].y <= l.cursor) &&
    (forall i, j :: 0 <= i < j < |l.drawn| ==> l.drawn[i].y <= l.drawn[j].y)
  }

  /** Stages that never move the cursor up lay out a descending document. */
  lemma {:induction false} RunDescending(steps: seq<Step>, start: real)
    requires Forward(steps)
    ensures Descending(Run(steps, start), start)
    decreases |steps|
  {
    if steps != [] {
      var init := steps[..|steps| - 1];
      assert Forward(init) by {
        forall i | 0 <= i < |init| ensures init[i].gapBefore >= 0.0 && init[i].gapAfter >= 0.0 {
          assert init[i] == steps[i];
        }
      }
      RunDescending(init, start);
      assert steps[|steps| - 1].gapBefore >= 0.0 && steps[|steps| - 1].gapAfter >= 0.0;
    }
  }

  /** Stage `i` draws, if anything, a section of rank `i`. */
  predicate RankedPlan(steps: seq<Step>) {
    forall i :: 0 <= i < |steps| && steps[i].draw.Some? ==> Rank(KindOf(steps[i].draw.value)) == i
  }

  /** Sections whose ranks strictly increase in drawing order, all below `bound`. */
  predicate RankedBelow(drawn: seq<Drawn>, bound: nat) {
    (forall i :: 0 <= i < |drawn| ==> Rank(KindOf(drawn[i].section)) < bound) &&
    (forall i, j :: 0 <= i < j < |drawn| ==> Rank(KindOf(drawn[i].section)) < Rank(KindOf(drawn[j].section)))
  }

  /** Stages whose ranks follow their positions draw their sections in rank order. */
  lemma {:induction false} RunRanked(steps: seq<Step>, start: real)
    requires RankedPlan(steps)
    ensures RankedBelow(Run(steps, start).drawn, |steps|)
    decreases |steps|
  {
    if steps != [] {
      var init := steps[..|steps| - 1];
      assert RankedPlan(init) by {
        forall i | 0 <= i < |init| && init[i].draw.Some? ensures Rank(KindOf(init[i].draw.value)) == i {
          assert init[i] == steps[i];
        }
      }
      RunRanked(init, start);
    }
  }

  /** The stages run first stay at the front of the document. */
  lemma {:induction false} RunExtends(steps: seq<Step>, k: nat, start: real)
    requires k <= |steps|
    ensures Run(steps[..k], start).drawn <= Run(steps, start).drawn
    decreases |steps| - k
  {
    if k < |steps| {
      var init := steps[..|steps| - 1];
      assert steps[..k] == init[..k];
      RunExtends(init, k, start);
    } else {
      assert steps[..k] == steps;
    }
  }

  /** Six stages draw the sections they carry, in order. */
  lemma KindsSix(steps: seq<Step>, start: real)
    requires |steps| == 6
    ensures Kinds(Run(steps, start).drawn)
         == StepKinds(steps[0]) + StepKinds(steps[1]) + StepKinds(steps[2])
          + StepKinds(steps[3]) + StepKinds(steps[4]) + StepKinds(steps[5])
  {
    RunSix(steps, start);
    var l0 := Layout([], start);
    var l1 := Apply(l0, steps[0]);
    var l2 := Apply(l1, steps[1]);
    var l3 := Apply(l2, steps[2]);
    var l4 := Apply(l3, steps[3]);
    var l5 := Apply(l4, steps[4]);
    KindsApply(l0, steps[0]);
    assert Kinds(l1.drawn) == StepKinds(steps[0]);
    KindsApply(l1, steps[1]);
    assert Kinds(l2.drawn) == StepKinds(steps[0]) + StepKinds(steps[1]);
    KindsApply(l2, steps[2]);
    assert Kinds(l3.drawn) == StepKinds(steps[0]) + StepKinds(steps[1]) + StepKinds(steps[2]);
    KindsApply(l3, steps[3]);
    assert Kinds(l4.drawn) == StepKinds(steps[0]) + StepKinds(steps[1]) + StepKinds(steps[2])
                            + StepKinds(steps[3]);
    KindsApply(l4, steps[4]);
    assert Kinds(l5.drawn) == StepKinds(steps[0]) + StepKinds(steps[1]) + StepKinds(steps[2])
                            + StepKinds(steps[3]) + StepKinds(steps[4]);
    KindsApply(l5, steps[5]);
  }

  /** Whether the image stage places the image. */
  predicate ImagePlaced(currentImage: Option<string>, decode: Decode) {
    TruthyOpt(currentImage) && decode.Loaded?
  }

  /** The sections of the document and their order: the image when it was
      placed, then the name (always), the tagline when not empty, the date
      when set, the location and the description when not empty. */
  lemma LayoutSections(pageWidth: real, pageHeight: real, details: EventDetails, tagline: string,
                       currentImage: Option<string>, decode: Decode,
                       lineCount: (string, real) -> nat, formatDate: Date -> string)
    requires ValidInputs(pageWidth, pageHeight, decode)
    ensures Kinds(Compose(pageWidth, pageHeight, details, tagline, currentImage, decode, lineCount, formatDate).drawn)
         == (if ImagePlaced(currentImage, decode) then [ImageKind] else []) + [NameKind]
          + (if Truthy(tagline) then [TaglineKind] else [])
          + (if details.date.Some? then [DateKind] else [])
          + (if Truthy(details.location) then [LocationKind] else [])
          + (if Truthy(details.description) then [DescriptionKind] else [])
  {
    var plan := Plan(pageWidth, pageHeight, details, tagline, currentImage, decode, lineCount, formatDate);
    KindsSix(plan, Margin);
  }

  /** Every section appears at most once and in the fixed order. */
  lemma LayoutOrdered(pageWidth: real, pageHeight: real, details: EventDetails, tagline: string,
                      currentImage: Option<string>, decode: Decode,
                      lineCount: (string, real) -> nat, formatDate: Date -> string)
    requires ValidInputs(pageWidth, pageHeight, decode)
    ensures var d := Compose(pageWidth, pageHeight, details, tagline, currentImage, decode, lineCount, formatDate).drawn;
            forall i, j :: 0 <= i < j < |d| ==> Rank(KindOf(d[i].section)) < Rank(KindOf(d[j].section))
  {
    var plan := Plan(pageWidth, pageHeight, details, tagline, currentImage, decode, lineCount, formatDate);
    assert RankedPlan(plan);
    RunRanked(plan, Margin);
  }

  /** The cursor starts at the margin and never decreases. */
  lemma LayoutDescending(pageWidth: real, pageHeight: real, details: EventDetails, tagline: string,
                         currentImage: Option<string>, decode: Decode,
                         lineCount: (string, real) -> nat, formatDate: Date -> string)
    requires ValidInputs(pageWidth, pageHeight, decode)
    ensures Descending(Compose(pageWidth, pageHeight, details, tagline, currentImage, decode, lineCount, formatDate), Margin)
  {
    var plan := Plan(pageWidth, pageHeight, details, tagline, currentImage, decode, lineCount, formatDate);
    assert Forward(plan);
    RunDescending(plan, Margin);
  }

  /** The image stage: a placed image sits at the margin, with the fitted
      size, and the name follows it at `margin + height + 20`; otherwise
      (no image, an empty one, or a failed decode) the name comes first, at
      `margin + 20`, so the text is laid out in every case. */
  lemma LayoutAfterImage(pageWidth: real, pageHeight: real, details: EventDetails, tagline: string,
                         currentImage: Option<string>, decode: Decode,
                         lineCount: (string, real) -> nat, formatDate: Date -> string)
    requires ValidInputs(pageWidth, pageHeight, decode)
    ensures var d := Compose(pageWidth, pageHeight, details, tagline, currentImage, decode, lineCount, formatDate).drawn;
            if ImagePlaced(currentImage, decode) then
              var f := FitImage(pageWidth, pageHeight, decode.width, decode.height);
              |d| >= 2 && d[0] == Drawn(Picture(currentImage.value, f.x, f.width, f.height), Margin) &&
              KindOf(d[1].section) == NameKind && d[1].y == Margin + f.height + 20.0
            else
              |d| >= 1 && KindOf(d[0].section) == NameKind && d[0].y == Margin + 20.0
  {
    var plan := Plan(pageWidth, pageHeight, details, tagline, currentImage, decode, lineCount, formatDate);
    RunExtends(plan, 2, Margin);
    RunSnoc(plan, 0, Margin);
    RunSnoc(plan, 1, Margin);
  }

  /** The image placement as the export computes it: the width between the
      margins first, then, if the height that gives exceeds half the page,
      the height reassigned to that cap and the width derived from it. */
  method PlaceImage(pageWidth: real, pageHeight: real, imgWidth: real, imgHeight: real)
    returns (xPosImg: real, pdfImgWidth: real, pdfImgHeight: real)
    requires pageWidth > 2.0 * Margin && pageHeight > 0.0
    requires imgWidth > 0.0 && imgHeight > 0.0
    ensures Fit(xPosImg, pdfImgWidth, pdfImgHeight) == FitImage(pageWidth, pageHeight, imgWidth, imgHeight)
  {
    var aspectRatio := imgWidth / imgHeight;
    pdfImgWidth := pageWidth - 2.0 * Margin;
    pdfImgHeight := pdfImgWidth / aspectRatio;
    var maxImageHeight := pageHeight * 0.5;
    if pdfImgHeight > maxImageHeight {
      pdfImgHeight := maxImageHeight;
      pdfImgWidth := pdfImgHeight * aspectRatio;
    }
    xPosImg := (pageWidth - pdfImgWidth) / 2.0;
  }

  /** The composition as the export runs it: one running cursor, moved
      section by section, and the image size reassigned by the clamp. It
      also reports whether the image could not be added (the error
      notification), in which case the text is still laid out. */
  method ComposePdf(pageWidth: real, pageHeight: real, details: EventDetails, tagline: string,
                    currentImage: Option<string>, decode: Decode,
                    lineCount: (string, real) -> nat, formatDate: Date -> string)
    returns (drawn: seq<Drawn>, currentY: real, imageError: bool)
    requires ValidInputs(pageWidth, pageHeight, decode)
    ensures Layout(drawn, currentY) == Compose(pageWidth, pageHeight, details, tagline, currentImage, decode, lineCount, formatDate)
    ensures imageError <==> TruthyOpt(currentImage) && decode.Failed?
  {
    currentY := Margin;
    drawn := [];
    imageError := false;
    ghost var l := Layout(drawn, currentY);

    if TruthyOpt(currentImage) {
      match decode
      case Loaded(imgWidth, imgHeight) =>
        var xPosImg, pdfImgWidth, pdfImgHeight := PlaceImage(pageWidth, pageHeight, imgWidth, imgHeight);
        drawn := drawn + [Drawn(Picture(currentImage.value, xPosImg, pdfImgWidth, pdfImgHeight), currentY)];
        currentY := currentY + (pdfImgHeight + 20.0);
      case Failed =>
        imageError := true;
        currentY := currentY + 20.0;
    } else {
      currentY := currentY + 20.0;
    }
    assert Layout(drawn, currentY) == Apply(l, ImageStep(pageWidth, pageHeight, currentImage, decode));
    l := Layout(drawn, currentY);

    var textWidth := pageWidth - 2.0 * Margin;
    var eventName := Or(details.name, EventNameFallback);
    var eventNameLines := lineCount(eventName, textWidth);
    drawn := drawn + [Drawn(Text(NameKind, eventName, pageWidth / 2.0, eventNameLines), currentY)];
    currentY := currentY + (eventNameLines * 20 + 10) as real;
    assert Layout(drawn, currentY) == Apply(l, NameStep(pageWidth, details, lineCount));
    l := Layout(drawn, currentY);

    if Truthy(tagline) {
      var taglineLines := lineCount(tagline, textWidth - 20.0);
      drawn := drawn + [Drawn(Text(TaglineKind, tagline, pageWidth / 2.0, taglineLines), currentY)];
      currentY := currentY + (taglineLines * 12 + 15) as real;
    }
    assert Layout(drawn, currentY) == Apply(l, TaglineStep(pageWidth, tagline, lineCount));
    l := Layout(drawn, currentY);

    drawn, currentY := ComposeDetails(pageWidth, details, lineCount, formatDate, drawn, currentY);
    RunSix(Plan(pageWidth, pageHeight, details, tagline, currentImage, decode, lineCount, formatDate), Margin);
  }

  /** The detail sections of the composition, in the normal font: date,
      location and description, continuing from `drawn0` and `y0`. */
  method ComposeDetails(pageWidth: real, details: EventDetails,
                        lineCount: (string, real) -> nat, formatDate: Date -> string,
                        drawn0: seq<Drawn>, y0: real)
    returns (drawn: seq<Drawn>, currentY: real)
    ensures Layout(drawn, currentY)
         == Apply(Apply(Apply(Layout(drawn0, y0), DateStep(details, formatDate)),
              LocationStep(pageWidth, details, lineCount)), DescriptionStep(pageWidth, details, lineCount))
  {
    drawn, currentY := drawn0, y0;
    ghost var l := Layout(drawn, currentY);
    var textWidth := pageWidth - 2.0 * Margin;

    if details.date.Some? {
      drawn := drawn + [Drawn(Text(DateKind, formatDate(details.date.value), Margin, 1), currentY)];
      currentY := currentY + 20.0;
    }
    assert Layout(drawn, currentY) == Apply(l, DateStep(details, formatDate));
    l := Layout(drawn, currentY);

    if Truthy(details.location) {
      var locationLines := lineCount(details.location, textWidth);
      drawn := drawn + [Drawn(Text(LocationKind, details.location, Margin, locationLines), currentY)];
      currentY := currentY + (locationLines * 12 + 10) as real;
    }
    assert Layout(drawn, currentY) == Apply(l, LocationStep(pageWidth, details, lineCount));
    l := Layout(drawn, currentY);

    if Truthy(details.description) {
      currentY := currentY + 5.0;
      var descriptionLines := lineCount(details.description, textWidth);
      drawn := drawn + [Drawn(Text(DescriptionKind, details.description, Margin, descriptionLines), currentY)];
    }
    assert Layout(drawn, currentY) == Apply(l, DescriptionStep(pageWidth, details, lineCount));
  }
}