/** The decisions of image and PDF export: which sources must be present,
    the canvas size, which overlay is rasterised, and the PDF layout.
    Drawing, encoding and downloading are left to the browser. */
module Export {
  import opened Common
  import opened SvgPrep
  import opened DragLabel

  /** The image element: only its intrinsic size matters here. */
  datatype ImageElement = ImageElement(naturalWidth: nat, naturalHeight: nat)

  /** What the stage query found: the first `img` and the first `svg`. */
  datatype Stage = Stage(img: Option<ImageElement>, svg: Option<Node>)

  datatype Canvas = Canvas(width: nat, height: nat)

  datatype Result<T> = Ok(value: T) | Err(message: string)

  /** A piece of text placed on a PDF page. */
  datatype TextLine = TextLine(text: string, x: int, y: int, fontSize: nat)

  datatype ImageExport = ImageExport(canvas: Canvas, imageSrc: string, overlay: Node, fileName: string)

  datatype PdfExport = PdfExport(
    canvas: Canvas,
    imageSrc: string,
    overlay: Node,
    orientation: string,
    unit: string,
    pageWidth: nat,
    pageHeight: nat,
    title: TextLine,
    legend: seq<TextLine>,
    fileName: string)

  const NothingToExport: string := "Nothing to export"
  const NoImageLoaded: string := "No image loaded"
  const LegendTitle: string := "Family Tags List"

  /** The image element, the overlay and a non-empty image source are all
      there (an empty source string is as good as none). */
  predicate HasSources(stage: Stage, imageSrc: Option<string>)
    ensures !HasSources(stage, imageSrc) <==>
      stage.img == None || stage.svg == None || imageSrc == None || imageSrc == Some("")
  {
    stage.img.Some? && stage.svg.Some? && imageSrc.Some? && imageSrc.value != ""
  }

  /** The export canvas has the image's intrinsic size, not its displayed one. */
  function CreateCanvas(img: ImageElement): (c: Canvas)
    ensures c.width == img.naturalWidth && c.height == img.naturalHeight
  {
    Canvas(img.naturalWidth, img.naturalHeight)
  }

  /** Image export: the overlay is cleaned and then converted to pixels of
      the canvas; missing sources abort with "Nothing to export". */
  function ExportAsImage(stage: Stage, imageSrc: Option<string>): (r: Result<ImageExport>)
    requires stage.svg.Some? ==> stage.svg.value.Element?
    ensures r.Err? <==> !HasSources(stage, imageSrc)
    ensures r.Err? ==> r.message == NothingToExport
    ensures r.Ok? ==>
      && r.value.canvas == Canvas(stage.img.value.naturalWidth, stage.img.value.naturalHeight)
      && r.value.imageSrc == imageSrc.value
      && r.value.overlay == FixSvgPercentUnits(CleanSvg(stage.svg.value), r.value.canvas.width as real, r.value.canvas.height as real)
      && CommentFree(r.value.overlay)
      && r.value.fileName == "family_tags.png"
  {
    if !HasSources(stage, imageSrc) then Err(NothingToExport)
    else
      var canvas := CreateCanvas(stage.img.value);
      var cleaned := CleanSvg(stage.svg.value);
      FixChildrenKeepCommentFree(cleaned.children, canvas.width as real, canvas.height as real);
      var overlay := FixSvgPercentUnits(cleaned, canvas.width as real, canvas.height as real);
      Ok(ImageExport(canvas, imageSrc.value, overlay, "family_tags.png"))
  }

  // ---------------------------------------------------------------------
  // The legend page

  function DigitChar(d: nat): (c: char)
    requires d < 10
    ensures '0' <= c <= '9' && c as int - '0' as int == d
  {
    ('0' as int + d) as char
  }

  /** The decimal form of a label number, without leading zeros. */
  function NatToDecimal(n: nat): (s: string)
    ensures |s| >= 1
    ensures forall i :: 0 <= i < |s| ==> '0' <= s[i] <= '9'
    ensures n > 0 ==> s[0] != '0'
    ensures n < 10 ==> |s| == 1
    decreases n
  {
    if n < 10 then [DigitChar(n)] else NatToDecimal(n / 10) + [DigitChar(n % 10)]
  }

  predicate AllDigits(s: string)
  {
    forall i :: 0 <= i < |s| ==> '0' <= s[i] <= '9'
  }

  /** The number a string of decimal digits denotes. */
  function DecimalValue(s: string): nat
    requires AllDigits(s)
    decreases |s|
  {
    if s == [] then 0
    else DecimalValue(s[..|s| - 1]) * 10 + (s[|s| - 1] as int - '0' as int)
  }

  lemma {:induction false} DecimalRoundTrip(n: nat)
    ensures DecimalValue(NatToDecimal(n)) == n
    decreases n
  {
    var s := NatToDecimal(n);
    if n >= 10 {
      DecimalRoundTrip(n / 10);
      assert s[..|s| - 1] == NatToDecimal(n / 10);
    }
  }

  /** The text of a legend line: `<label>. <name>`. */
  function LegendText(a: LabelAnnotation): (r: string)
    ensures DecimalValue(LeadingDigits(r)) == a.labelNumber
    ensures |r| >= |a.name| + 3 && r[|r| - |a.name|..] == a.name
    ensures r[|r| - |a.name| - 2..|r| - |a.name|] == ". "
    ensures r == LeadingDigits(r) + ". " + a.name
    ensures |LeadingDigits(r)| >= 1 && (LeadingDigits(r)[0] != '0' || |LeadingDigits(r)| == 1)
  {
    var d := NatToDecimal(a.labelNumber);
    LeadingDigitsOfPrefix(d, ". " + a.name);
    DecimalRoundTrip(a.labelNumber);
    assert d + ". " + a.name == d + (". " + a.name);
    d + ". " + a.name
  }

  /** The longest prefix of decimal digits of a string. */
  function LeadingDigits(s: string): (r: string)
    ensures AllDigits(r) && |r| <= |s| && r == s[..|r|]
    ensures |r| == |s| || !('0' <= s[|r|] <= '9')
  {
    if s == [] || !('0' <= s[0] <= '9') then [] else [s[0]] + LeadingDigits(s[1..])
  }

  lemma {:induction false} LeadingDigitsOfPrefix(d: string, rest: string)
    requires AllDigits(d)
    requires rest != [] && !('0' <= rest[0] <= '9')
    ensures LeadingDigits(d + rest) == d
    decreases |d|
  {
    if d == [] {
      assert d + rest == rest;
    } else {
      assert (d + rest)[1..] == d[1..] + rest;
      LeadingDigitsOfPrefix(d[1..], rest);
      assert d == [d[0]] + d[1..];
    }
  }

  /** Legend line i reads `<label>. <name>` for the i-th annotation, at
      x = 20 and y = 80 + 24 i, in 14-point type. */
  method LayoutLegend(annotations: seq<LabelAnnotation>) returns (lines: seq<TextLine>)
    ensures |lines| == |annotations|
    ensures forall i :: 0 <= i < |annotations| ==>
      lines[i] == TextLine(LegendText(annotations[i]), 20, 80 + 24 * i, 14)
  {
    lines := [];
    var y := 80;
    for i := 0 to |annotations|
      invariant |lines| == i
      invariant y == 80 + 24 * i
      invariant forall j :: 0 <= j < i ==> lines[j] == TextLine(LegendText(annotations[j]), 20, 80 + 24 * j, 14)
    {
      lines := lines + [TextLine(LegendText(annotations[i]), 20, y, 14)];
      y := y + 24;
    }
  }

  /** PDF export: page one holds the canvas (overlay cleaned but left in
      percentages), page two the title and the legend; the page is 400 px
      taller than the canvas. Missing sources abort with "No image loaded". */
  method ExportAsPdf(stage: Stage, imageSrc: Option<string>, annotations: seq<LabelAnnotation>)
    returns (r: Result<PdfExport>)
    requires stage.svg.Some? ==> stage.svg.value.Element?
    ensures r.Err? <==> !HasSources(stage, imageSrc)
    ensures r.Err? ==> r.message == NoImageLoaded
    ensures r.Ok? ==>
      && r.value.canvas == Canvas(stage.img.value.naturalWidth, stage.img.value.naturalHeight)
      && r.value.imageSrc == imageSrc.value
      && r.value.overlay == CleanSvg(stage.svg.value)
      && r.value.orientation == "portrait"
      && r.value.unit == "px"
      && r.value.pageWidth == r.value.canvas.width
      && r.value.pageHeight == r.value.canvas.height + 400
      && r.value.title == TextLine(LegendTitle, 20, 40, 18)
      && |r.value.legend| == |annotations|
      && (forall i :: 0 <= i < |annotations| ==>
            r.value.legend[i] == TextLine(LegendText(annotations[i]), 20, 80 + 24 * i, 14))
      && r.value.fileName == "family_tags.pdf"
  {
    if !HasSources(stage, imageSrc) {
      return Err(NoImageLoaded);
    }
    var canvas := CreateCanvas(stage.img.value);
    var overlay := CleanSvg(stage.svg.value);
    var legend := LayoutLegend(annotations);
    r := Ok(PdfExport(canvas, imageSrc.value, overlay, "portrait", "px", canvas.width, canvas.height + 400,
                      TextLine(LegendTitle, 20, 40, 18), legend, "family_tags.pdf"));
  }
}
