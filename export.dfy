/** The two exporters of a stored analysis: the PDF report, whose vertical
    cursor and page breaks are modelled step by step, and the flattened image,
    of which the icon choice, the reasons list and the download name are
    modelled. jsPDF is modelled by the calls made on it; the text wrapping it
    does (`splitTextToSize`, which depends on font metrics) is a parameter. */
module Export {
  import opened Common

  /** An analysis as both exporters receive it. `dateText` is the rendered
      `toLocaleDateString()` of `created_at`, `confidenceText` the rendered
      `${confidence}`. `reasons` is None when the stored value is not an array. */
  datatype Analysis = Analysis(
    id: string,
    imageUrl: string,
    bias: string,
    confidenceText: string,
    reasons: Option<seq<string>>,
    bestMove: string,
    dateText: string)

  /** `Array.isArray(analysis.reasons) ? analysis.reasons : []`. */
  function NormalizeReasons(reasons: Option<seq<string>>): seq<string> {
    match reasons
    case Some(rs) => rs
    case None => []
  }

  // ---------------------------------------------------------------------------
  // File names

  /** `id.substring(0, 8)`. */
  function IdPrefix(id: string): string {
    id[..if |id| < 8 then |id| else 8]
  }

  function PdfFileName(id: string): string {
    "analysis-" + IdPrefix(id) + ".pdf"
  }

  function PngFileName(id: string): string {
    "analysis-" + IdPrefix(id) + ".png"
  }

  /** Both names read "analysis-", then the first min(8, |id|) characters of
      the id, then the extension; so the name gives back the id's prefix, and
      two ids get the same name exactly when their first eight characters agree. */
  lemma FileNameParts(id: string, other: string)
    ensures var n := PdfFileName(id);
      && |n| == 13 + (if |id| < 8 then |id| else 8)
      && n[..9] == "analysis-" && n[|n| - 4..] == ".pdf"
      && n[9..|n| - 4] == id[..if |id| < 8 then |id| else 8]
    ensures var n := PngFileName(id);
      && |n| == 13 + (if |id| < 8 then |id| else 8)
      && n[..9] == "analysis-" && n[|n| - 4..] == ".png"
      && n[9..|n| - 4] == id[..if |id| < 8 then |id| else 8]
    ensures PdfFileName(id) == PdfFileName(other) <==> IdPrefix(id) == IdPrefix(other)
  {
    var n, m := PdfFileName(id), PdfFileName(other);
    assert n[9..|n| - 4] == IdPrefix(id);
    assert m[9..|m| - 4] == IdPrefix(other);
    var k := PngFileName(id);
    assert k[9..|k| - 4] == IdPrefix(id);
  }

  // ---------------------------------------------------------------------------
  // Reason labels: `${index + 1}. ${reason}`

  function DigitChar(d: nat): (c: char)
    requires d < 10
  {
    ('0' as int + d) as char
  }

  predicate IsDigit(c: char) {
    '0' <= c <= '9'
  }

  /** The decimal rendering of a natural number, as template literals write it. */
  function NatToString(n: nat): (r: string)
    ensures |r| > 0 && forall i :: 0 <= i < |r| ==> IsDigit(r[i])
    ensures r[0] == '0' ==> n == 0
  {
    if n < 10 then [DigitChar(n)] else NatToString(n / 10) + [DigitChar(n % 10)]
  }

  function DigitValue(c: char): nat
    requires IsDigit(c)
  {
    c as int - '0' as int
  }

  /** The number a string of decimal digits denotes. */
  function DecimalValue(s: string): nat
    requires forall i :: 0 <= i < |s| ==> IsDigit(s[i])
  {
    if s == [] then 0 else DecimalValue(s[..|s| - 1]) * 10 + DigitValue(s[|s| - 1])
  }

  /** Reading the rendered number back gives the number. */
  lemma {:induction false} DecimalRoundTrip(n: nat)
    ensures DecimalValue(NatToString(n)) == n
  {
    if n >= 10 {
      var a := NatToString(n / 10);
      assert (a + [DigitChar(n % 10)])[..|a|] == a;
      DecimalRoundTrip(n / 10);
    }
  }

  function Label(number: nat, reason: string): string {
    NatToString(number) + ". " + reason
  }

  lemma DotAfterDigits(a: string, r: string, b: string, t: string)
    requires |a| < |b| && a + ". " + r == b + ". " + t
    ensures !IsDigit(b[|a|])
  {
    assert (a + ". " + r)[|a|] == '.';
    assert (b + ". " + t)[|a|] == b[|a|];
  }

  /** Distinct numbers give distinct labels: the number before ". " can be read back. */
  lemma LabelInjective(n: nat, r: string, m: nat, t: string)
    requires Label(n, r) == Label(m, t)
    ensures n == m && r == t
  {
    var a, b := NatToString(n), NatToString(m);
    var l := Label(n, r);
    // The shorter rendering is followed by '.', where the longer has a digit.
    if |a| < |b| {
      DotAfterDigits(a, r, b, t);
    } else if |b| < |a| {
      DotAfterDigits(b, t, a, r);
    }
    assert a == l[..|a|] == b;
    DecimalRoundTrip(n);
    DecimalRoundTrip(m);
    assert r == l[|a| + 2..] == t;
  }

  // ---------------------------------------------------------------------------
  // The PDF document

  /** The jsPDF calls the export makes: `text`, `addPage`, `addImage`, `save`.
      Each drawing call records the page it lands on. */
  datatype Op =
    | Text(page: nat, y: int, text: string)
    | NewPage
    | Image(page: nat, y: int, height: int, data: string)
    | Save(fileName: string)

  /** A jsPDF document: the current page and the calls made on it so far. */
  class Pdf {
    var page: nat
    var ops: seq<Op>

    constructor ()
      ensures page == 1 && ops == []
    {
      page := 1;
      ops := [];
    }

    method AddPage()
      modifies this
      ensures page == old(page) + 1 && ops == old(ops) + [NewPage]
    {
      page := page + 1;
      ops := ops + [NewPage];
    }

    method DrawText(y: int, text: string)
      modifies this
      ensures page == old(page) && ops == old(ops) + [Text(page, y, text)]
    {
      ops := ops + [Text(page, y, text)];
    }

    method AddImage(y: int, height: int, data: string)
      modifies this
      ensures page == old(page) && ops == old(ops) + [Image(page, y, height, data)]
    {
      ops := ops + [Image(page, y, height, data)];
    }

    method SaveAs(fileName: string)
      modifies this
      ensures page == old(page) && ops == old(ops) + [Save(fileName)]
    {
      ops := ops + [Save(fileName)];
    }
  }

  /** What the image `fetch` and `FileReader` produce: a data URL, or a
      failure that the `catch` swallows. */
  datatype ImageLoad = LoadFailed | Loaded(dataUrl: string)

  // ---------------------------------------------------------------------------
  // The layout, as a function of the input

  /** The cursor `yPosition`, the current page and the calls made so far. */
  datatype Cursor = Cursor(y: int, page: nat, ops: seq<Op>)

  /** The title, date, bias, confidence, best move and reasons heading. */
  function Header(a: Analysis): Cursor {
    Cursor(93, 1, [
      Text(1, 20, "Chart Analysis Report"),
      Text(1, 35, "Generated: " + a.dateText),
      Text(1, 50, "Bias: " + a.bias),
      Text(1, 60, "Confidence: " + a.confidenceText + "%"),
      Text(1, 70, "Best Move: " + a.bestMove),
      Text(1, 85, "Analysis Reasons:")])
  }

  /** One reason line: a page break when the cursor is past 270, the line at
      the cursor, the cursor 6 further down. */
  function LineStep(c: Cursor, line: string): (r: Cursor)
    ensures |c.ops| < |r.ops| && r.ops[..|c.ops|] == c.ops
    ensures r.ops[|r.ops| - 1] == Text(r.page, r.y - 6, line)
    ensures r.page == (if c.y > 270 then c.page + 1 else c.page)
    ensures c.y > 270 ==> r.y == 26 && r.ops == c.ops + [NewPage, Text(r.page, 20, line)]
    ensures c.y <= 270 ==> r.y == c.y + 6 && r.ops == c.ops + [Text(c.page, c.y, line)]
  {
    var top := if c.y > 270 then Cursor(20, c.page + 1, c.ops + [NewPage]) else c;
    Cursor(top.y + 6, top.page, top.ops + [Text(top.page, top.y, line)])
  }

  /** The cursor after laying out `lines` one after another from `c`: the
      calls made before are kept, and the page count never goes down. */
  function Lines(c: Cursor, lines: seq<string>): (r: Cursor)
    ensures |c.ops| <= |r.ops| && r.ops[..|c.ops|] == c.ops
    ensures c.page <= r.page
    decreases |lines|
  {
    if lines == [] then c else LineStep(Lines(c, lines[..|lines| - 1]), lines[|lines| - 1])
  }

  /** All the lines of all the reasons, reason after reason. */
  function Flatten(xss: seq<seq<string>>): seq<string>
    decreases |xss|
  {
    if xss == [] then [] else Flatten(xss[..|xss| - 1]) + xss[|xss| - 1]
  }

  /** The wrapped lines of each numbered reason. */
  function Wrapped(reasons: seq<string>, wrap: string -> seq<string>): (w: seq<seq<string>>)
    ensures |w| == |reasons|
    ensures forall i :: 0 <= i < |reasons| ==> w[i] == wrap(Label(i + 1, reasons[i]))
  {
    seq(|reasons|, i requires 0 <= i < |reasons| => wrap(Label(i + 1, reasons[i])))
  }

  /** The chart image: a page break when the cursor is past 200, the label 10
      below the cursor and the 100-high image 20 below it. */
  function ImageBlock(c: Cursor, data: string): (r: Cursor)
    ensures r.page == (if c.y > 200 then c.page + 1 else c.page)
    ensures |r.ops| == |c.ops| + (if c.y > 200 then 3 else 2) && r.ops[..|c.ops|] == c.ops
    ensures r.ops[|r.ops| - 2..] == [Text(r.page, r.y - 10, "Chart Image:"), Image(r.page, r.y, 100, data)]
  {
    var top := if c.y > 200 then Cursor(20, c.page + 1, c.ops + [NewPage]) else c;
    Cursor(top.y + 20, top.page,
           top.ops + [Text(top.page, top.y + 10, "Chart Image:"), Image(top.page, top.y + 20, 100, data)])
  }

  /** The whole report: the header, the reason lines, the image when there is
      an image URL and it loaded, and the save. */
  function Report(a: Analysis, wrap: string -> seq<string>, image: ImageLoad): (r: Cursor)
    ensures |r.ops| > 6 && r.ops[..6] == Header(a).ops
    ensures r.ops[|r.ops| - 1] == Save(PdfFileName(a.id))
  {
    var body := Lines(Header(a), Flatten(Wrapped(NormalizeReasons(a.reasons), wrap)));
    var withImage := if a.imageUrl != "" && image.Loaded? then ImageBlock(body, image.dataUrl) else body;
    Cursor(withImage.y, withImage.page, withImage.ops + [Save(PdfFileName(a.id))])
  }

  // ---------------------------------------------------------------------------
  // exportAsPDF

  /** The header section of `exportAsPDF`; returns the cursor it leaves. */
  method DrawHeader(pdf: Pdf, a: Analysis) returns (y: int)
    requires pdf.page == 1 && pdf.ops == []
    modifies pdf
    ensures Cursor(y, pdf.page, pdf.ops) == Header(a)
  {
    y := 20;
    pdf.DrawText(y, "Chart Analysis Report");
    y := y + 15;
    pdf.DrawText(y, "Generated: " + a.dateText);
    y := y + 15;
    pdf.DrawText(y, "Bias: " + a.bias);
    y := y + 10;
    pdf.DrawText(y, "Confidence: " + a.confidenceText + "%");
    y := y + 10;
    pdf.DrawText(y, "Best Move: " + a.bestMove);
    y := y + 15;
    pdf.DrawText(y, "Analysis Reasons:");
    y := y + 8;
  }

  /** The inner `lines.forEach` of `exportAsPDF`. */
  method DrawLines(pdf: Pdf, y0: int, lines: seq<string>) returns (y: int)
    modifies pdf
    ensures Cursor(y, pdf.page, pdf.ops) == Lines(Cursor(y0, old(pdf.page), old(pdf.ops)), lines)
  {
    ghost var start := Cursor(y0, pdf.page, pdf.ops);
    y := y0;
    var j := 0;
    while j < |lines|
      invariant 0 <= j <= |lines|
      invariant Cursor(y, pdf.page, pdf.ops) == Lines(start, lines[..j])
    {
      if y > 270 {
        pdf.AddPage();
        y := 20;
      }
      pdf.DrawText(y, lines[j]);
      y := y + 6;
      assert lines[..j + 1][..j] == lines[..j];
      j := j + 1;
    }
    assert lines[..j] == lines;
  }

  /** The outer `reasons.forEach` of `exportAsPDF`: number each reason, wrap
      it, draw its lines. */
  method DrawReasons(pdf: Pdf, y0: int, reasons: seq<string>, wrap: string -> seq<string>) returns (y: int)
    modifies pdf
    ensures Cursor(y, pdf.page, pdf.ops) ==
      Lines(Cursor(y0, old(pdf.page), old(pdf.ops)), Flatten(Wrapped(reasons, wrap)))
  {
    ghost var start := Cursor(y0, pdf.page, pdf.ops);
    ghost var w := Wrapped(reasons, wrap);
    y := y0;
    var i := 0;
    while i < |reasons|
      invariant 0 <= i <= |reasons|
      invariant Cursor(y, pdf.page, pdf.ops) == Lines(start, Flatten(w[..i]))
    {
      var lines := wrap(Label(i + 1, reasons[i]));
      y := DrawLines(pdf, y, lines);
      assert w[..i + 1][..i] == w[..i];
      LinesAppend(start, Flatten(w[..i]), lines);
      i := i + 1;
    }
    assert w[..i] == w;
  }

  /** The `onloadend` callback of `exportAsPDF`: the chart image block. */
  method DrawImage(pdf: Pdf, y0: int, data: string) returns (y: int)
    modifies pdf
    ensures Cursor(y, pdf.page, pdf.ops) == ImageBlock(Cursor(y0, old(pdf.page), old(pdf.ops)), data)
  {
    y := y0;
    if y > 200 {
      pdf.AddPage();
      y := 20;
    }
    y := y + 10;
    pdf.DrawText(y, "Chart Image:");
    y := y + 10;
    pdf.AddImage(y, 100, data);
  }

  /** `exportAsPDF`: returns the calls made on the document, in order. */
  method ExportAsPdf(a: Analysis, wrap: string -> seq<string>, image: ImageLoad) returns (ops: seq<Op>)
    ensures ops == Report(a, wrap, image).ops
  {
    var pdf := new Pdf();
    var y := DrawHeader(pdf, a);
    y := DrawReasons(pdf, y, NormalizeReasons(a.reasons), wrap);
    if a.imageUrl != "" {
      match image
      case LoadFailed =>
      case Loaded(data) =>
        y := DrawImage(pdf, y, data);
    }
    pdf.SaveAs(PdfFileName(a.id));
    ops := pdf.ops;
  }

  // ---------------------------------------------------------------------------
  // What the layout guarantees

  /** The texts drawn by a list of calls, in order. */
  function Texts(ops: seq<Op>): seq<string>
    decreases |ops|
  {
    if ops == [] then []
    else Texts(ops[..|ops| - 1]) + (if ops[|ops| - 1].Text? then [ops[|ops| - 1].text] else [])
  }

  lemma {:induction false} TextsAppend(a: seq<Op>, b: seq<Op>)
    ensures Texts(a + b) == Texts(a) + Texts(b)
    decreases |b|
  {
    if b == [] {
      assert a + b == a;
    } else {
      var b' := b[..|b| - 1];
      assert (a + b)[..|a + b| - 1] == a + b';
      TextsAppend(a, b');
    }
  }

  /** The calls from index `from` on are page breaks and texts drawn at a
      height from 20 to 270. */
  ghost predicate BreaksAndLinesInRange(ops: seq<Op>, from: nat) {
    forall k :: from <= k < |ops| ==> ops[k].NewPage? || (ops[k].Text? && 20 <= ops[k].y <= 270)
  }

  /** Laying out lines from a cursor between 20 and 276 appends nothing but
      page breaks and texts, draws every line at a height from 20 to 270, and
      leaves the cursor between 20 and 276. */
  lemma {:induction false} LinesInRange(c: Cursor, lines: seq<string>)
    requires 20 <= c.y <= 276
    ensures var r := Lines(c, lines);
      20 <= r.y <= 276 && |c.ops| <= |r.ops| && r.ops[..|c.ops|] == c.ops
      && BreaksAndLinesInRange(r.ops, |c.ops|)
    decreases |lines|
  {
    if lines != [] {
      LinesInRange(c, lines[..|lines| - 1]);
    }
  }

  /** In the report, everything after the six header texts and before the
      image block is a page break or a reason line drawn at a height from 20
      to 270. */
  lemma ReasonLinesInRange(a: Analysis, wrap: string -> seq<string>)
    ensures var ops := Lines(Header(a), Flatten(Wrapped(NormalizeReasons(a.reasons), wrap))).ops;
      |ops| >= 6 && ops[..6] == Header(a).ops && BreaksAndLinesInRange(ops, 6)
  {
    LinesInRange(Header(a), Flatten(Wrapped(NormalizeReasons(a.reasons), wrap)));
  }

  /** Laying out lines draws exactly those lines, in order. */
  lemma {:induction false} LinesDrawn(c: Cursor, lines: seq<string>)
    ensures var r := Lines(c, lines);
      |c.ops| <= |r.ops| && Texts(r.ops[|c.ops|..]) == lines
    decreases |lines|
  {
    if lines == [] {
      assert Lines(c, lines).ops[|c.ops|..] == [];
    } else {
      var init := lines[..|lines| - 1];
      LinesDrawn(c, init);
      StepTexts(Lines(c, init), lines[|lines| - 1], |c.ops|);
      assert lines == init + [lines[|lines| - 1]];
    }
  }

  /** One step draws its line after what was drawn before. */
  lemma StepTexts(p: Cursor, line: string, from: nat)
    requires from <= |p.ops|
    ensures var r := LineStep(p, line);
      |p.ops| <= |r.ops| && Texts(r.ops[from..]) == Texts(p.ops[from..]) + [line]
  {
    var top := if p.y > 270 then Cursor(20, p.page + 1, p.ops + [NewPage]) else p;
    var added := if p.y > 270 then [NewPage, Text(top.page, top.y, line)]
                 else [Text(top.page, top.y, line)];
    var r := LineStep(p, line);
    assert r.ops == p.ops + added;
    assert r.ops[from..] == p.ops[from..] + added;
    TextsAppend(p.ops[from..], added);
    assert Texts(added) == [line] by {
      if p.y > 270 {
        TextsAppend([NewPage], [Text(top.page, top.y, line)]);
        assert Texts([NewPage]) == Texts([]) + [];
      }
    }
  }

  /** The header ends at 93, so the first line of the first reason is drawn at
      93 on the first page. */
  lemma FirstReasonLine(a: Analysis, wrap: string -> seq<string>)
    requires var rs := NormalizeReasons(a.reasons); |rs| > 0 && |wrap(Label(1, rs[0]))| > 0
    ensures var rs := NormalizeReasons(a.reasons);
      var ops := Lines(Header(a), Flatten(Wrapped(rs, wrap))).ops;
      |ops| > 6 && ops[6] == Text(1, 93, wrap(Label(1, rs[0]))[0])
  {
    var w := Wrapped(NormalizeReasons(a.reasons), wrap);
    var all := Flatten(w);
    FlattenAppend(w[..1], w[1..]);
    assert w == w[..1] + w[1..];
    assert Flatten(w[..1]) == w[0] by {
      assert w[..1][..0] == [];
    }
    LinesPrefix(Header(a), [all[0]], all[1..]);
    assert all == [all[0]] + all[1..];
    assert [all[0]][..0] == [];
  }

  /** Laying out `xs + ys` lays out `xs`, then `ys` from there. */
  lemma {:induction false} LinesAppend(c: Cursor, xs: seq<string>, ys: seq<string>)
    ensures Lines(c, xs + ys) == Lines(Lines(c, xs), ys)
    decreases |ys|
  {
    if ys == [] {
      assert xs + ys == xs;
    } else {
      var ys' := ys[..|ys| - 1];
      assert (xs + ys)[..|xs + ys| - 1] == xs + ys';
      LinesAppend(c, xs, ys');
    }
  }

  /** Laying out more lines only appends calls. */
  lemma LinesPrefix(c: Cursor, xs: seq<string>, ys: seq<string>)
    ensures |Lines(c, xs).ops| <= |Lines(c, xs + ys).ops|
    ensures Lines(c, xs + ys).ops[..|Lines(c, xs).ops|] == Lines(c, xs).ops
  {
    LinesAppend(c, xs, ys);
  }

  lemma {:induction false} FlattenAppend(xss: seq<seq<string>>, yss: seq<seq<string>>)
    ensures Flatten(xss + yss) == Flatten(xss) + Flatten(yss)
    decreases |yss|
  {
    if yss == [] {
      assert xss + yss == xss;
    } else {
      var yss' := yss[..|yss| - 1];
      assert (xss + yss)[..|xss + yss| - 1] == xss + yss';
      FlattenAppend(xss, yss');
    }
  }

  /** Each reason's wrapped lines appear consecutively in the drawn lines,
      reason i right after the lines of reasons 0 to i - 1, so the reasons are
      drawn in input order with none dropped. */
  lemma ReasonsConsecutive(w: seq<seq<string>>, i: nat)
    requires i < |w|
    ensures var off := |Flatten(w[..i])|;
      off + |w[i]| <= |Flatten(w)| && Flatten(w)[off..off + |w[i]|] == w[i]
  {
    assert w == w[..i] + [w[i]] + w[i + 1..];
    FlattenAppend(w[..i] + [w[i]], w[i + 1..]);
    FlattenAppend(w[..i], [w[i]]);
    assert Flatten([w[i]]) == w[i] by {
      assert [w[i]][..0] == [];
    }
  }

  /** The image block breaks the page exactly when the cursor is past 200;
      the label goes 10 and the image 20 below the cursor, so the image top
      never passes 220 and the 100-high image ends by 320. */
  lemma ImagePlacement(c: Cursor, data: string)
    requires 20 <= c.y
    ensures var r := ImageBlock(c, data);
      var top := if c.y > 200 then 20 else c.y;
      && (c.y > 200 ==> r.ops == c.ops + [NewPage, Text(c.page + 1, 30, "Chart Image:"), Image(c.page + 1, 40, 100, data)])
      && (c.y <= 200 ==> r.ops == c.ops + [Text(c.page, c.y + 10, "Chart Image:"), Image(c.page, c.y + 20, 100, data)])
      && r.y == top + 20 && 40 <= r.y <= 220
  {
  }

  /** The report is saved last under the PDF name whether or not the image
      loaded; a failed load draws no image and adds no page. */
  lemma AlwaysSaved(a: Analysis, wrap: string -> seq<string>, image: ImageLoad)
    ensures var ops := Report(a, wrap, image).ops;
      |ops| > 0 && ops[|ops| - 1] == Save(PdfFileName(a.id))
    ensures image.LoadFailed? || a.imageUrl == "" ==>
      Report(a, wrap, image).ops ==
        Lines(Header(a), Flatten(Wrapped(NormalizeReasons(a.reasons), wrap))).ops + [Save(PdfFileName(a.id))]
  {
  }

  /** A `reasons` value that is not an array is laid out like an empty list. */
  lemma NonArrayReasons(a: Analysis, wrap: string -> seq<string>, image: ImageLoad)
    requires a.reasons.None?
    ensures Report(a, wrap, image) == Report(a.(reasons := Some([])), wrap, image)
    ensures ImageCardOf(a) == ImageCardOf(a.(reasons := Some([])))
  {
  }

  // ---------------------------------------------------------------------------
  // exportAsImage

  const ChartUp := "\U{1F4C8}"
  const ChartDown := "\U{1F4C9}"
  const Dash := "\U{2796}"

  /** The emoji of the image export, chosen on the lower-cased bias:
      'bullish' in any case gives the rising chart, 'bearish' the falling
      one, anything else the dash. */
  function BiasIcon(bias: string): (r: string)
    ensures r == ChartUp <==> Lower(bias) == "bullish"
    ensures r == ChartDown <==> Lower(bias) == "bearish"
    ensures r == Dash <==> Lower(bias) != "bullish" && Lower(bias) != "bearish"
  {
    assert ChartUp != ChartDown && ChartUp != Dash && ChartDown != Dash by {
      assert ChartUp[0] != ChartDown[0] && ChartUp[0] != Dash[0] && ChartDown[0] != Dash[0];
    }
    if Lower(bias) == "bullish" then ChartUp
    else if Lower(bias) == "bearish" then ChartDown
    else Dash
  }

  /** The icon is decided by the lower-cased bias alone: 'bullish' in any case
      gives the rising chart, 'bearish' the falling one, anything else the dash. */
  lemma BiasIconCases(bias: string)
    ensures BiasIcon(bias) == BiasIcon(Lower(bias))
    ensures BiasIcon(bias) == ChartUp <==> Lower(bias) == "bullish"
    ensures BiasIcon(bias) == ChartDown <==> Lower(bias) == "bearish"
    ensures BiasIcon(bias) == Dash <==> Lower(bias) != "bullish" && Lower(bias) != "bearish"
  {
    LowerIdempotent(bias);
  }

  /** What the off-screen element shows: the icon, the bias, the confidence,
      the best move and one list item per reason. */
  datatype ImageCard = ImageCard(icon: string, bias: string, confidenceText: string,
                                 bestMove: string, items: seq<string>)

  /** The card shows the emoji of the lower-cased bias, the bias, the
      confidence, the best move and one item per reason of an array
      `reasons`, in order; a non-array `reasons` gives no items. */
  function ImageCardOf(a: Analysis): (card: ImageCard)
    ensures card.icon == BiasIcon(Lower(a.bias)) && card.bias == a.bias
    ensures card.confidenceText == a.confidenceText && card.bestMove == a.bestMove
    ensures a.reasons.Some? ==> card.items == a.reasons.value
    ensures a.reasons.None? ==> card.items == []
  {
    BiasIconCases(a.bias);
    ImageCard(BiasIcon(a.bias), a.bias, a.confidenceText, a.bestMove, NormalizeReasons(a.reasons))
  }

  /** What html2canvas and `canvas.toBlob` do: html2canvas rejects with some
      error (its message kept here), or draws a canvas whose `toBlob` hands
      back a blob or null. */
  datatype Canvas = CanvasFailed(error: string) | Drawn(blobCreated: bool)

  /** How the promise of `exportAsImage` settles. */
  datatype ImageExport = Downloaded(fileName: string) | Rejected(message: string)

  /** The export downloads exactly when html2canvas draws and a blob is
      created, under the PNG name of the id; a failing html2canvas rejects
      the promise with its own error, a null blob with 'Failed to create blob'. */
  function ImageOutcome(a: Analysis, canvas: Canvas): (r: ImageExport)
    ensures r.Downloaded? <==> canvas == Drawn(true)
    ensures r.Downloaded? ==> r.fileName == PngFileName(a.id)
    ensures canvas.CanvasFailed? ==> r == Rejected(canvas.error)
    ensures canvas == Drawn(false) ==> r == Rejected("Failed to create blob")
  {
    match canvas
    case CanvasFailed(e) => Rejected(e)
    case Drawn(blobCreated) =>
      if blobCreated then Downloaded(PngFileName(a.id)) else Rejected("Failed to create blob")
  }

  /** The image export as a whole: it downloads, under the same eight-character
      prefix as the PDF, exactly when html2canvas draws and a blob is created;
      otherwise it rejects with the error of the step that failed; and a
      download's card lists exactly the reasons of an array. */
  lemma ImageExportSpec(a: Analysis, canvas: Canvas)
    ensures ImageOutcome(a, canvas).Downloaded? <==> canvas == Drawn(true)
    ensures canvas == Drawn(true) ==>
      var n := ImageOutcome(a, canvas).fileName;
      n[9..|n| - 4] == PdfFileName(a.id)[9..|PdfFileName(a.id)| - 4] == IdPrefix(a.id)
      && n[|n| - 4..] == ".png"
    ensures canvas.CanvasFailed? ==> ImageOutcome(a, canvas).message == canvas.error
    ensures canvas == Drawn(false) ==> ImageOutcome(a, canvas).message == "Failed to create blob"
    ensures ImageCardOf(a).items == NormalizeReasons(a.reasons)
    ensures ImageCardOf(a).icon == BiasIcon(a.bias)
  {
    FileNameParts(a.id, a.id);
    BiasIconCases(a.bias);
  }
}
