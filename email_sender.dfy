/**
 * The report e-mail: its subject line, HTML escaping of the report text, and
 * the line-by-line conversion of the escaped text into HTML elements. The
 * e-mail provider is not modelled.
 */
module EmailSender {
  import opened Wrappers
  import opened Text

  /** Width of the runs of `=` and `-` that mark a rule line. */
  const MARK_WIDTH := 40
  const THICK_MARK: string := Repeat('=', MARK_WIDTH)
  const THIN_MARK: string := Repeat('-', MARK_WIDTH)

  const SUBJECT_PREFIX := "Sr. Staff Meeting Analysis - "

  /** The subject: the given date range when it is non-empty, else today's date. */
  function Subject(dateRange: Option<string>, today: string): (r: string)
    ensures dateRange.Some? && dateRange.value != "" ==> r == SUBJECT_PREFIX + dateRange.value
    ensures dateRange.None? || dateRange.value == "" ==> r == SUBJECT_PREFIX + today
  {
    if dateRange.Some? && dateRange.value != "" then SUBJECT_PREFIX + dateRange.value
    else SUBJECT_PREFIX + today
  }

  /** `html.escape` of one character (with `quote=True`). */
  function EscapeChar(c: char): string
  {
    if c == '&' then "&amp;"
    else if c == '<' then "&lt;"
    else if c == '>' then "&gt;"
    else if c == '"' then "&quot;"
    else if c == '\'' then "&#x27;"
    else [c]
  }

  /** `html.escape(s)`. */
  function Escape(s: string): string
  {
    FlatMap(EscapeChar, s)
  }

  /** Decoding of exactly the five entities `Escape` produces. */
  function Unescape(s: string): string
    decreases |s|
  {
    if StartsWith(s, "&amp;") then "&" + Unescape(s[5..])
    else if StartsWith(s, "&lt;") then "<" + Unescape(s[4..])
    else if StartsWith(s, "&gt;") then ">" + Unescape(s[4..])
    else if StartsWith(s, "&quot;") then "\"" + Unescape(s[6..])
    else if StartsWith(s, "&#x27;") then "'" + Unescape(s[6..])
    else if s == [] then []
    else [s[0]] + Unescape(s[1..])
  }

  /** A character that does not open an entity stands for itself. */
  lemma UnescapePlain(s: string)
    requires s != [] && s[0] != '&'
    ensures Unescape(s) == [s[0]] + Unescape(s[1..])
  {
    assert !StartsWith(s, "&amp;") && !StartsWith(s, "&lt;") && !StartsWith(s, "&gt;");
    assert !StartsWith(s, "&quot;") && !StartsWith(s, "&#x27;");
  }

  lemma UnescapeChar(c: char, rest: string)
    ensures Unescape(EscapeChar(c) + rest) == [c] + Unescape(rest)
  {
    var s := EscapeChar(c) + rest;
    if c == '&' {
      assert s[..5] == "&amp;" && s[5..] == rest;
    } else if c == '<' {
      assert s[..4] == "&lt;" && s[4..] == rest;
      assert !StartsWith(s, "&amp;") by { assert s[1] == 'l'; }
    } else if c == '>' {
      assert s[..4] == "&gt;" && s[4..] == rest;
      assert !StartsWith(s, "&amp;") && !StartsWith(s, "&lt;") by { assert s[1] == 'g'; }
    } else if c == '"' {
      assert s[..6] == "&quot;" && s[6..] == rest;
      assert !StartsWith(s, "&amp;") && !StartsWith(s, "&lt;") && !StartsWith(s, "&gt;") by { assert s[1] == 'q'; }
    } else if c == '\'' {
      assert s[..6] == "&#x27;" && s[6..] == rest;
      assert !StartsWith(s, "&amp;") && !StartsWith(s, "&lt;") && !StartsWith(s, "&gt;") by { assert s[1] == '#'; }
      assert !StartsWith(s, "&quot;") by { assert s[1] == '#'; }
    } else {
      assert s[0] == c && s[1..] == rest;
      UnescapePlain(s);
    }
  }

  /** Escaping loses nothing: the entities decode back to the original text. */
  lemma {:induction false} EscapeRoundTrip(s: string)
    ensures Unescape(Escape(s)) == s
  {
    if s != [] {
      UnescapeChar(s[0], Escape(s[1..]));
      EscapeRoundTrip(s[1..]);
      assert [s[0]] + s[1..] == s;
    }
  }

  /** The escaped text holds no angle bracket and no quote character. */
  lemma {:induction false} EscapeSafe(s: string)
    ensures '<' !in Escape(s) && '>' !in Escape(s) && '"' !in Escape(s) && '\'' !in Escape(s)
  {
    if s != [] {
      EscapeSafe(s[1..]);
      var e := EscapeChar(s[0]);
      assert '<' !in e && '>' !in e && '"' !in e && '\'' !in e;
    }
  }

  /** Escaping keeps line breaks and turns no other character into one. */
  lemma EscapeSplit(s: string)
    ensures Split(Escape(s), '\n') == FlatMapLines(EscapeChar, Split(s, '\n'))
  {
    forall d | d != '\n'
      ensures '\n' !in EscapeChar(d)
    {
    }
    FlatMapSplit(EscapeChar, s, '\n');
  }

  /** The HTML element a report line becomes. */
  datatype Element =
    | ThickRule
    | ThinRule
    | Heading2(text: string)
    | Heading3(text: string)
    | Heading1(text: string)
    | Indented(text: string)
    | Paragraph(text: string)
    | Break

  function Render(e: Element): string
  {
    match e
    case ThickRule => "<hr style=\"border: 2px solid #333; margin: 20px 0;\">"
    case ThinRule => "<hr style=\"border: 1px solid #666; margin: 15px 0;\">"
    case Heading2(t) => "<h2 style=\"color: #2563eb; margin-top: 20px;\">" + t + "</h2>"
    case Heading3(t) => "<h3 style=\"color: #1e40af; margin-top: 15px;\">" + t + "</h3>"
    case Heading1(t) => "<h1 style=\"color: #1e3a8a;\">" + t + "</h1>"
    case Indented(t) => "<p style=\"margin-left: 20px; line-height: 1.6;\">" + t + "</p>"
    case Paragraph(t) => "<p style=\"line-height: 1.6;\">" + t + "</p>"
    case Break => "<br>"
  }

  predicate IsSectionHeading(t: string)
  {
    StartsWith(t, "TOP 3 STRENGTHS") || StartsWith(t, "TOP 3 AREAS") || StartsWith(t, "OVERALL ASSESSMENT")
  }

  predicate IsTitleHeading(t: string)
  {
    StartsWith(t, "SR. STAFF LEVEL") || StartsWith(t, "INDIVIDUAL MEETING")
  }

  predicate IsListItem(t: string)
  {
    StartsWith(t, "1.") || StartsWith(t, "2.") || StartsWith(t, "3.") || StartsWith(t, "-")
  }

  /** The element of a stripped line that is not a rule line. */
  function ClassifyText(t: string): (e: Element)
    ensures !e.ThickRule? && !e.ThinRule?
    ensures e.Break? <==> t == []
    ensures !e.Break? ==> e.text == t
  {
    if IsSectionHeading(t) then Heading2(t)
    else if StartsWith(t, "Meeting: ") then Heading3(t)
    else if IsTitleHeading(t) then Heading1(t)
    else if IsListItem(t) then Indented(t)
    else if t != [] then Paragraph(t)
    else Break
  }

  /** The first rule that matches an (escaped) line decides its element. */
  function Classify(line: string): Element
  {
    if Contains(line, THICK_MARK) then ThickRule
    else if Contains(line, THIN_MARK) then ThinRule
    else ClassifyText(Strip(line))
  }

  /** The rules come first: a line with a rule in it is never a heading, bullet or paragraph. */
  lemma RulePriority(line: string)
    ensures Contains(line, THICK_MARK) ==> Classify(line) == ThickRule
    ensures !Contains(line, THICK_MARK) && Contains(line, THIN_MARK) ==> Classify(line) == ThinRule
    ensures Classify(line).ThickRule? || Classify(line).ThinRule? <==>
      Contains(line, THICK_MARK) || Contains(line, THIN_MARK)
  {
  }

  /** A break is exactly a line with nothing but whitespace and no rule. */
  lemma BreakIffBlank(line: string)
    ensures Classify(line) == Break <==> forall i :: 0 <= i < |line| ==> IsSpace(line[i])
  {
    StripEmpty(line);
    if forall i :: 0 <= i < |line| ==> IsSpace(line[i]) {
      assert !Contains(line, THICK_MARK) by { NoRuleInBlank(line, '='); }
      assert !Contains(line, THIN_MARK) by { NoRuleInBlank(line, '-'); }
      assert Classify(line) == ClassifyText([]);
    } else if !Contains(line, THICK_MARK) && !Contains(line, THIN_MARK) {
      assert Classify(line) == ClassifyText(Strip(line));
    }
  }

  lemma NoRuleInBlank(line: string, c: char)
    requires !IsSpace(c)
    requires forall i :: 0 <= i < |line| ==> IsSpace(line[i])
    ensures !Contains(line, Repeat(c, MARK_WIDTH))
    decreases |line|
  {
    var p := Repeat(c, MARK_WIDTH);
    if |line| >= |p| {
      assert line[..|p|][0] == line[0] != p[0];
    }
    if |line| > 0 {
      NoRuleInBlank(line[1..], c);
    }
  }

  /** The elements of the escaped report, one per line, in order. */
  function Elements(reportText: string): seq<Element>
  {
    var lines := Split(Escape(reportText), '\n');
    seq(|lines|, k requires 0 <= k < |lines| => Classify(lines[k]))
  }

  /**
   * One element per line of the report, in the same order: element `k` is
   * the classification of line `k` of the report, escaped.
   */
  lemma ElementPerLine(reportText: string)
    ensures var lines := Split(reportText, '\n');
      && |Elements(reportText)| == |lines| == Count(reportText, '\n') + 1
      && forall k :: 0 <= k < |lines| ==> Elements(reportText)[k] == Classify(Escape(lines[k]))
  {
    var lines := Split(reportText, '\n');
    EscapeSplit(reportText);
    forall k | 0 <= k < |lines|
      ensures Elements(reportText)[k] == Classify(Escape(lines[k]))
    {
      FlatMapLinesAt(EscapeChar, lines, k);
    }
  }

  /** No element carries an angle bracket that came from the report text. */
  lemma ElementsSafe(reportText: string)
    ensures forall k :: 0 <= k < |Elements(reportText)| ==>
      var e := Elements(reportText)[k];
      e.ThickRule? || e.ThinRule? || e.Break? || ('<' !in e.text && '>' !in e.text)
  {
    var escaped := Escape(reportText);
    var lines := Split(escaped, '\n');
    EscapeSafe(reportText);
    SplitKeepsOut(escaped, '\n', '<');
    SplitKeepsOut(escaped, '\n', '>');
    forall k | 0 <= k < |lines|
      ensures '<' !in Strip(lines[k]) && '>' !in Strip(lines[k])
    {
      StripKeepsOut(lines[k], '<');
      StripKeepsOut(lines[k], '>');
    }
  }

  /** The HTML a line of the escaped report becomes. */
  function HtmlLine(line: string): string
  {
    Render(Classify(line))
  }

  /** The HTML of each line, in order. */
  function HtmlOf(lines: seq<string>): (r: seq<string>)
    ensures |r| == |lines|
  {
    if lines == [] then [] else HtmlOf(lines[..|lines| - 1]) + [HtmlLine(lines[|lines| - 1])]
  }

  lemma {:induction false} HtmlOfAt(lines: seq<string>, k: nat)
    requires k < |lines|
    ensures HtmlOf(lines)[k] == HtmlLine(lines[k])
    decreases |lines|
  {
    if k < |lines| - 1 {
      HtmlOfAt(lines[..|lines| - 1], k);
    }
  }

  /** The HTML of each line of the escaped report. */
  function HtmlLines(reportText: string): seq<string>
  {
    HtmlOf(Split(Escape(reportText), '\n'))
  }

  /** The HTML lines are the rendered elements, one for one, in order. */
  lemma HtmlLinesRender(reportText: string)
    ensures |HtmlLines(reportText)| == |Elements(reportText)|
    ensures forall k :: 0 <= k < |Elements(reportText)| ==> HtmlLines(reportText)[k] == Render(Elements(reportText)[k])
  {
    var lines := Split(Escape(reportText), '\n');
    forall k | 0 <= k < |lines|
      ensures HtmlLines(reportText)[k] == Render(Elements(reportText)[k])
    {
      HtmlOfAt(lines, k);
    }
  }

  /**
   * `_format_html_email` without its fixed page template: the HTML of each
   * line, joined by newlines.
   */
  method FormatHtmlBody(reportText: string) returns (body: string)
    ensures body == Join(HtmlLines(reportText), "\n")
  {
    var lines := Split(Escape(reportText), '\n');
    var htmlLines: seq<string> := [];
    var i := 0;
    while i < |lines|
      invariant 0 <= i <= |lines|
      invariant htmlLines == HtmlOf(lines[..i])
    {
      assert lines[..i + 1][..i] == lines[..i];
      htmlLines := htmlLines + [HtmlLine(lines[i])];
      i := i + 1;
    }
    assert lines[..i] == lines;
    body := Join(htmlLines, "\n");
  }
}
