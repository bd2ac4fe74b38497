/**
 * The text the analyzer assembles around the language-model call: the
 * combined meeting text, the prompt and its context, the result record,
 * and the plain-text report. The completion call itself is the oracle `Model`.
 */
module AiAnalyzer {
  import opened Wrappers
  import opened Text
  import opened MeetingScan

  const DEFAULT_PROMPT: string :=
    "You are an executive coach analyzing meeting effectiveness and productivity.\n\n"
    + "Focus on these key areas:\n"
    + "1. **Meeting Effectiveness** - Was this meeting necessary? Did it achieve its goals?\n"
    + "2. **Cost & Time** - Given the people involved, was this a good use of everyone's time?\n"
    + "3. **Strategic Thinking** - Evidence of long-term planning, risk assessment, and business impact\n"
    + "4. **Action Items** - Clear outcomes, decisions, and next steps\n"
    + "5. **Communication** - Clarity, influence, and stakeholder management\n"
    + "6. **Areas for Improvement** - Specific, actionable suggestions"

  const NO_MEETINGS_SUMMARY := "No meetings found in the specified date range."
  const NO_MEETINGS_FEEDBACK := "No meetings to analyze."

  /** The 80-character `=` rule. */
  const RULE: string := Repeat('=', 80)

  /**
   * What the constructor reads once: the stripped `.prompt` file (None when
   * absent or unreadable) and the `PEOPLE` setting.
   */
  datatype AnalyzerConfig = AnalyzerConfig(customPrompt: Option<string>, people: string)

  /** The result dictionary; a None field is a missing key. */
  datatype AnalysisResult = AnalysisResult(
    summary: Option<string>, feedback: Option<string>, date: Option<string>, numMeetings: Option<nat>)

  /** The completion call: the reply's content, or the message of the exception it raised. */
  type Model = string -> Result<string, string>

  /** One meeting's block: rule, title, date, rule, then the transcript text and a blank line. */
  function Block(m: Document): string
  {
    "\n" + RULE + "\n"
    + "Meeting: " + m.title.GetOr("Untitled Meeting") + "\n"
    + "Date: " + m.createdAtText.GetOr("Unknown date") + "\n"
    + RULE + "\n"
    + m.transcriptText.GetOr("") + "\n\n"
  }

  /** The blocks of the meetings, in input order. */
  function Blocks(ms: seq<Document>): (r: seq<string>)
    ensures |r| == |ms| && forall i :: 0 <= i < |ms| ==> r[i] == Block(ms[i])
  {
    seq(|ms|, i requires 0 <= i < |ms| => Block(ms[i]))
  }

  /** The combined text of all meetings. */
  function MeetingsText(ms: seq<Document>): string
  {
    Concat(Blocks(ms))
  }

  /** The combined text of a concatenation is the concatenation of the combined texts. */
  lemma MeetingsTextAppend(a: seq<Document>, b: seq<Document>)
    ensures MeetingsText(a + b) == MeetingsText(a) + MeetingsText(b)
  {
    assert Blocks(a + b) == Blocks(a) + Blocks(b);
    ConcatAppend(Blocks(a), Blocks(b));
  }

  /** A single meeting contributes exactly its own block. */
  lemma MeetingsTextSingle(m: Document)
    ensures MeetingsText([m]) == Block(m)
  {
    assert Blocks([m]) == [Block(m)];
    assert [Block(m)][..0] == [];
    assert Concat([Block(m)]) == Concat([]) + Block(m);
  }

  /** The custom prompt when it is non-empty, else the default. */
  function BasePrompt(cfg: AnalyzerConfig): (r: string)
    ensures cfg.customPrompt.Some? && cfg.customPrompt.value != "" ==> r == cfg.customPrompt.value
    ensures cfg.customPrompt.None? || cfg.customPrompt.value == "" ==> r == DEFAULT_PROMPT
  {
    if cfg.customPrompt.Some? && cfg.customPrompt.value != "" then cfg.customPrompt.value else DEFAULT_PROMPT
  }

  function ContextParts(people: string, previous: Option<string>): seq<string>
  {
    (if people != "" then ["People involved: " + people] else [])
    + (if previous.Some? && previous.value != "" then ["Previous feedback for context:\n" + previous.value] else [])
  }

  /** `"\n\n".join(context_parts)`. */
  function Context(people: string, previous: Option<string>): string
  {
    Join(ContextParts(people, previous), "\n\n")
  }

  /** People come before previous feedback; the context is empty when neither is given. */
  lemma ContextLayout(people: string, previous: Option<string>)
    ensures var hasFeedback := previous.Some? && previous.value != "";
      && (people != "" && hasFeedback ==>
            Context(people, previous) == "People involved: " + people + "\n\n" + "Previous feedback for context:\n" + previous.value)
      && (people != "" && !hasFeedback ==> Context(people, previous) == "People involved: " + people)
      && (people == "" && hasFeedback ==> Context(people, previous) == "Previous feedback for context:\n" + previous.value)
      && (Context(people, previous) == "" <==> people == "" && !hasFeedback)
  {
    var hasFeedback := previous.Some? && previous.value != "";
    if people != "" && hasFeedback {
      var parts := ContextParts(people, previous);
      assert parts == ["People involved: " + people, "Previous feedback for context:\n" + previous.value];
      assert parts[1..] == ["Previous feedback for context:\n" + previous.value];
      assert Join(parts[1..], "\n\n") == "Previous feedback for context:\n" + previous.value;
      assert Context(people, previous) == parts[0] + "\n\n" + parts[1];
    }
  }

  /** The fixed instructions between the context and the meetings. */
  const INSTRUCTIONS: string :=
    "Analyze today's meetings and provide actionable feedback.\n\n"
    + "Guidelines:\n"
    + "- Exclude non-professional meetings (doctors appointments, personal calls, etc.)\n"
    + "- Skip meetings without useful data\n"
    + "- Be specific with examples\n"
    + "- Focus on actionable improvements\n"
    + "- Don't force insights if insufficient information\n\n"
    + "TODAY'S MEETINGS:\n"

  /** The fixed request after the meetings. */
  const REQUESTS: string :=
    "\n\n"
    + "Provide comprehensive feedback with:\n"
    + "- STRENGTHS (what went well)\n"
    + "- AREAS FOR IMPROVEMENT (specific suggestions)\n"
    + "- ACTION ITEMS (what to do next)\n"
    + "- OVERALL ASSESSMENT (summary)"

  /** The user message sent to the model. */
  function Prompt(base: string, context: string, meetingsText: string): string
  {
    base + "\n\n" + context + "\n\n" + INSTRUCTIONS + meetingsText + REQUESTS
  }

  /** The result for no meetings. */
  function EmptyResult(today: string): AnalysisResult
  {
    AnalysisResult(Some(NO_MEETINGS_SUMMARY), Some(NO_MEETINGS_FEEDBACK), Some(today), None)
  }

  /** The user message for a non-empty batch of meetings. */
  function PromptFor(cfg: AnalyzerConfig, meetings: seq<Document>, previous: Option<string>): string
  {
    Prompt(BasePrompt(cfg), Context(cfg.people, previous), MeetingsText(meetings))
  }

  /** The result for `n` meetings once the model has replied or failed. */
  function Completed(n: nat, reply: Result<string, string>, today: string): (r: AnalysisResult)
    ensures r.numMeetings == Some(n) && r.date == Some(today)
    ensures reply.Ok? ==> r.feedback == Some(reply.value)
    ensures reply.Err? ==> r.feedback == Some("Analysis failed: " + reply.error)
  {
    match reply
    case Ok(content) =>
      AnalysisResult(Some("Analyzed " + NatToString(n) + " meetings from today"), Some(content), Some(today), Some(n))
    case Err(message) =>
      AnalysisResult(Some("Failed to analyze " + NatToString(n) + " meetings"), Some("Analysis failed: " + message), Some(today), Some(n))
  }

  /** Every meeting's block is in the prompt. */
  lemma PromptHasEveryMeeting(cfg: AnalyzerConfig, meetings: seq<Document>, previous: Option<string>, k: nat)
    requires k < |meetings|
    ensures Contains(PromptFor(cfg, meetings, previous), Block(meetings[k]))
  {
    var before, after := meetings[..k], meetings[k + 1..];
    var block := Block(meetings[k]);
    var x, y := MeetingsText(before), MeetingsText(after);
    assert MeetingsText(meetings) == x + block + y by {
      assert meetings == before + [meetings[k]] + after;
      MeetingsTextAppend(before + [meetings[k]], after);
      MeetingsTextAppend(before, [meetings[k]]);
      MeetingsTextSingle(meetings[k]);
    }
    var lead := BasePrompt(cfg) + "\n\n" + Context(cfg.people, previous) + "\n\n" + INSTRUCTIONS;
    assert PromptFor(cfg, meetings, previous) == lead + MeetingsText(meetings) + REQUESTS;
    ContainsNested(lead, x, block, y, REQUESTS);
  }

  /**
   * `analyze_meetings(meetings, previous_feedback)`. `today` is the date
   * string the clock gives. A model failure is returned, not raised.
   */
  method AnalyzeMeetings(cfg: AnalyzerConfig, meetings: seq<Document>, previous: Option<string>, model: Model, today: string)
    returns (r: AnalysisResult)
    ensures meetings == [] ==> r == EmptyResult(today)
    ensures meetings != [] ==> r == Completed(|meetings|, model(PromptFor(cfg, meetings, previous)), today)
  {
    if meetings == [] {
      return EmptyResult(today);
    }
    var text := "";
    var i := 0;
    while i < |meetings|
      invariant 0 <= i <= |meetings|
      invariant text == MeetingsText(meetings[..i])
    {
      MeetingsTextAppend(meetings[..i], [meetings[i]]);
      MeetingsTextSingle(meetings[i]);
      assert meetings[..i] + [meetings[i]] == meetings[..i + 1];
      text := text + Block(meetings[i]);
      i := i + 1;
    }
    assert meetings[..|meetings|] == meetings;
    var prompt := Prompt(BasePrompt(cfg), Context(cfg.people, previous), text);
    r := Completed(|meetings|, model(prompt), today);
  }

  function Header(r: AnalysisResult): string
  {
    "DAILY MEETING FEEDBACK - " + r.date.GetOr("N/A")
  }

  function SummaryLine(r: AnalysisResult): string
  {
    "Summary: " + r.summary.GetOr("No summary")
  }

  function ReportLines(r: AnalysisResult): seq<string>
  {
    [RULE, Header(r), RULE, "", SummaryLine(r), "", RULE, "",
     r.feedback.GetOr("No feedback available"), "", RULE]
  }

  /** `format_report(analysis_result)`. */
  function FormatReport(r: AnalysisResult): string
  {
    Join(ReportLines(r), "\n")
  }

  /**
   * The report's lines: rule, header, rule, blank, summary, blank, rule,
   * blank, the feedback's own lines, blank, rule.
   */
  lemma ReportLayout(r: AnalysisResult)
    requires '\n' !in Header(r) && '\n' !in SummaryLine(r)
    ensures var fb := Split(r.feedback.GetOr("No feedback available"), '\n');
      Split(FormatReport(r), '\n') == [RULE, Header(r), RULE, "", SummaryLine(r), "", RULE, ""] + fb + ["", RULE]
  {
    var fb := r.feedback.GetOr("No feedback available");
    var pre := [RULE, Header(r), RULE, "", SummaryLine(r), "", RULE, ""];
    assert ReportLines(r) == pre + [fb] + ["", RULE];
    assert '\n' !in RULE;
    forall k | 0 <= k < |pre| ensures '\n' !in pre[k] {}
    SplitJoinMiddle(pre, fb, ["", RULE], '\n');
  }
}
