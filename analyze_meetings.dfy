/**
 * The runner: the ledger of processed documents, the new-only filter, the
 * date range the command line selects, and the analyze-and-report step that
 * ties the scan, the analyzer, the feedback directory and the e-mail together.
 */
module MeetingAnalysis {
  import opened Wrappers
  import opened Text
  import opened MeetingScan
  import opened FeedbackHistory
  import Ai = AiAnalyzer
  import Mail = EmailSender

  const NO_MEETINGS_FOUND := "No meetings found in the specified date range."
  const DAY_SECONDS := 86400

  /** What reading the state file gives: its `processed_documents` list, None when that key is missing. */
  datatype LedgerFile = NoFile | Unreadable | Stored(processed: Option<seq<string>>)

  /** `_load_state`: a missing or unreadable file is an empty ledger. */
  function LoadState(f: LedgerFile): (r: Option<seq<string>>)
    ensures f.NoFile? || f.Unreadable? ==> r == Some([])
    ensures f.Stored? ==> r == f.processed
  {
    match f
    case Stored(p) => p
    case _ => Some([])
  }

  /** `id in state.get("processed_documents", [])`. */
  predicate Processed(ledger: Option<seq<string>>, id: string)
  {
    ledger.Some? && id in ledger.value
  }

  /** `_mark_as_processed` on the ledger: None stays None (the lookup raises). */
  function Mark(ledger: Option<seq<string>>, id: string): Option<seq<string>>
  {
    match ledger
    case None => None
    case Some(ids) => Some(if id in ids then ids else ids + [id])
  }

  predicate Distinct(ids: seq<string>)
  {
    forall i, j :: 0 <= i < j < |ids| ==> ids[i] != ids[j]
  }

  /**
   * Marking records the id and only it, keeps the earlier ids in their
   * order, leaves a ledger that already has it as it is, and never adds a
   * duplicate.
   */
  lemma MarkRecords(ledger: Option<seq<string>>, id: string)
    ensures ledger.None? ==> Mark(ledger, id).None?
    ensures ledger.Some? ==> var after := Mark(ledger, id).value;
      && Processed(Mark(ledger, id), id)
      && (forall x :: Processed(Mark(ledger, id), x) <==> x == id || Processed(ledger, x))
      && |after| >= |ledger.value| && after[..|ledger.value|] == ledger.value
      && (id in ledger.value ==> after == ledger.value)
      && (id !in ledger.value ==> after == ledger.value + [id])
      && (Distinct(ledger.value) ==> Distinct(after))
  {
  }

  /** Marking every id in turn. */
  function MarkAll(ledger: Option<seq<string>>, ids: seq<string>): Option<seq<string>>
  {
    if ids == [] then ledger else Mark(MarkAll(ledger, ids[..|ids| - 1]), ids[|ids| - 1])
  }

  /** The ledgers the state file is written with while marking every id in turn. */
  function Writes(ledger: Option<seq<string>>, ids: seq<string>): seq<seq<string>>
  {
    if ids == [] then []
    else
      var before := MarkAll(ledger, ids[..|ids| - 1]);
      var id := ids[|ids| - 1];
      Writes(ledger, ids[..|ids| - 1]) + (if before.Some? && id !in before.value then [Mark(before, id).value] else [])
  }

  /**
   * After marking a list of ids every one of them is processed, as is every id
   * processed before, and nothing else; a ledger without the key stays so.
   */
  lemma {:induction false} MarkAllRecords(ledger: Option<seq<string>>, ids: seq<string>)
    ensures ledger.None? ==> MarkAll(ledger, ids).None?
    ensures ledger.Some? ==> MarkAll(ledger, ids).Some?
    ensures forall x :: Processed(MarkAll(ledger, ids), x) <==> (ledger.Some? && (x in ids || Processed(ledger, x)))
    decreases |ids|
  {
    if ids != [] {
      var init := ids[..|ids| - 1];
      MarkAllRecords(ledger, init);
      MarkRecords(MarkAll(ledger, init), ids[|ids| - 1]);
      assert ids == init + [ids[|ids| - 1]];
    }
  }

  /** The ids of the meetings, in order. */
  function Ids(ms: seq<Document>): (r: seq<string>)
    ensures |r| == |ms| && forall i :: 0 <= i < |ms| ==> r[i] == ms[i].id
  {
    seq(|ms|, i requires 0 <= i < |ms| => ms[i].id)
  }

  /** `[m for m in meetings if not self._is_processed(m['id'])]`. */
  function NewOnly(ms: seq<Document>, ledger: Option<seq<string>>): seq<Document>
  {
    if ms == [] then []
    else (if Processed(ledger, ms[0].id) then [] else [ms[0]]) + NewOnly(ms[1..], ledger)
  }

  /** The meetings the filter drops. */
  function Dropped(ms: seq<Document>, ledger: Option<seq<string>>): seq<Document>
  {
    if ms == [] then []
    else (if Processed(ledger, ms[0].id) then [ms[0]] else []) + Dropped(ms[1..], ledger)
  }

  /**
   * The filter keeps exactly the unprocessed meetings, in their order; what it
   * drops are the processed ones, and the two counts add up to the input's.
   */
  lemma {:induction false} NewOnlyFilters(ms: seq<Document>, ledger: Option<seq<string>>)
    ensures |NewOnly(ms, ledger)| + |Dropped(ms, ledger)| == |ms|
    ensures forall m :: m in NewOnly(ms, ledger) <==> m in ms && !Processed(ledger, m.id)
    ensures forall m :: m in Dropped(ms, ledger) <==> m in ms && Processed(ledger, m.id)
    ensures (forall i :: 0 <= i < |ms| ==> !Processed(ledger, ms[i].id)) ==> NewOnly(ms, ledger) == ms
  {
    if ms != [] {
      NewOnlyFilters(ms[1..], ledger);
      assert ms == [ms[0]] + ms[1..];
    }
  }

  /** Filtering a concatenation filters each part. */
  lemma {:induction false} NewOnlyAppend(a: seq<Document>, b: seq<Document>, ledger: Option<seq<string>>)
    ensures NewOnly(a + b, ledger) == NewOnly(a, ledger) + NewOnly(b, ledger)
  {
    if a == [] {
      assert a + b == b;
    } else {
      var here := if Processed(ledger, a[0].id) then [] else [a[0]];
      assert (a + b)[0] == a[0] && (a + b)[1..] == a[1..] + b;
      assert NewOnly(a + b, ledger) == here + NewOnly(a[1..] + b, ledger);
      NewOnlyAppend(a[1..], b, ledger);
      assert NewOnly(a, ledger) == here + NewOnly(a[1..], ledger);
    }
  }

  /** `prepare_meetings_for_analysis`: each meeting gets the text of its transcript. */
  function Prepare(ms: seq<Document>): (r: seq<Document>)
    ensures |r| == |ms|
    ensures forall i :: 0 <= i < |ms| ==>
      r[i] == ms[i].(transcriptText := Some(FormatTranscript(ms[i].transcript.GetOr([]))))
  {
    seq(|ms|, i requires 0 <= i < |ms| => ms[i].(transcriptText := Some(FormatTranscript(ms[i].transcript.GetOr([])))))
  }

  /** The parsed command line; an absent option is None. */
  datatype Args = Args(days: Option<int>, start: Option<string>, end: Option<string>, newOnly: bool, noEmail: bool)

  /** The option is given and non-empty. */
  predicate Given(o: Option<string>)
  {
    o.Some? && o.value != ""
  }

  /** The check `main` makes before any work: the error message, if any. */
  function ValidateArgs(a: Args): (r: Option<string>)
    ensures r == None <==> (Given(a.start) <==> Given(a.end))
    ensures Given(a.start) && !Given(a.end) ==> r == Some("--start requires --end")
    ensures Given(a.end) && !Given(a.start) ==> r == Some("--end requires --start")
  {
    if Given(a.start) && !Given(a.end) then Some("--start requires --end")
    else if Given(a.end) && !Given(a.start) then Some("--end requires --start")
    else None
  }

  /** The clock reading: a day number, the second of that day, and its renderings. */
  datatype Now = Now(day: int, second: int, isoDate: string, compactDate: string, hms: string)

  predicate ValidNow(now: Now)
  {
    0 <= now.second < DAY_SECONDS
  }

  function Midnight(day: int): DateTime
  {
    DateTime(day * DAY_SECONDS, false)
  }

  /** 23:59:59 of the day. */
  function LastSecond(day: int): DateTime
  {
    DateTime(day * DAY_SECONDS + DAY_SECONDS - 1, false)
  }

  datatype Range = Range(start: DateTime, end: DateTime, caption: string)

  /**
   * The date range of `run`. `parseIso` is `strptime(text, "%Y-%m-%d")` as a
   * day number; a date that does not parse raises, here the text that failed.
   */
  function DateRange(a: Args, now: Now, parseIso: string -> Option<int>, formatIso: int -> string): Result<Range, string>
  {
    if Given(a.start) && Given(a.end) then
      match (parseIso(a.start.value), parseIso(a.end.value))
      case (None, _) => Err(a.start.value)
      case (Some(_), None) => Err(a.end.value)
      case (Some(s), Some(e)) => Ok(Range(Midnight(s), LastSecond(e), a.start.value + " to " + a.end.value))
    else if a.days.Some? && a.days.value != 0 then
      Ok(Range(DateTime(now.day * DAY_SECONDS + now.second - a.days.value * DAY_SECONDS, false),
               LastSecond(now.day), "Last " + IntToString(a.days.value) + " day(s)"))
    else
      Ok(Range(Midnight(now.day), LastSecond(now.day), "Today (" + formatIso(now.day) + ")"))
  }

  /** The instant lies within whole days `first` to `last`, both included. */
  predicate OnDays(seconds: int, first: int, last: int)
  {
    first <= seconds / DAY_SECONDS <= last
  }

  lemma DayOfSeconds(seconds: int, day: int)
    ensures day * DAY_SECONDS <= seconds <= day * DAY_SECONDS + DAY_SECONDS - 1 <==> seconds / DAY_SECONDS == day
  {
  }

  /**
   * With `--start` and `--end` the window holds exactly the instants on the
   * days from start to end; with neither, exactly today's, now included;
   * with `--days N` it runs from N days before now to the end of today.
   */
  lemma DateRangeWindows(a: Args, now: Now, parseIso: string -> Option<int>, formatIso: int -> string, t: int)
    requires ValidNow(now)
    ensures var r := DateRange(a, now, parseIso, formatIso);
      && (Given(a.start) && Given(a.end) && parseIso(a.start.value).Some? && parseIso(a.end.value).Some? ==>
            r.Ok? && (InWindow(DateTime(t, true), r.value.start, r.value.end)
                      <==> OnDays(t, parseIso(a.start.value).value, parseIso(a.end.value).value)))
      && (!(Given(a.start) && Given(a.end)) && (a.days.None? || a.days.value == 0) ==>
            r.Ok? && (InWindow(DateTime(t, true), r.value.start, r.value.end) <==> OnDays(t, now.day, now.day))
            && InWindow(DateTime(now.day * DAY_SECONDS + now.second, true), r.value.start, r.value.end))
      && (!(Given(a.start) && Given(a.end)) && a.days.Some? && a.days.value > 0 ==>
            r.Ok? && r.value.start.seconds == now.day * DAY_SECONDS + now.second - a.days.value * DAY_SECONDS
            && r.value.end == LastSecond(now.day)
            && InWindow(DateTime(now.day * DAY_SECONDS + now.second, true), r.value.start, r.value.end))
  {
    if Given(a.start) && Given(a.end) && parseIso(a.start.value).Some? && parseIso(a.end.value).Some? {
      var s, e := parseIso(a.start.value).value, parseIso(a.end.value).value;
      DayOfSeconds(t, t / DAY_SECONDS);
      assert t >= s * DAY_SECONDS <==> t / DAY_SECONDS >= s;
      assert t <= e * DAY_SECONDS + DAY_SECONDS - 1 <==> t / DAY_SECONDS <= e;
    } else {
      DayOfSeconds(t, now.day);
    }
  }

  /** A date that does not parse stops the run. */
  lemma BadDateFails(a: Args, now: Now, parseIso: string -> Option<int>, formatIso: int -> string)
    requires Given(a.start) && Given(a.end)
    requires parseIso(a.start.value).None? || parseIso(a.end.value).None?
    ensures DateRange(a, now, parseIso, formatIso).Err?
  {
  }

  /** Every range has a non-empty label, so the e-mail subject carries it. */
  lemma LabelIsSubject(a: Args, now: Now, parseIso: string -> Option<int>, formatIso: int -> string)
    requires DateRange(a, now, parseIso, formatIso).Ok?
    ensures var caption := DateRange(a, now, parseIso, formatIso).value.caption;
      caption != "" && Mail.Subject(Some(caption), now.isoDate) == Mail.SUBJECT_PREFIX + caption
  {
  }

  /** Marking cannot start on a ledger without the key, so nothing is written. */
  lemma {:induction false} WritesNone(ids: seq<string>)
    ensures Writes(None, ids) == []
    decreases |ids|
  {
    if ids != [] {
      WritesNone(ids[..|ids| - 1]);
      MarkAllRecords(None, ids[..|ids| - 1]);
    }
  }

  /** The e-mail handed to the provider. */
  datatype Email = Email(subject: string, html: string, text: string)

  /** The e-mail `send_analysis_report` builds: the HTML body of the escaped report and the report as plain text. */
  function ReportEmail(report: string, dateRange: string, now: Now): Email
  {
    Email(Mail.Subject(Some(dateRange), now.isoDate), Join(Mail.HtmlLines(report), "\n"), report)
  }

  /** The context text for the files `used`, None when there are none. */
  function ContextFrom(dir: Directory, used: seq<Entry>, cal: Calendar): Option<string>
    requires forall i :: 0 <= i < |used| ==> used[i].name in dir
  {
    if used == [] then None else Some(Combine(dir, used, cal))
  }

  class MeetingAnalysisRunner {
    /** `state["processed_documents"]`; None when the loaded state has no such key. */
    var processed: Option<seq<string>>
    /** Every ledger written to the state file, in order. */
    var stateWrites: seq<seq<string>>
    /** The feedback directory. */
    var feedbackDir: Directory
    /** Every e-mail handed to the provider, in order. */
    var outbox: seq<Email>
    const cfg: Ai.AnalyzerConfig
    const model: Ai.Model
    const cal: Calendar

    constructor(ledger: LedgerFile, dir: Directory, cfg: Ai.AnalyzerConfig, model: Ai.Model, cal: Calendar)
      ensures processed == LoadState(ledger) && stateWrites == [] && feedbackDir == dir && outbox == []
      ensures this.cfg == cfg && this.model == model && this.cal == cal
    {
      processed := LoadState(ledger);
      stateWrites := [];
      feedbackDir := dir;
      outbox := [];
      this.cfg := cfg;
      this.model := model;
      this.cal := cal;
    }

    /** `_is_processed`. */
    predicate IsProcessed(id: string)
      reads this
    {
      Processed(processed, id)
    }

    /**
     * `_mark_as_processed`: false when the ledger key is missing (the lookup
     * raises); otherwise the id is appended and saved only when absent.
     */
    method MarkAsProcessed(id: string) returns (ok: bool)
      modifies this
      ensures ok <==> old(processed).Some?
      ensures processed == Mark(old(processed), id)
      ensures stateWrites == if ok && id !in old(processed).value then old(stateWrites) + [processed.value] else old(stateWrites)
      ensures feedbackDir == old(feedbackDir) && outbox == old(outbox)
    {
      if processed.None? {
        return false;
      }
      ok := true;
      if id !in processed.value {
        processed := Some(processed.value + [id]);
        stateWrites := stateWrites + [processed.value];
      }
    }

    /** `fetch_meetings`: the scan, then with `newOnly` the processed meetings dropped. */
    method FetchMeetings(l: Listing, start: DateTime, end: DateTime, fetch: Fetch, newOnly: bool)
      returns (r: Result<seq<Document>, ScanError>)
      ensures var scanned := Scan(l, AsUtc(start), AsUtc(end), fetch, 0);
        && (scanned.Err? ==> r == scanned)
        && (scanned.Ok? ==> r == Ok(if newOnly then NewOnly(scanned.value, processed) else scanned.value))
    {
      var scanned, _ := GetMeetingsInDateRange(l, start, end, fetch);
      if scanned.Ok? && newOnly {
        r := Ok(NewOnly(scanned.value, processed));
      } else {
        r := scanned;
      }
    }

    /** The loop of `_load_previous_feedback` over `feedback_*.txt`: every qualifying file, once. */
    method FeedbackCandidates(today: int) returns (files: seq<Entry>)
      ensures forall e :: e in files <==> e in Qualifying(feedbackDir, today, cal)
      ensures DistinctNames(files)
    {
      files := [];
      var rest := feedbackDir.Keys;
      ghost var seen: set<string> := {};
      while rest != {}
        invariant rest + seen == feedbackDir.Keys && rest !! seen
        invariant Collected(files, feedbackDir, today, cal, seen)
        decreases rest
      {
        var name :| name in rest;
        rest := rest - {name};
        var day := FileDay(name, cal);
        CollectStep(files, feedbackDir, today, cal, seen, name);
        if day.Some? && InLastWeek(day.value, today) {
          files := files + [Entry(day.value, name)];
        }
        seen := seen + {name};
      }
      CollectedAll(files, feedbackDir, today, cal);
    }

    /**
     * `_load_previous_feedback`: the newest three feedback files written one
     * to seven days before `today`, rendered and joined; None when no file qualifies.
     */
    method LoadPreviousFeedback(today: int) returns (r: Option<string>, ghost used: seq<Entry>)
      ensures Top(Qualifying(feedbackDir, today, cal), used)
      ensures forall i :: 0 <= i < |used| ==> used[i].name in feedbackDir
      ensures r == ContextFrom(feedbackDir, used, cal)
      ensures r.None? <==> Qualifying(feedbackDir, today, cal) == {}
    {
      var files := FeedbackCandidates(today);
      SortIsNewestFirst(files);
      var sorted := SortNewestFirst(files);
      var n := if |sorted| < MAX_PREVIOUS then |sorted| else MAX_PREVIOUS;
      var top := sorted[..n];
      used := top;
      SelectionIsTop(Qualifying(feedbackDir, today, cal), files, sorted, n);
      UsedWithinWeek(feedbackDir, today, cal, top);
      NoneIffNothingQualifies(Qualifying(feedbackDir, today, cal), top);
      if top == [] {
        return None, used;
      }
      var combined := Combine(feedbackDir, top, cal);
      r := if combined != "" then Some(combined) else None;
    }

    /**
     * `analyze_and_report`: with no meetings, the fixed message and nothing
     * else. Otherwise the previous week's feedback goes into the analysis,
     * the report's feedback is saved, the e-mail is handed over when asked
     * for, and every meeting is marked, whatever became of the e-mail. The
     * error is the missing ledger key.
     */
    method AnalyzeAndReport(meetings: seq<Document>, dateRange: string, sendEmail: bool, now: Now)
      returns (r: Result<string, string>, ghost used: seq<Entry>, ghost result: Ai.AnalysisResult)
      modifies this
      ensures meetings == [] ==>
        && r == Ok(NO_MEETINGS_FOUND)
        && processed == old(processed) && stateWrites == old(stateWrites)
        && feedbackDir == old(feedbackDir) && outbox == old(outbox)
      ensures meetings != [] ==>
        && Top(Qualifying(old(feedbackDir), now.day, cal), used)
        && (forall i :: 0 <= i < |used| ==> used[i].name in old(feedbackDir))
        && result == Ai.Completed(|meetings|, model(Ai.PromptFor(cfg, meetings, ContextFrom(old(feedbackDir), used, cal))), now.isoDate)
      ensures meetings != [] ==>
        feedbackDir == Saved(old(feedbackDir), result.feedback.GetOr(""), now.compactDate, now.hms)
      ensures meetings != [] && sendEmail ==>
        outbox == old(outbox) + [ReportEmail(Ai.FormatReport(result), dateRange, now)]
      ensures !sendEmail ==> outbox == old(outbox)
      ensures meetings != [] ==>
        && processed == MarkAll(old(processed), Ids(meetings))
        && stateWrites == old(stateWrites) + Writes(old(processed), Ids(meetings))
        && (r.Ok? <==> old(processed).Some?)
        && (r.Ok? ==> r.value == Ai.FormatReport(result))
    {
      if meetings == [] {
        return Ok(NO_MEETINGS_FOUND), [], Ai.EmptyResult(now.isoDate);
      }
      var analysis;
      analysis, used := Analyze(meetings, now.day, now.isoDate);
      result := analysis;
      var report := Ai.FormatReport(analysis);
      SaveFeedback(analysis.feedback.GetOr(""), now);
      if sendEmail {
        SendReport(report, dateRange, now);
      }
      var marked := MarkMeetings(Ids(meetings));
      r := if marked then Ok(report) else Err("'processed_documents'");
    }

    /** `send_analysis_report`, as far as this program sees it: the e-mail is handed to the provider. */
    method SendReport(report: string, dateRange: string, now: Now)
      modifies this
      ensures outbox == old(outbox) + [ReportEmail(report, dateRange, now)]
      ensures processed == old(processed) && stateWrites == old(stateWrites) && feedbackDir == old(feedbackDir)
    {
      var html := Mail.FormatHtmlBody(report);
      outbox := outbox + [Email(Mail.Subject(Some(dateRange), now.isoDate), html, report)];
    }

    /** The analysis step of `analyze_and_report`: last week's feedback as context, then the model. */
    method Analyze(meetings: seq<Document>, day: int, isoDate: string)
      returns (result: Ai.AnalysisResult, ghost used: seq<Entry>)
      requires meetings != []
      ensures Top(Qualifying(feedbackDir, day, cal), used)
      ensures forall i :: 0 <= i < |used| ==> used[i].name in feedbackDir
      ensures result == Ai.Completed(|meetings|, model(Ai.PromptFor(cfg, meetings, ContextFrom(feedbackDir, used, cal))), isoDate)
      ensures result.numMeetings == Some(|meetings|) && result.date == Some(isoDate)
    {
      var previous;
      previous, used := LoadPreviousFeedback(day);
      result := Ai.AnalyzeMeetings(cfg, meetings, previous, model, isoDate);
    }

    /** The marking loop of `analyze_and_report`: each id in turn, stopping at the missing ledger key. */
    method MarkMeetings(ids: seq<string>) returns (ok: bool)
      modifies this
      ensures processed == MarkAll(old(processed), ids)
      ensures stateWrites == old(stateWrites) + Writes(old(processed), ids)
      ensures feedbackDir == old(feedbackDir) && outbox == old(outbox)
      ensures ok <==> old(processed).Some? || ids == []
    {
      ghost var ledger0 := processed;
      var i := 0;
      while i < |ids|
        invariant 0 <= i <= |ids|
        invariant processed == MarkAll(ledger0, ids[..i])
        invariant i > 0 ==> ledger0.Some?
        invariant stateWrites == old(stateWrites) + Writes(ledger0, ids[..i])
        invariant feedbackDir == old(feedbackDir) && outbox == old(outbox)
      {
        assert ids[..i + 1][..i] == ids[..i];
        var marked := MarkAsProcessed(ids[i]);
        if !marked {
          MarkAllRecords(ledger0, ids[..i]);
          MarkAllRecords(ledger0, ids);
          WritesNone(ids);
          WritesNone(ids[..i]);
          return false;
        }
        i := i + 1;
      }
      assert ids[..i] == ids;
      MarkAllRecords(ledger0, ids);
      ok := true;
    }

    /** `_save_feedback`: back up today's file if it exists, then write it and `current.txt`. */
    method SaveFeedback(text: string, now: Now)
      modifies this
      ensures feedbackDir == Saved(old(feedbackDir), text, now.compactDate, now.hms)
      ensures processed == old(processed) && stateWrites == old(stateWrites) && outbox == old(outbox)
    {
      var dated := DatedName(now.compactDate);
      if dated in feedbackDir {
        var backup := BackupName(now.compactDate, now.hms);
        feedbackDir := (feedbackDir - {dated})[backup := feedbackDir[dated]];
      }
      feedbackDir := feedbackDir[dated := text];
      feedbackDir := feedbackDir[CURRENT_FEEDBACK := text];
    }
  }

  /** `files` holds exactly the qualifying entries among the names `seen`, each name once. */
  ghost predicate Collected(files: seq<Entry>, dir: Directory, today: int, cal: Calendar, seen: set<string>)
  {
    && (forall i :: 0 <= i < |files| ==> files[i].name in seen && files[i] in Qualifying(dir, today, cal))
    && (forall e :: e in Qualifying(dir, today, cal) && e.name in seen ==> e in files)
    && DistinctNames(files)
  }

  lemma QualifyingMember(dir: Directory, today: int, cal: Calendar, e: Entry)
    ensures e in Qualifying(dir, today, cal) <==>
      e.name in dir && FileDay(e.name, cal) == Some(e.day) && InLastWeek(e.day, today)
  {
    if e.name in dir && FileDay(e.name, cal) == Some(e.day) && InLastWeek(e.day, today) {
      assert e == Entry(FileDay(e.name, cal).value, e.name);
    }
  }

  /** Looking at one more name keeps `Collected`. */
  lemma CollectStep(files: seq<Entry>, dir: Directory, today: int, cal: Calendar, seen: set<string>, name: string)
    requires Collected(files, dir, today, cal, seen) && name in dir && name !in seen
    ensures var day := FileDay(name, cal);
      Collected(if day.Some? && InLastWeek(day.value, today) then files + [Entry(day.value, name)] else files,
                dir, today, cal, seen + {name})
  {
    var day := FileDay(name, cal);
    var next := if day.Some? && InLastWeek(day.value, today) then files + [Entry(day.value, name)] else files;
    forall e | e in Qualifying(dir, today, cal) && e.name in seen + {name}
      ensures e in next
    {
      QualifyingMember(dir, today, cal, e);
      if e.name == name {
        assert next[|next| - 1] == e;
      }
    }
    if day.Some? && InLastWeek(day.value, today) {
      QualifyingMember(dir, today, cal, Entry(day.value, name));
    }
  }

  /** Once every name is seen, `files` holds exactly the qualifying entries. */
  lemma CollectedAll(files: seq<Entry>, dir: Directory, today: int, cal: Calendar)
    requires Collected(files, dir, today, cal, dir.Keys)
    ensures forall e :: e in files <==> e in Qualifying(dir, today, cal)
    ensures DistinctNames(files)
  {
    forall e | e in Qualifying(dir, today, cal) ensures e in files {
      QualifyingMember(dir, today, cal, e);
    }
  }

  /** The sorted candidates cut to three are the selection `Top` describes. */
  lemma SelectionIsTop(q: set<Entry>, files: seq<Entry>, sorted: seq<Entry>, n: nat)
    requires forall e :: e in files <==> e in q
    requires DistinctNames(files)
    requires sorted == SortNewestFirst(files) && NewestFirst(sorted)
    requires n == if |sorted| < MAX_PREVIOUS then |sorted| else MAX_PREVIOUS
    ensures Top(q, sorted[..n])
  {
    DistinctCount(files);
    assert (set i | 0 <= i < |files| :: files[i]) == q;
    assert multiset(sorted) == multiset(files);
    forall i | 0 <= i < n ensures sorted[..n][i] in q {
      assert sorted[i] in multiset(files);
    }
    forall e, i | e in q && e !in sorted[..n] && 0 <= i < n
      ensures Newer(sorted[..n][i], e)
    {
      assert e in multiset(files);
      LaterThanCut(sorted, n, e, i);
    }
  }

  /** In a newest-first list, what lies past the cut is older than everything before it. */
  lemma LaterThanCut(sorted: seq<Entry>, n: nat, e: Entry, i: nat)
    requires NewestFirst(sorted) && n <= |sorted| && i < n
    requires e in sorted && e !in sorted[..n]
    ensures Newer(sorted[i], e)
  {
    var k :| 0 <= k < |sorted| && sorted[k] == e;
    assert k >= n;
  }

}
