# granola-coach, modelled in Dafny

granola-coach is a batch job. It reads the meeting-notes application's
local credentials and pages through the service's document listing. It
keeps the meetings created inside a date window, with their transcripts.
It asks a language model for coaching feedback on them, saves that feedback
in a dated feedback directory and mails the report. Finally it records the
meetings in a ledger of processed documents.

This project models the logic of that job and proves properties of it:

- `Credentials` (credentials.dfy) models the credentials file:
  - which of the three historical layouts it uses, and in what order they are tried;
  - what loading yields, and the default client id;
  - how refreshed tokens are written back into the layout that is found.
- `GranolaApi` (granola_client.dfy) models the API client:
  - a `GranolaClient` class whose fields are the tokens, the client id, the text of the credentials file and the log of POSTs issued;
  - the token refresh;
  - the request that refreshes and retries once on a 401;
  - the two endpoint wrappers.
  
  Each method is proved equal to a function on the client's state (`Refresh`, `MakeRequest`), and the retry properties are lemmas about those functions.
- `MeetingScan` (meeting_scan.dfy) models:
  - the paged date-range scan over a finite listing, as a loop-based method proved equal to the function `Scan`;
  - its characterisation by the reference `Wanted`;
  - the transcript formatter.
- `MeetingAnalysis` (analyze_meetings.dfy) is the runner. Its class `MeetingAnalysisRunner` holds four fields:
  - the ledger;
  - the sequence of ledgers written to the state file;
  - the feedback directory, as a map from file name to text;
  - the e-mails handed to the provider.

  Its methods are the ledger operations, the new-only filter, the previous-feedback loader, the feedback saver and `analyze_and_report`. Module-level functions model the date range of `run` and the argument check of `main`.
- `FeedbackHistory` (feedback_history.dfy) holds the specification functions for the feedback directory:
  - which files qualify, the newest-first order and the selection of at most three;
  - the rendering of the context;
  - the dated-file/backup naming and the effect of a save.
- `AiAnalyzer` (ai_analyzer.dfy) models:
  - the combined meeting text, the base prompt, the context and the prompt;
  - the result record, on success, on model failure and with no meetings;
  - the plain-text report.
- `EmailSender` (email_sender.dfy) models:
  - the subject line;
  - HTML escaping, with a reference decoder proving nothing is lost;
  - the line classifier of the HTML body and the loop that builds that body.
- `Text`, `Json` and `Wrappers` are the Python string operations the program relies on (`split`, `join`, `strip`, `startswith`, `in`, `str(n)`), decoded JSON values, and Option/Result.

The network, the language model, JSON text and the calendar are parameters:
- `Network` gives the reply to the n-th POST of a client.
- `Model` gives the completion, or the message of the exception it raised.
- `Codec` is the JSON parse/print pair; `Lossless` states that it reads back what it writes.
- `Calendar` and `parseIso` give the date parsing and printing.

Instants are integer seconds (`DateTime`, with a flag for a timezone-aware value). Feedback-file dates are integer day numbers. The clock reading is the `Now` parameter.

Where a plain reading of the program's purpose and its code disagree, the model follows the code:

- **Naive `created_at` raises.** Only the `Z` of `created_at` is rewritten, so a timestamp without an offset is naive. Comparing it with the UTC-aware bounds raises outside the `try`, and the whole scan fails (`MeetingScan.NaiveTimestampRaises`). It is not compared as UTC.
- **No layout, no error.** With none of the three layouts present, loading succeeds and leaves both tokens unset.
- **Write-back re-detects the layout.** It looks at the file again at save time. Its last branch is an unconditional `else`, which writes top-level fields even when loading found no layout.
- **Re-marking writes nothing.** `_mark_as_processed` appends and saves only when the id is absent.

## Model

| member | source | states |
|---|---|---|
| GranolaApi.GranolaClient.constructor | granola_client.py:20-23 | tokens and client id start as None; no POST has been issued |
| GranolaApi.GranolaClient.LoadCredentials | granola_client.py:26-54 | failure exactly when loading fails, and then no field changes; on success the client id is assigned, and the tokens are assigned only when a layout was found |
| Credentials.Load | granola_client.py:26-54 | definition; characterised by `LoadSelectsByPriority`, `MissingFileNamesPath`, `UndecodableFails` and `SaveThenLoad` |
| Credentials.LoadSelectsByPriority | granola_client.py:34-48 | tokens come from `workos_tokens` (decoded), else `currentSession`, else the top level; with no layout, both stay None and no error is raised; client id is the top-level `client_id` or the default, whatever the layout |
| Credentials.MissingFileNamesPath | granola_client.py:50-52 | a missing file fails with a message that contains the credentials path |
| Credentials.UndecodableFails | granola_client.py:30-54 | undecodable text, at the top level or inside `workos_tokens`, fails with "Failed to parse Granola credentials file." |
| GranolaApi.Refresh | granola_client.py:56-80 | definition; characterised by `RefreshPosts`, `RefreshSuccess`, `RefreshSucceedsOnGoodReply` and `RefreshFailureKeepsFile` |
| GranolaApi.GranolaClient.RefreshAccessToken | granola_client.py:56-80 | the outcome and new client state are those of `Refresh` on the old state |
| GranolaApi.RefreshPosts | granola_client.py:58-68 | with no refresh token, "No refresh token available" and nothing else happens; otherwise exactly one POST to the identity provider with client id, grant type and refresh token; the client id never changes |
| GranolaApi.RefreshSuccess | granola_client.py:67-77 | success implies a good object reply; both tokens are then the reply's, and the credentials file is rewritten with them |
| GranolaApi.RefreshSucceedsOnGoodReply | granola_client.py:67-80 | conversely, with a refresh token, a 2xx object reply holding both tokens makes the refresh succeed with the reply's tokens, whatever the write-back does |
| GranolaApi.RefreshFailureKeepsFile | granola_client.py:67-80 | a failed refresh leaves the credentials file and the refresh token as they were |
| GranolaApi.GranolaClient.SaveRefreshToken | granola_client.py:82-105 | the file becomes `SaveTokens` of the old file and the current tokens; any failure leaves it as it was |
| Credentials.WriteBack | granola_client.py:88-99 | definition; characterised by `WriteBackTouchesOnlyTokens` and `WriteBackReadsBack` |
| Credentials.SaveTokens | granola_client.py:82-105 | definition; characterised by `SaveThenLoad` and `GranolaClient.SaveRefreshToken` |
| Credentials.WriteBackTouchesOnlyTokens | granola_client.py:88-99 | write-back succeeds on a file that loaded; it changes only the layout's key (nested layouts) or only the two token keys (top level); inside `currentSession` the object is the old one with the two tokens set, and `workos_tokens` re-parses to the old object with the two tokens set, so every other field keeps its value |
| Credentials.WriteBackReadsBack | granola_client.py:88-102 | the edited object has the same layout and client id, and reads back exactly the new tokens |
| Credentials.SaveThenLoad | granola_client.py:84-102 | layout preservation: after a load that found a layout, saving tokens and loading again gives the same layout, the same client id and the new tokens |
| GranolaApi.MakeRequest | granola_client.py:107-129 | definition; characterised by `NoRetryOnePost`, `RetryOnce`, `SecondUnauthorizedFails` and `RetrySucceeds` |
| GranolaApi.GranolaClient.Request | granola_client.py:107-129 | the result and new client state are those of `MakeRequest` on the old state |
| GranolaApi.NoRetryOnePost | granola_client.py:117-129 | with retrying off, exactly one POST carrying the current token, and no other change |
| GranolaApi.RetryOnce | granola_client.py:117-129 | one to three POSTs, the first always the API call; more than one exactly when retrying is on, the first reply is 401 and a refresh token exists; the second then goes to the identity provider, and a third, if any, is the same API call with the new token; without a 401 retry, tokens and file are unchanged |
| GranolaApi.SecondUnauthorizedFails | granola_client.py:121-125 | 401, a successful refresh, then 401 again: the call fails as an API failure after exactly three POSTs, with no third API attempt |
| GranolaApi.RetrySucceeds | granola_client.py:121-126 | 401, a successful refresh, then a good reply: the call returns that reply's body after three POSTs |
| GranolaApi.DocsOf | granola_client.py:140 | the `docs` field of an object reply, `[]` when it is absent, and an error for a reply that is not an object |
| GranolaApi.TranscriptOf | granola_client.py:148 | a list reply is the transcript; anything else is the empty list |
| GranolaApi.GranolaClient.GetDocuments | granola_client.py:131-140 | POSTs the limit/offset payload through `MakeRequest` and returns `DocsOf` of the reply, or the request's error |
| GranolaApi.GranolaClient.GetDocumentTranscript | granola_client.py:142-148 | POSTs the document id through `MakeRequest` and returns `TranscriptOf` of the reply, or the request's error |
| MeetingScan.AsUtc | granola_client.py:155-158 | a bound becomes aware and keeps its instant |
| MeetingScan.Page | granola_client.py:162-165 | a page holds at most 100 documents: the listing's slice from the offset, or nothing past its end |
| MeetingScan.Scan | granola_client.py:150-191 | definition; characterised by `DateFilter`, `ScanFrom`, `NaiveTimestampRaises` and `ScanFails` |
| MeetingScan.GetMeetingsInDateRange | granola_client.py:150-191 | returns `Scan` from offset 0 with the bounds made UTC; pages are requested at offsets 0, 100, 200, …; every page before the last was full, and a successful scan ends on a short or empty page |
| MeetingScan.FilterPage | granola_client.py:170-183 | definition; characterised by `FilterPageExact` |
| MeetingScan.ScanPage | granola_client.py:170-183 | the loop over one page equals `FilterPage` |
| MeetingScan.FilterPageExact | granola_client.py:170-183 | a page whose timestamps are all aware yields exactly its wanted documents; any other page fails |
| MeetingScan.WantedMembers | granola_client.py:175-180 | the wanted documents are exactly those inside the inclusive window whose transcript fetch succeeded, each with its transcript |
| MeetingScan.WantedAppend | granola_client.py:170-180 | listing order is kept: what is wanted from a concatenation is the concatenation of what is wanted |
| MeetingScan.ScanFrom | granola_client.py:164-189 | with no failing page and all timestamps aware, the paged scan from an offset returns the wanted documents of the rest of the listing |
| MeetingScan.DateFilter | granola_client.py:154-183 | with no failing page and all timestamps aware, the scan returns, in listing order, exactly the documents with start <= created_at <= end whose transcript fetch succeeded, transcript attached; failed fetches are skipped |
| MeetingScan.NaiveTimestampRaises | granola_client.py:172-175 | one unparsable or naive `created_at` anywhere in the listing makes the whole scan fail, whether or not some page fails to load |
| MeetingScan.ScanFails | granola_client.py:164-175 | from any offset at or before such a document, the scan fails |
| MeetingScan.FormatTranscript | granola_client.py:193-204 | definition; characterised by `FormatTranscriptLines` and `FormatTranscriptExample` |
| MeetingScan.Lines | granola_client.py:199-202 | one `"<source>: <text>"` line per utterance, in order, with defaults `Unknown` and `""` |
| MeetingScan.FormatTranscriptLines | granola_client.py:193-204 | the text is empty exactly for an empty transcript; otherwise splitting it at line breaks gives back the utterance lines, in order |
| MeetingScan.FormatTranscriptExample | granola_client.py:193-204 | two utterances give `"Alice: Hello\nBob: Hi"`, and the empty transcript gives `""` |
| MeetingAnalysis.LoadState | analyze_meetings.py:39-48 | a missing or unreadable state file is an empty ledger; otherwise the stored `processed_documents` (None when the key is missing) |
| MeetingAnalysis.MeetingAnalysisRunner.constructor | analyze_meetings.py:33-37 | the ledger is the loaded state; nothing written or sent yet |
| MeetingAnalysis.MeetingAnalysisRunner.MarkAsProcessed | analyze_meetings.py:58-62 | fails exactly when the ledger key is missing; otherwise the id is appended and one save recorded only when absent, and nothing else changes |
| MeetingAnalysis.Mark | analyze_meetings.py:58-62 | definition; characterised by `MarkRecords` |
| MeetingAnalysis.MarkRecords | analyze_meetings.py:58-66 | after marking, the id and every earlier id are processed and nothing else; earlier ids keep their order; no duplicate is added; a ledger that has the id is unchanged |
| MeetingAnalysis.MarkAll | analyze_meetings.py:188-190 | definition; characterised by `MarkAllRecords` and `WritesNone` |
| MeetingAnalysis.MarkAllRecords | analyze_meetings.py:188-190 | after marking a list of ids, exactly those ids and the earlier ones are processed |
| MeetingAnalysis.WritesNone | analyze_meetings.py:60 | with the ledger key missing, marking saves nothing |
| MeetingAnalysis.MeetingAnalysisRunner.MarkMeetings | analyze_meetings.py:188-190 | the marking loop leaves the ledger `MarkAll` of the ids and appends the ledgers `Writes` lists; it fails exactly when the key is missing and there is an id to mark |
| MeetingAnalysis.NewOnly | analyze_meetings.py:75-78 | definition; characterised by `NewOnlyFilters` and `NewOnlyAppend` |
| MeetingAnalysis.NewOnlyFilters | analyze_meetings.py:75-78 | the filter keeps exactly the unprocessed meetings; the dropped ones are the processed ones; kept plus dropped counts add up to the input's; with nothing processed the input passes unchanged |
| MeetingAnalysis.NewOnlyAppend | analyze_meetings.py:77 | the filter keeps order: filtering a concatenation filters each part |
| MeetingAnalysis.MeetingAnalysisRunner.FetchMeetings | analyze_meetings.py:68-83 | a scan failure is passed on; otherwise the scan's meetings, filtered by the ledger only with `new_only` |
| MeetingAnalysis.Prepare | analyze_meetings.py:85-94 | each meeting, in order, gets the formatted text of its transcript (of `[]` when it has none) |
| MeetingAnalysis.ValidateArgs | analyze_meetings.py:309-313 | an error exactly when one of `--start`/`--end` is given without the other, with the source's two messages |
| MeetingAnalysis.DateRange | analyze_meetings.py:218-234 | definition; characterised by `DateRangeWindows`, `BadDateFails` and `LabelIsSubject` |
| MeetingAnalysis.DateRangeWindows | analyze_meetings.py:218-234 | `--start`/`--end`: an instant is in the window iff it lies on a day from start to end; neither option: iff it lies today, now included; `--days N`: from N days before now to 23:59:59 today |
| MeetingAnalysis.BadDateFails | analyze_meetings.py:219-221 | a start or end date that does not parse stops the run |
| MeetingAnalysis.LabelIsSubject | analyze_meetings.py:219-231 | every range label is non-empty, so the e-mail subject carries it |
| MeetingAnalysis.MeetingAnalysisRunner.FeedbackCandidates | analyze_meetings.py:100-111 | collects exactly the qualifying feedback files, each once |
| FeedbackHistory.Qualifying | analyze_meetings.py:101-111 | definition; characterised by `QualifyingMember` and `CollectedAll` |
| MeetingAnalysis.QualifyingMember | analyze_meetings.py:102-109 | a file qualifies iff its name is in the directory, carries a parsable date, and that date is 1 to 7 days before today |
| MeetingAnalysis.CollectStep | analyze_meetings.py:102-111 | looking at one more file keeps the collected list exact for the files seen so far |
| MeetingAnalysis.CollectedAll | analyze_meetings.py:100-111 | once every file is seen, the list holds exactly the qualifying ones |
| MeetingAnalysis.SelectionIsTop | analyze_meetings.py:116-120 | sorting newest first and keeping three gives the selection `Top` describes |
| MeetingAnalysis.LaterThanCut | analyze_meetings.py:117-120 | what lies past the cut of a newest-first list is older than everything before it |
| MeetingAnalysis.MeetingAnalysisRunner.LoadPreviousFeedback | analyze_meetings.py:96-127 | the files used are the `Top` selection of the qualifying ones; the result is their rendered pieces joined, and it is None exactly when no file qualifies |
| MeetingAnalysis.MeetingAnalysisRunner.SaveFeedback | analyze_meetings.py:129-151 | the directory becomes `Saved` of the old one; ledger and outbox unchanged |
| MeetingAnalysis.MeetingAnalysisRunner.Analyze | analyze_meetings.py:159-165 | the analysis result is the model's answer to the prompt built with last week's `Top` feedback as context, and records the meeting count and the date |
| MeetingAnalysis.MeetingAnalysisRunner.SendReport | analyze_meetings.py:180-186 | exactly one e-mail is handed over: subject from the range, the report's HTML body, and the report as text |
| MeetingAnalysis.MeetingAnalysisRunner.AnalyzeAndReport | analyze_meetings.py:153-192 | no meetings: the fixed message, nothing changed. Otherwise: last week's feedback feeds the analysis; its feedback is saved with backup; the e-mail is sent only when asked; every meeting is marked, whatever became of the e-mail; the report is returned unless the ledger key is missing |
| FeedbackHistory.NewerTransitive | analyze_meetings.py:117 | the newest-first order is transitive |
| FeedbackHistory.NewerTotal | analyze_meetings.py:117 | any two distinct entries are ordered |
| FeedbackHistory.NewerIrreflexive | analyze_meetings.py:117 | no entry is newer than itself |
| FeedbackHistory.Insert | analyze_meetings.py:117 | insertion adds exactly the one entry |
| FeedbackHistory.InsertNewestFirst | analyze_meetings.py:117 | insertion keeps a list newest first |
| FeedbackHistory.SortNewestFirst | analyze_meetings.py:117 | sorting is a permutation |
| FeedbackHistory.SortIsNewestFirst | analyze_meetings.py:117 | sorting entries with distinct names gives a newest-first list |
| FeedbackHistory.DistinctCount | analyze_meetings.py:109 | a list with distinct names has as many distinct entries as elements |
| FeedbackHistory.Top | analyze_meetings.py:116-120 | definition; characterised by `SelectionIsTop`, `TopUnique` and `UsedWithinWeek` |
| FeedbackHistory.TopUnique | analyze_meetings.py:100-120 | the selection is unique, so it does not depend on the order the directory lists its files in |
| FeedbackHistory.TopAgreesAt | analyze_meetings.py:117-120 | two `Top` selections agree at every position |
| FeedbackHistory.BeforeInOther | analyze_meetings.py:117-120 | where two `Top` selections first differ, each entry is newer than the other's, which cannot be |
| FeedbackHistory.Combine | analyze_meetings.py:118-121 | the `"[YYYY-MM-DD]\n" + content` pieces joined by blank lines are non-empty when any file is used |
| FeedbackHistory.JoinNonEmpty | analyze_meetings.py:123 | a join whose first piece is non-empty is non-empty |
| FeedbackHistory.NoneIffNothingQualifies | analyze_meetings.py:113-114 | no file is used exactly when none qualifies |
| FeedbackHistory.UsedWithinWeek | analyze_meetings.py:105-120 | at most three files are used, each in the directory, named with its day, 1 to 7 days before today |
| FeedbackHistory.SecondPiece | analyze_meetings.py:105 | the second `_`-piece of `head_date` and of `head_date_rest` is the date |
| FeedbackHistory.BackupKeepsDate | analyze_meetings.py:134-139 | today's file and its backup both carry today's date as their date piece |
| FeedbackHistory.Saved | analyze_meetings.py:129-149 | definition; characterised by `SavedVersions` |
| FeedbackHistory.SavedVersions | analyze_meetings.py:129-149 | after saving, today's file and `current.txt` hold the new text; the replaced text is under the backup name; every other file is untouched; nothing else is added |
| AiAnalyzer.MeetingsText | ai_analyzer.py:61-71 | definition; characterised by `Blocks`, `MeetingsTextAppend` and `MeetingsTextSingle` |
| AiAnalyzer.Blocks | ai_analyzer.py:61-71 | one block per meeting, in input order |
| AiAnalyzer.MeetingsTextAppend | ai_analyzer.py:61-71 | the combined text of a concatenation is the concatenation of the combined texts |
| AiAnalyzer.MeetingsTextSingle | ai_analyzer.py:67-71 | one meeting contributes exactly its own block |
| AiAnalyzer.BasePrompt | ai_analyzer.py:74 | the custom prompt when it is non-empty, else the default prompt |
| AiAnalyzer.ContextLayout | ai_analyzer.py:76-85 | people before previous feedback, separated by a blank line; each part alone; empty exactly when neither is given |
| AiAnalyzer.Prompt | ai_analyzer.py:88-108 | definition; characterised by `PromptHasEveryMeeting` |
| AiAnalyzer.PromptHasEveryMeeting | ai_analyzer.py:88-108 | every meeting's block appears in the prompt |
| AiAnalyzer.Completed | ai_analyzer.py:119-134 | the meeting count and date are recorded; the feedback is the model's reply, or "Analysis failed: " and the error message |
| AiAnalyzer.AnalyzeMeetings | ai_analyzer.py:51-134 | no meetings: the fixed empty result, without calling the model; otherwise `Completed` of the model's answer to the assembled prompt |
| AiAnalyzer.FormatReport | ai_analyzer.py:136-151 | definition; characterised by `ReportLayout` |
| AiAnalyzer.ReportLayout | ai_analyzer.py:136-151 | the report's lines are rule, header, rule, blank, summary, blank, rule, blank, the feedback's lines, blank, rule |
| EmailSender.Subject | email_sender.py:35-39 | the prefix and the range when the range is non-empty, else the prefix and today's date |
| EmailSender.UnescapePlain | email_sender.py:65 | a character that does not open an entity decodes to itself |
| EmailSender.UnescapeChar | email_sender.py:65 | each escaped character decodes back to itself |
| EmailSender.Escape | email_sender.py:65 | definition; characterised by `EscapeRoundTrip`, `EscapeSafe` and `EscapeSplit` |
| EmailSender.EscapeRoundTrip | email_sender.py:65 | escaping loses nothing: decoding the escaped text gives the original |
| EmailSender.EscapeSafe | email_sender.py:65 | the escaped text holds no `<`, `>`, `"` or `'` |
| EmailSender.EscapeSplit | email_sender.py:65-71 | escaping keeps line breaks and creates none, so the escaped lines are the lines escaped |
| EmailSender.Classify | email_sender.py:72-87 | definition; characterised by `RulePriority`, `BreakIffBlank` and `ClassifyText` |
| EmailSender.ClassifyText | email_sender.py:76-87 | a stripped line never becomes a rule; it becomes a break exactly when empty, and otherwise an element wrapping the stripped line |
| EmailSender.RulePriority | email_sender.py:72-75 | 40 `=` give the thick rule, else 40 `-` the thin rule, before any other rule; a line is a rule iff it holds one of the marks |
| EmailSender.BreakIffBlank | email_sender.py:72-87 | a line becomes `<br>` exactly when it is whitespace only |
| EmailSender.NoRuleInBlank | email_sender.py:72-75 | a whitespace-only line holds no rule mark |
| EmailSender.ElementPerLine | email_sender.py:71-87 | one element per line of the report, in order, as many as line breaks plus one, each the classification of its escaped line |
| EmailSender.ElementsSafe | email_sender.py:65-87 | no element text carries `<` or `>` from the report |
| EmailSender.HtmlOf | email_sender.py:71-87 | one HTML line per input line |
| EmailSender.HtmlOfAt | email_sender.py:71-87 | the k-th HTML line renders the k-th line |
| EmailSender.Render | email_sender.py:73-87 | definition; characterised by `HtmlLinesRender` and `ElementsSafe` |
| EmailSender.HtmlLinesRender | email_sender.py:71-89 | the HTML lines are the rendered elements, one for one, in order |
| EmailSender.FormatHtmlBody | email_sender.py:61-89 | the loop's body is the HTML lines of the escaped report joined by line breaks |
| Text.Split | email_sender.py:71 | `split('\n')` gives one more piece than there are separators, none holding the separator |
| Text.JoinSplit | email_sender.py:71-89 | joining the pieces of a split with the separator gives the text back |
| Text.SplitJoin | granola_client.py:204 | splitting a join of separator-free pieces gives the pieces back |
| Text.StripEmpty | email_sender.py:84 | a line strips to nothing exactly when it is whitespace only |
| Text.Repeat | ai_analyzer.py:67 | `c * n` has length n and holds only c |
| Text.NatToString | ai_analyzer.py:122 | `str(n)` is a non-empty run of decimal digits with no leading zero whose decimal value is `n` |

## Left out

- HTTP to the service and to the identity provider is the `Network` parameter.
  - A body that is not JSON counts as a request failure, as in `requests`.
  - Headers other than the bearer token are not modelled.
- The credentials path is a constant, not expanded against the home directory.
- Uncaught errors are modelled as error values:
  - `TypeError`/`AttributeError` from a credentials file of an unexpected layout (`Credentials.Malformed`);
  - the `KeyError` from a refresh reply without a token (`GranolaApi.UnexpectedShape`).
- JSON text is the `Codec` parameter; decoded numbers are integers.
- Date and time parsing and printing are parameters:
  - `fromisoformat` of `created_at` is given by each document's `createdAt`;
  - `strptime`/`strftime` are given by `Calendar` and `parseIso`;
  - the clock is `Now`.
- Instants have whole-second resolution. The default range of `run` starts at midnight plus the current microseconds, which the model rounds away.
- `_save_state` is recorded as the ledger written to `stateWrites`; a failed write, which the source only prints, is not modelled.
- In `_load_previous_feedback`, an error reading a file makes the source return None through its outer `except`. The model treats every file as readable.
- `message.content` of the completion is a string here. A None content is not modelled.
- `_load_custom_prompt`, the environment settings and the constructors' configuration checks are left out. Their results enter as `AnalyzerConfig` or are absent.
- `_save_report_to_log` only writes files and is left out.
- The HTML page template around the body and the e-mail provider call are left out. So are the success flag `send_analysis_report` returns and `send_test_email`.
- In `main`, the `--test-email` mode and the argparse mutual exclusion of `--days` and `--start` are left out.
- In `run`, the fetch–prepare–analyze orchestration inside its `try` is not a member. Its parts are: `FetchMeetings`, `Prepare`, `AnalyzeAndReport`, `DateRange`.
- Console output (`print`, `traceback`) is left out.
- Some steps are modelled on values rather than in place:
  - `doc['transcript'] = …` and `meeting['transcript_text'] = …` produce updated copies of the documents, so aliasing between the listing and the result is not captured;
  - `format_report` and the appends that build `context_parts` are functions over fixed lists;
  - the in-place `sort(reverse=True)` of the feedback candidates is the insertion sort `SortNewestFirst`.
- The date-range scan does not go through the client. `Scan` and `GetMeetingsInDateRange` read pages from a `Listing` and transcripts from a `Fetch` parameter; they do not call `GetDocuments`/`GetDocumentTranscript`. So the token refresh, the credentials-file rewrite and the POSTs a scan can cause are not part of the scan model, and the pages are taken to be consistent slices of one listing.
- An utterance is a map from strings to strings. A `source` or `text` of null, which the f-string renders as `None`, is not modelled. Neither is an utterance that is not an object, which raises `AttributeError`.
- A document's `title` and `created_at` are strings or absent. A JSON null or a non-string value, which `f"Meeting: {title}"` and `f"Date: {…}"` would render as Python's `str` of it (`None`, digits), is not modelled. Every document has a string `id`. An in-window document without one, whose `doc['id']` raises `KeyError` inside the per-document `try` so that the document is skipped with a warning, is not modelled.
- The ledger file is either absent, unreadable, or an object whose `processed_documents` is a list of strings or missing. A state file that is not an object, or whose `processed_documents` has another type, is not modelled. In the source that raises `TypeError`/`AttributeError`, or, for a string, turns the membership test into a substring test.
- `EmailSender.Unescape` is not part of the program. It is a reference decoder, used only to state that escaping loses nothing.
- MeetingAnalysis.DateRangeWindows: does not characterise a negative `--days`. `DateRange` models it, as a window starting after now.
- MeetingAnalysis.MeetingAnalysisRunner.AnalyzeAndReport: returns the missing-ledger-key failure as an error value. The source raises a `KeyError` after the feedback is saved and the e-mail sent.
