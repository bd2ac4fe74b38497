/**
 * The paginated date-range scan of the document listing, and the rendering
 * of a transcript as text.
 *
 * The listing is finite: `Listing.docs` is the whole document history in
 * listing order, and `Listing.failing` the offsets at which asking for a
 * page raises. `Fetch` answers what fetching a document's transcript gives,
 * None when that raises.
 */
module MeetingScan {
  import opened Wrappers
  import opened Text

  const PAGE_SIZE: nat := 100

  /** An instant in seconds since the epoch: in UTC when `aware`, on an unstated clock when naive. */
  datatype DateTime = DateTime(seconds: int, aware: bool)

  /** `d.replace(tzinfo=timezone.utc)` for a naive bound; an aware bound stays. */
  function AsUtc(d: DateTime): (r: DateTime)
    ensures r.aware && r.seconds == d.seconds
  {
    DateTime(d.seconds, true)
  }

  /** One transcript entry: a JSON object with string fields such as `source` and `text`. */
  type Utterance = map<string, string>

  /**
   * A document of the listing. `createdAtText` is its raw `created_at` field;
   * `createdAt` what parsing that text gives after the `Z` rewrite (None when
   * the field is missing or does not parse). `transcript` and `transcriptText`
   * are the fields the program attaches.
   */
  datatype Document = Document(
    id: string,
    title: Option<string>,
    createdAtText: Option<string>,
    createdAt: Option<DateTime>,
    transcript: Option<seq<Utterance>>,
    transcriptText: Option<string>)

  datatype Listing = Listing(docs: seq<Document>, failing: set<nat>)

  type Fetch = string -> Option<seq<Utterance>>

  /** Why the scan raises: a page request failed, or a `created_at` did not parse or was naive. */
  datatype ScanError = ListingFailed(offset: nat) | BadTimestamp(id: string) | NaiveTimestamp(id: string)

  function Min(a: int, b: int): int { if a < b then a else b }

  /** `get_documents(limit=100, offset=offset)` against the listing. */
  function Page(l: Listing, offset: nat): (p: seq<Document>)
    ensures |p| <= PAGE_SIZE
    ensures offset < |l.docs| ==> p == l.docs[offset..Min(offset + PAGE_SIZE, |l.docs|)]
    ensures offset >= |l.docs| ==> p == []
  {
    if offset >= |l.docs| then [] else l.docs[offset..Min(offset + PAGE_SIZE, |l.docs|)]
  }

  /** `start <= created <= end`, both bounds inclusive. */
  predicate InWindow(c: DateTime, start: DateTime, end: DateTime)
  {
    start.seconds <= c.seconds <= end.seconds
  }

  /** The document is kept: in the window, and its transcript fetch did not raise. */
  predicate Kept(d: Document, start: DateTime, end: DateTime, fetch: Fetch)
  {
    d.createdAt.Some? && InWindow(d.createdAt.value, start, end) && fetch(d.id).Some?
  }

  /** `doc['transcript'] = transcript`. */
  function Attach(d: Document, fetch: Fetch): Document
    requires fetch(d.id).Some?
  {
    d.(transcript := fetch(d.id))
  }

  /** Prefix `xs` to a successful result; a failure stays as it is. */
  function Then(xs: seq<Document>, r: Result<seq<Document>, ScanError>): Result<seq<Document>, ScanError>
  {
    match r
    case Ok(ys) => Ok(xs + ys)
    case Err(e) => Err(e)
  }

  /** The inner loop over one page: the first document whose timestamp raises ends the scan. */
  function FilterPage(page: seq<Document>, start: DateTime, end: DateTime, fetch: Fetch)
    : Result<seq<Document>, ScanError>
  {
    if page == [] then Ok([])
    else
      var d := page[0];
      if d.createdAt.None? then Err(BadTimestamp(d.id))
      else if !d.createdAt.value.aware then Err(NaiveTimestamp(d.id))
      else
        var here := if Kept(d, start, end, fetch) then [Attach(d, fetch)] else [];
        Then(here, FilterPage(page[1..], start, end, fetch))
  }

  /** The `while True` loop from `offset` on. */
  function Scan(l: Listing, start: DateTime, end: DateTime, fetch: Fetch, offset: nat)
    : Result<seq<Document>, ScanError>
    decreases |l.docs| - offset
  {
    if offset in l.failing then Err(ListingFailed(offset))
    else
      var page := Page(l, offset);
      if page == [] then Ok([])
      else
        match FilterPage(page, start, end, fetch)
        case Err(e) => Err(e)
        case Ok(found) =>
          if |page| < PAGE_SIZE then Ok(found)
          else Then(found, Scan(l, start, end, fetch, offset + PAGE_SIZE))
  }

  /** The reference: the documents kept, in listing order, each with its transcript attached. */
  function Wanted(docs: seq<Document>, start: DateTime, end: DateTime, fetch: Fetch): seq<Document>
  {
    if docs == [] then []
    else (if Kept(docs[0], start, end, fetch) then [Attach(docs[0], fetch)] else [])
         + Wanted(docs[1..], start, end, fetch)
  }

  /** Every timestamp parsed and carries an offset. */
  predicate AllAware(docs: seq<Document>)
  {
    forall i :: 0 <= i < |docs| ==> docs[i].createdAt.Some? && docs[i].createdAt.value.aware
  }

  lemma ThenEmpty(r: Result<seq<Document>, ScanError>)
    ensures Then([], r) == r
  {
    if r.Ok? {
      assert [] + r.value == r.value;
    }
  }

  lemma ThenThen(xs: seq<Document>, ys: seq<Document>, r: Result<seq<Document>, ScanError>)
    ensures Then(xs, Then(ys, r)) == Then(xs + ys, r)
  {
    if r.Ok? {
      assert xs + (ys + r.value) == (xs + ys) + r.value;
    }
  }

  /** The Wanted documents are exactly the kept ones, each with its transcript. */
  lemma {:induction false} WantedMembers(docs: seq<Document>, start: DateTime, end: DateTime, fetch: Fetch, x: Document)
    ensures x in Wanted(docs, start, end, fetch) <==>
      exists i :: 0 <= i < |docs| && Kept(docs[i], start, end, fetch) && x == Attach(docs[i], fetch)
  {
    if docs != [] {
      WantedMembers(docs[1..], start, end, fetch, x);
      if exists i :: 0 <= i < |docs| && Kept(docs[i], start, end, fetch) && x == Attach(docs[i], fetch) {
        var i :| 0 <= i < |docs| && Kept(docs[i], start, end, fetch) && x == Attach(docs[i], fetch);
        if i > 0 {
          assert docs[1..][i - 1] == docs[i];
        }
      }
      if x in Wanted(docs[1..], start, end, fetch) {
        var i :| 0 <= i < |docs[1..]| && Kept(docs[1..][i], start, end, fetch) && x == Attach(docs[1..][i], fetch);
        assert docs[i + 1] == docs[1..][i];
      }
    }
  }

  /** Listing order is kept: what is wanted from a concatenation is the concatenation of what is wanted. */
  lemma {:induction false} WantedAppend(a: seq<Document>, b: seq<Document>, start: DateTime, end: DateTime, fetch: Fetch)
    ensures Wanted(a + b, start, end, fetch) == Wanted(a, start, end, fetch) + Wanted(b, start, end, fetch)
  {
    if a != [] {
      WantedAppend(a[1..], b, start, end, fetch);
      assert (a + b)[1..] == a[1..] + b;
    } else {
      assert a + b == b;
    }
  }

  /** With every timestamp aware, a page yields exactly its wanted documents; otherwise it fails. */
  lemma {:induction false} FilterPageExact(page: seq<Document>, start: DateTime, end: DateTime, fetch: Fetch)
    ensures AllAware(page) ==> FilterPage(page, start, end, fetch) == Ok(Wanted(page, start, end, fetch))
    ensures !AllAware(page) ==> FilterPage(page, start, end, fetch).Err?
  {
    if page != [] {
      FilterPageExact(page[1..], start, end, fetch);
      if AllAware(page) {
        assert AllAware(page[1..]) by {
          forall i | 0 <= i < |page[1..]| ensures page[1..][i].createdAt.Some? && page[1..][i].createdAt.value.aware {
            assert page[1..][i] == page[i + 1];
          }
        }
      } else if page[0].createdAt.Some? && page[0].createdAt.value.aware {
        assert !AllAware(page[1..]) by {
          var i :| 0 <= i < |page| && !(page[i].createdAt.Some? && page[i].createdAt.value.aware);
          assert page[1..][i - 1] == page[i];
        }
      }
    }
  }

  /** AllAware of a slice of an all-aware listing. */
  lemma AllAwareSlice(docs: seq<Document>, lo: nat, hi: nat)
    requires lo <= hi <= |docs| && AllAware(docs)
    ensures AllAware(docs[lo..hi])
  {
    forall i | 0 <= i < hi - lo ensures docs[lo..hi][i].createdAt.Some? && docs[lo..hi][i].createdAt.value.aware {
      assert docs[lo..hi][i] == docs[lo + i];
    }
  }

  /**
   * The paged scan, when no page request fails and every timestamp is aware,
   * returns the wanted documents of the rest of the listing.
   */
  lemma {:induction false} ScanFrom(l: Listing, start: DateTime, end: DateTime, fetch: Fetch, offset: nat)
    requires l.failing == {} && AllAware(l.docs) && offset <= |l.docs|
    ensures Scan(l, start, end, fetch, offset) == Ok(Wanted(l.docs[offset..], start, end, fetch))
    decreases |l.docs| - offset
  {
    var page := Page(l, offset);
    if page != [] {
      var hi := Min(offset + PAGE_SIZE, |l.docs|);
      AllAwareSlice(l.docs, offset, hi);
      FilterPageExact(page, start, end, fetch);
      if |page| == PAGE_SIZE {
        ScanFrom(l, start, end, fetch, offset + PAGE_SIZE);
        assert l.docs[offset..] == page + l.docs[offset + PAGE_SIZE..];
        WantedAppend(page, l.docs[offset + PAGE_SIZE..], start, end, fetch);
      } else {
        assert page == l.docs[offset..];
      }
    } else {
      assert l.docs[offset..] == [];
    }
  }

  /**
   * The date filter: with no failing page and every timestamp aware, the scan
   * returns, in listing order, exactly the documents inside the inclusive
   * window whose transcript fetch succeeded, each with its transcript.
   */
  lemma DateFilter(l: Listing, start: DateTime, end: DateTime, fetch: Fetch, x: Document)
    requires l.failing == {} && AllAware(l.docs)
    ensures Scan(l, AsUtc(start), AsUtc(end), fetch, 0) == Ok(Wanted(l.docs, AsUtc(start), AsUtc(end), fetch))
    ensures x in Wanted(l.docs, AsUtc(start), AsUtc(end), fetch) <==>
      exists i :: 0 <= i < |l.docs| && l.docs[i].createdAt.Some?
        && start.seconds <= l.docs[i].createdAt.value.seconds <= end.seconds
        && fetch(l.docs[i].id).Some? && x == l.docs[i].(transcript := fetch(l.docs[i].id))
  {
    ScanFrom(l, AsUtc(start), AsUtc(end), fetch, 0);
    assert l.docs[0..] == l.docs;
    WantedMembers(l.docs, AsUtc(start), AsUtc(end), fetch, x);
  }

  /** A timestamp that does not parse, or parses without an offset, makes the whole scan raise. */
  lemma NaiveTimestampRaises(l: Listing, start: DateTime, end: DateTime, fetch: Fetch)
    requires !AllAware(l.docs)
    ensures Scan(l, start, end, fetch, 0).Err?
  {
    var i :| 0 <= i < |l.docs| && !(l.docs[i].createdAt.Some? && l.docs[i].createdAt.value.aware);
    ScanFails(l, start, end, fetch, 0, i);
  }

  lemma {:induction false} ScanFails(l: Listing, start: DateTime, end: DateTime, fetch: Fetch, offset: nat, i: nat)
    requires offset <= i < |l.docs|
    requires !(l.docs[i].createdAt.Some? && l.docs[i].createdAt.value.aware)
    ensures Scan(l, start, end, fetch, offset).Err?
    decreases |l.docs| - offset
  {
    var page := Page(l, offset);
    if i < offset + PAGE_SIZE {
      assert page[i - offset] == l.docs[i];
      FilterPageExact(page, start, end, fetch);
    } else {
      ScanFails(l, start, end, fetch, offset + PAGE_SIZE, i);
    }
  }

  /**
   * `get_meetings_in_date_range(start, end)`. `requested` lists the offsets
   * asked for, in order.
   */
  method GetMeetingsInDateRange(l: Listing, start: DateTime, end: DateTime, fetch: Fetch)
    returns (r: Result<seq<Document>, ScanError>, requested: seq<nat>)
    ensures r == Scan(l, AsUtc(start), AsUtc(end), fetch, 0)
    ensures |requested| >= 1
    ensures forall i :: 0 <= i < |requested| ==> requested[i] == PAGE_SIZE * i
    ensures forall i :: 0 <= i < |requested| - 1 ==> |Page(l, requested[i])| == PAGE_SIZE
    ensures r.Ok? ==> |Page(l, requested[|requested| - 1])| < PAGE_SIZE
  {
    var s, e := AsUtc(start), AsUtc(end);
    var all: seq<Document> := [];
    var offset: nat := 0;
    requested := [];
    ThenEmpty(Scan(l, s, e, fetch, 0));
    while true
      invariant offset == PAGE_SIZE * |requested| && offset <= |l.docs|
      invariant forall i :: 0 <= i < |requested| ==> requested[i] == PAGE_SIZE * i && |Page(l, requested[i])| == PAGE_SIZE
      invariant Scan(l, s, e, fetch, 0) == Then(all, Scan(l, s, e, fetch, offset))
      decreases |l.docs| - offset
    {
      requested := requested + [offset];
      if offset in l.failing {
        return Err(ListingFailed(offset)), requested;
      }
      var documents := Page(l, offset);
      if documents == [] {
        assert all + [] == all;
        break;
      }
      var page := ScanPage(documents, s, e, fetch);
      if page.Err? {
        return page, requested;
      }
      var found := page.value;
      ghost var before := all;
      all := all + found;
      if |documents| < PAGE_SIZE {
        assert Scan(l, s, e, fetch, offset) == Ok(found);
        break;
      }
      assert Scan(l, s, e, fetch, offset) == Then(found, Scan(l, s, e, fetch, offset + PAGE_SIZE));
      ThenThen(before, found, Scan(l, s, e, fetch, offset + PAGE_SIZE));
      offset := offset + PAGE_SIZE;
    }
    r := Ok(all);
  }

  /** The inner loop over one page, document by document. */
  method ScanPage(documents: seq<Document>, s: DateTime, e: DateTime, fetch: Fetch)
    returns (r: Result<seq<Document>, ScanError>)
    ensures r == FilterPage(documents, s, e, fetch)
  {
    var found: seq<Document> := [];
    var i := 0;
    assert documents[0..] == documents;
    ThenEmpty(FilterPage(documents, s, e, fetch));
    while i < |documents|
      invariant 0 <= i <= |documents|
      invariant FilterPage(documents, s, e, fetch) == Then(found, FilterPage(documents[i..], s, e, fetch))
    {
      var doc := documents[i];
      assert documents[i..][1..] == documents[i + 1..];
      ghost var rest := FilterPage(documents[i + 1..], s, e, fetch);
      if doc.createdAt.None? {
        return Err(BadTimestamp(doc.id));
      }
      var created := doc.createdAt.value;
      if !created.aware {
        return Err(NaiveTimestamp(doc.id));
      }
      if s.seconds <= created.seconds <= e.seconds {
        var transcript := fetch(doc.id);
        if transcript.Some? {
          assert FilterPage(documents[i..], s, e, fetch) == Then([doc.(transcript := transcript)], rest);
          ThenThen(found, [doc.(transcript := transcript)], rest);
          found := found + [doc.(transcript := transcript)];
        } else {
          assert FilterPage(documents[i..], s, e, fetch) == Then([], rest);
          ThenEmpty(rest);
        }
      } else {
        assert FilterPage(documents[i..], s, e, fetch) == Then([], rest);
        ThenEmpty(rest);
      }
      i := i + 1;
    }
    assert documents[|documents|..] == [];
    assert found + [] == found;
    r := Ok(found);
  }

  /** One line per utterance: `"<source>: <text>"`, with defaults `Unknown` and the empty text. */
  function Line(u: Utterance): string
  {
    (if "source" in u then u["source"] else "Unknown") + ": " + (if "text" in u then u["text"] else "")
  }

  function Lines(t: seq<Utterance>): (r: seq<string>)
    ensures |r| == |t| && forall i :: 0 <= i < |t| ==> r[i] == Line(t[i])
  {
    seq(|t|, i requires 0 <= i < |t| => Line(t[i]))
  }

  /** `format_transcript_text`. */
  function FormatTranscript(t: seq<Utterance>): string
  {
    if t == [] then "" else Join(Lines(t), "\n")
  }

  /** No field holds a line break. */
  predicate SingleLine(t: seq<Utterance>)
  {
    forall i, k :: 0 <= i < |t| && k in t[i] ==> '\n' !in t[i][k]
  }

  /**
   * The text is empty exactly for an empty transcript; otherwise cutting it at
   * line breaks gives back one `"<source>: <text>"` line per utterance, in order.
   */
  lemma FormatTranscriptLines(t: seq<Utterance>)
    requires SingleLine(t)
    ensures FormatTranscript(t) == "" <==> t == []
    ensures t != [] ==> Split(FormatTranscript(t), '\n') == Lines(t)
  {
    if t != [] {
      var ls := Lines(t);
      forall k | 0 <= k < |ls| ensures '\n' !in ls[k] {
        var u := t[k];
        assert ls[k] == (if "source" in u then u["source"] else "Unknown") + ": " + (if "text" in u then u["text"] else "");
      }
      SplitJoin(ls, '\n');
      assert |ls[0]| >= 2;
      assert |Join(ls, "\n")| >= |ls[0]|;
    }
  }

  lemma FormatTranscriptExample()
    ensures FormatTranscript([map["source" := "Alice", "text" := "Hello"], map["source" := "Bob", "text" := "Hi"]])
      == "Alice: Hello\nBob: Hi"
    ensures FormatTranscript([]) == ""
  {
    var t: seq<Utterance> := [map["source" := "Alice", "text" := "Hello"], map["source" := "Bob", "text" := "Hi"]];
    assert Line(t[0]) == "Alice: Hello";
    assert Line(t[1]) == "Bob: Hi";
    assert Lines(t) == ["Alice: Hello", "Bob: Hi"];
  }
}
