/**
 * The feedback directory of the runner: which earlier feedback files are
 * fed back as context, and how a new feedback text is stored with a backup
 * of the one it replaces. The directory is a map from file name to content.
 */
module FeedbackHistory {
  import opened Wrappers
  import opened Text

  type Directory = map<string, string>

  /** The date renderings the runner needs: parsing `%Y%m%d` names and printing `%Y-%m-%d`. */
  datatype Calendar = Calendar(parseCompact: string -> Option<int>, formatIso: int -> string)

  const FEEDBACK_PREFIX := "feedback_"
  const FEEDBACK_SUFFIX := ".txt"
  const CURRENT_FEEDBACK := "current.txt"
  /** How many earlier feedback files are used at most. */
  const MAX_PREVIOUS := 3

  /** The name matches the glob `feedback_*.txt`. */
  predicate Matches(name: string)
  {
    StartsWith(name, FEEDBACK_PREFIX) && EndsWith(name, FEEDBACK_SUFFIX) && |name| >= |FEEDBACK_PREFIX| + |FEEDBACK_SUFFIX|
  }

  /** `f.stem.split('_')[1]`; None where indexing the pieces would fail. */
  function DatePart(name: string): Option<string>
    requires EndsWith(name, FEEDBACK_SUFFIX)
  {
    var pieces := Split(name[..|name| - |FEEDBACK_SUFFIX|], '_');
    if |pieces| >= 2 then Some(pieces[1]) else None
  }

  /** A feedback file's day, when its name carries one. */
  function FileDay(name: string, cal: Calendar): Option<int>
  {
    if Matches(name) then
      match DatePart(name)
      case Some(text) => cal.parseCompact(text)
      case None => None
    else None
  }

  /** Written one to seven days before today: today and older files are out. */
  predicate InLastWeek(day: int, today: int)
  {
    1 <= today - day <= 7
  }

  /** A candidate for the context: its day and its file name. */
  datatype Entry = Entry(day: int, name: string)

  /** `x` sorts before `y` in the newest-first order: later day, then greater name. */
  predicate Newer(x: Entry, y: Entry)
  {
    x.day > y.day || (x.day == y.day && Less(y.name, x.name))
  }

  lemma NewerTransitive(x: Entry, y: Entry, z: Entry)
    requires Newer(x, y) && Newer(y, z)
    ensures Newer(x, z)
  {
    if x.day == y.day == z.day {
      LessTransitive(z.name, y.name, x.name);
    }
  }

  lemma NewerTotal(x: Entry, y: Entry)
    requires x != y
    ensures Newer(x, y) || Newer(y, x)
  {
    if x.day == y.day {
      LessTotal(x.name, y.name);
    }
  }

  lemma NewerIrreflexive(x: Entry)
    ensures !Newer(x, x)
  {
    LessIrreflexive(x.name);
  }

  /** The files that qualify as context. */
  function Qualifying(dir: Directory, today: int, cal: Calendar): set<Entry>
  {
    set name | name in dir && FileDay(name, cal).Some? && InLastWeek(FileDay(name, cal).value, today)
      :: Entry(FileDay(name, cal).value, name)
  }

  predicate NewestFirst(s: seq<Entry>)
  {
    forall i, j :: 0 <= i < j < |s| ==> Newer(s[i], s[j])
  }

  /** Insertion into a newest-first list. */
  function Insert(x: Entry, s: seq<Entry>): (r: seq<Entry>)
    ensures multiset(r) == multiset(s) + multiset{x}
  {
    if s == [] then [x]
    else if Newer(x, s[0]) then [x] + s
    else
      assert s == [s[0]] + s[1..];
      [s[0]] + Insert(x, s[1..])
  }

  lemma {:induction false} InsertNewestFirst(x: Entry, s: seq<Entry>)
    requires NewestFirst(s) && x !in s
    ensures NewestFirst(Insert(x, s))
  {
    if s != [] && Newer(x, s[0]) {
      forall j | 0 < j < |s| ensures Newer(x, s[j]) {
        NewerTransitive(x, s[0], s[j]);
      }
    } else if s != [] {
      var tail := s[1..];
      assert NewestFirst(tail);
      InsertNewestFirst(x, tail);
      var r := Insert(x, s);
      var t := Insert(x, tail);
      assert r == [s[0]] + t;
      NewerTotal(x, s[0]);
      forall j | 0 < j < |r|
        ensures Newer(s[0], r[j])
      {
        assert r[j] in multiset(t);
        if r[j] != x {
          assert r[j] in multiset(tail);
          var k :| 0 <= k < |tail| && tail[k] == r[j];
          assert s[k + 1] == r[j];
        }
      }
    }
  }

  /** `list.sort(reverse=True)` on entries with distinct names. */
  function SortNewestFirst(s: seq<Entry>): (r: seq<Entry>)
    ensures multiset(r) == multiset(s)
  {
    if s == [] then []
    else
      assert s == [s[0]] + s[1..];
      Insert(s[0], SortNewestFirst(s[1..]))
  }

  predicate DistinctNames(s: seq<Entry>)
  {
    forall i, j :: 0 <= i < j < |s| ==> s[i].name != s[j].name
  }

  lemma {:induction false} SortIsNewestFirst(s: seq<Entry>)
    requires DistinctNames(s)
    ensures NewestFirst(SortNewestFirst(s))
  {
    if s != [] {
      SortIsNewestFirst(s[1..]);
      var sorted := SortNewestFirst(s[1..]);
      forall k | 0 <= k < |s| - 1 ensures s[1..][k] != s[0] {
        assert s[k + 1].name != s[0].name;
      }
      assert s[0] !in multiset(s[1..]);
      InsertNewestFirst(s[0], sorted);
    }
  }

  lemma {:induction false} DistinctCount(s: seq<Entry>)
    requires DistinctNames(s)
    ensures |set i | 0 <= i < |s| :: s[i]| == |s|
  {
    if s != [] {
      var tail := s[1..];
      assert DistinctNames(tail);
      DistinctCount(tail);
      var all := set i | 0 <= i < |s| :: s[i];
      var rest := set i | 0 <= i < |tail| :: tail[i];
      assert all == {s[0]} + rest by {
        forall x | x in all ensures x in {s[0]} + rest {
          var i :| 0 <= i < |s| && s[i] == x;
          if i > 0 { assert tail[i - 1] == x; }
        }
      }
      assert s[0] !in rest by {
        forall i | 0 <= i < |tail| ensures tail[i] != s[0] {
          assert s[i + 1].name != s[0].name;
        }
      }
    }
  }

  /**
   * `used` is what the source takes: the newest first, at most three, all of
   * them qualifying, and none newer left out.
   */
  predicate Top(q: set<Entry>, used: seq<Entry>)
  {
    && NewestFirst(used)
    && |used| == (if |q| < MAX_PREVIOUS then |q| else MAX_PREVIOUS)
    && (forall i :: 0 <= i < |used| ==> used[i] in q)
    && (forall e, i :: e in q && e !in used && 0 <= i < |used| ==> Newer(used[i], e))
  }

  /** The selection does not depend on the order the directory lists its files in. */
  lemma TopUnique(q: set<Entry>, a: seq<Entry>, b: seq<Entry>)
    requires Top(q, a) && Top(q, b)
    ensures a == b
  {
    forall i | 0 <= i < |a|
      ensures a[i] == b[i]
    {
      TopAgreesAt(q, a, b, i);
    }
  }

  lemma {:induction false} TopAgreesAt(q: set<Entry>, a: seq<Entry>, b: seq<Entry>, i: nat)
    requires Top(q, a) && Top(q, b) && i < |a|
    ensures a[i] == b[i]
    decreases i
  {
    forall j | 0 <= j < i ensures a[j] == b[j] {
      TopAgreesAt(q, a, b, j);
    }
    if a[i] != b[i] {
      assert Newer(b[i], a[i]) by { BeforeInOther(q, a, b, i); }
      assert Newer(a[i], b[i]) by { BeforeInOther(q, b, a, i); }
      NewerTransitive(a[i], b[i], a[i]);
      NewerIrreflexive(a[i]);
    }
  }

  /** If the first `i` entries agree and the `i`th differ, `b`'s `i`th is newer than `a`'s. */
  lemma BeforeInOther(q: set<Entry>, a: seq<Entry>, b: seq<Entry>, i: nat)
    requires Top(q, a) && Top(q, b) && i < |a| && |a| == |b|
    requires forall j :: 0 <= j < i ==> a[j] == b[j]
    requires a[i] != b[i]
    ensures Newer(b[i], a[i])
  {
    if a[i] in b {
      var k :| 0 <= k < |b| && b[k] == a[i];
      if k < i {
        assert a[k] == a[i];
        NewerIrreflexive(a[i]);
        assert false;
      }
      assert k > i;
    }
  }

  /** `"[YYYY-MM-DD]\n" + content` for one file. */
  function Piece(dir: Directory, e: Entry, cal: Calendar): string
    requires e.name in dir
  {
    "[" + cal.formatIso(e.day) + "]\n" + dir[e.name]
  }

  /** The pieces joined by blank lines. */
  function Combine(dir: Directory, used: seq<Entry>, cal: Calendar): (r: string)
    requires forall i :: 0 <= i < |used| ==> used[i].name in dir
    ensures used != [] ==> r != ""
  {
    var pieces := seq(|used|, i requires 0 <= i < |used| => Piece(dir, used[i], cal));
    JoinNonEmpty(pieces, "\n\n");
    Join(pieces, "\n\n")
  }

  lemma JoinNonEmpty(parts: seq<string>, sep: string)
    ensures parts != [] && parts[0] != "" ==> Join(parts, sep) != ""
  {
    if parts != [] && parts[0] != "" && |parts| > 1 {
      assert |Join(parts, sep)| >= |parts[0]|;
    }
  }

  /** There is context exactly when some file qualifies. */
  lemma NoneIffNothingQualifies(q: set<Entry>, used: seq<Entry>)
    requires Top(q, used)
    ensures used == [] <==> q == {}
  {
  }

  /** Every file used was written one to seven days before today, and no more than three are used. */
  lemma UsedWithinWeek(dir: Directory, today: int, cal: Calendar, used: seq<Entry>)
    requires Top(Qualifying(dir, today, cal), used)
    ensures |used| <= MAX_PREVIOUS
    ensures forall i :: 0 <= i < |used| ==> used[i].name in dir && InLastWeek(used[i].day, today)
    ensures forall i :: 0 <= i < |used| ==> FileDay(used[i].name, cal) == Some(used[i].day)
  {
  }

  /** The name `_save_feedback` gives today's file. */
  function DatedName(compactDate: string): string
  {
    FEEDBACK_PREFIX + compactDate + FEEDBACK_SUFFIX
  }

  /** The name the replaced file is moved to. */
  function BackupName(compactDate: string, hms: string): string
  {
    FEEDBACK_PREFIX + compactDate + "_backup_" + hms + FEEDBACK_SUFFIX
  }

  /** The second `_`-separated piece of `head_date` and of `head_date_rest` is `date`. */
  lemma SecondPiece(head: string, date: string, rest: string)
    requires '_' !in head && '_' !in date
    ensures |Split(head + "_" + date, '_')| >= 2 && Split(head + "_" + date, '_')[1] == date
    ensures |Split(head + "_" + date + "_" + rest, '_')| >= 2 && Split(head + "_" + date + "_" + rest, '_')[1] == date
  {
    SplitNoSeparator(head, '_');
    SplitNoSeparator(date, '_');
    SplitConcat(head, '_', date);
    SplitConcat(date, '_', rest);
    assert head + "_" + date + "_" + rest == head + "_" + (date + "_" + rest);
    SplitConcat(head, '_', date + "_" + rest);
  }

  /** A backup counts under the day of the file it replaced, as the dated file does. */
  lemma BackupKeepsDate(compactDate: string, hms: string)
    requires '_' !in compactDate
    ensures EndsWith(DatedName(compactDate), FEEDBACK_SUFFIX) && DatePart(DatedName(compactDate)) == Some(compactDate)
    ensures EndsWith(BackupName(compactDate, hms), FEEDBACK_SUFFIX)
      && DatePart(BackupName(compactDate, hms)) == Some(compactDate)
  {
    var dated := DatedName(compactDate);
    var backup := BackupName(compactDate, hms);
    assert '_' !in "feedback" by {
      forall i | 0 <= i < 8 ensures "feedback"[i] != '_' {}
    }
    SecondPiece("feedback", compactDate, "backup_" + hms);
    assert dated[|dated| - 4..] == FEEDBACK_SUFFIX;
    assert dated[..|dated| - 4] == "feedback" + "_" + compactDate;
    assert backup[|backup| - 4..] == FEEDBACK_SUFFIX;
    assert backup[..|backup| - 4] == "feedback" + "_" + compactDate + "_" + ("backup_" + hms);
  }

  /** `_save_feedback`: back up today's file if there is one, then write it and `current.txt`. */
  function Saved(dir: Directory, text: string, compactDate: string, hms: string): Directory
  {
    var dated := DatedName(compactDate);
    var moved := if dated in dir then (dir - {dated})[BackupName(compactDate, hms) := dir[dated]] else dir;
    moved[dated := text][CURRENT_FEEDBACK := text]
  }

  /**
   * After saving, today's file and `current.txt` hold the new text, the text
   * it replaced is under the backup name, and every other file is untouched.
   */
  lemma SavedVersions(dir: Directory, text: string, compactDate: string, hms: string)
    ensures var after := Saved(dir, text, compactDate, hms);
      var dated, backup := DatedName(compactDate), BackupName(compactDate, hms);
      && after[dated] == text && after[CURRENT_FEEDBACK] == text
      && (dated in dir ==> backup in after && after[backup] == dir[dated])
      && (forall n :: n in dir && n != dated && n != backup && n != CURRENT_FEEDBACK ==> n in after && after[n] == dir[n])
      && after.Keys == dir.Keys + {dated, CURRENT_FEEDBACK} + (if dated in dir then {backup} else {})
  {
    var dated, backup := DatedName(compactDate), BackupName(compactDate, hms);
    assert dated != CURRENT_FEEDBACK by { assert dated[0] != CURRENT_FEEDBACK[0]; }
    assert backup != CURRENT_FEEDBACK by { assert backup[0] != CURRENT_FEEDBACK[0]; }
    assert backup != dated by { assert |backup| > |dated|; }
  }
}
