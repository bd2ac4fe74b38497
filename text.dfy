/**
 * The few Python string operations the program relies on: `sep.join`,
 * `s.split(c)`, `s.strip()`, `c * n`, `p in s`, `s.startswith(p)` and `str(n)`.
 */
module Text {

  /** `sep.join(parts)`. */
  function Join(parts: seq<string>, sep: string): string
  {
    if |parts| == 0 then ""
    else if |parts| == 1 then parts[0]
    else parts[0] + sep + Join(parts[1..], sep)
  }

  lemma {:induction false} JoinSnoc(parts: seq<string>, x: string, sep: string)
    requires parts != []
    ensures Join(parts + [x], sep) == Join(parts, sep) + sep + x
  {
    if |parts| == 1 {
      assert parts + [x] == [parts[0], x];
    } else {
      assert (parts + [x])[1..] == parts[1..] + [x];
      JoinSnoc(parts[1..], x, sep);
    }
  }

  /** Joining two non-empty lists puts one separator between their joins. */
  lemma {:induction false} JoinAppend(a: seq<string>, b: seq<string>, sep: string)
    requires a != [] && b != []
    ensures Join(a + b, sep) == Join(a, sep) + sep + Join(b, sep)
  {
    if |a| == 1 {
      assert (a + b)[1..] == b;
    } else {
      assert (a + b)[1..] == a[1..] + b;
      JoinAppend(a[1..], b, sep);
    }
  }

  /** Joining is empty only for no parts, or for one empty part. */
  lemma JoinEmpty(parts: seq<string>, sep: string)
    requires sep != []
    ensures Join(parts, sep) == [] <==> parts == [] || parts == [[]]
  {
  }

  /** The pieces appended one after another, as a `+=` loop builds them. */
  function Concat(pieces: seq<string>): string
  {
    if pieces == [] then "" else Concat(pieces[..|pieces| - 1]) + pieces[|pieces| - 1]
  }

  /** Concatenation distributes over appending the piece lists. */
  lemma {:induction false} ConcatAppend(a: seq<string>, b: seq<string>)
    ensures Concat(a + b) == Concat(a) + Concat(b)
    decreases |b|
  {
    if b == [] {
      assert a + b == a;
    } else {
      var b', last := b[..|b| - 1], b[|b| - 1];
      assert Concat(a + b) == Concat(a + b') + last by {
        assert (a + b)[..|a + b| - 1] == a + b';
      }
      ConcatAppend(a, b');
      AppendAssoc(Concat(a), Concat(b'), last);
    }
  }

  /** `c * n`. */
  function Repeat(c: char, n: nat): (r: string)
    ensures |r| == n
    ensures forall i :: 0 <= i < n ==> r[i] == c
  {
    seq(n, _ => c)
  }

  /** `s.startswith(p)`. */
  predicate StartsWith(s: string, p: string)
  {
    |p| <= |s| && s[..|p|] == p
  }

  /** `s.endswith(p)`. */
  predicate EndsWith(s: string, p: string)
  {
    |p| <= |s| && s[|s| - |p|..] == p
  }

  /** Python's `a < b` on strings: code point by code point, a proper prefix first. */
  predicate Less(a: string, b: string)
    decreases |a|
  {
    if a == [] then b != []
    else if b == [] then false
    else if a[0] != b[0] then a[0] < b[0]
    else Less(a[1..], b[1..])
  }

  lemma {:induction false} LessIrreflexive(a: string)
    ensures !Less(a, a)
  {
    if a != [] {
      LessIrreflexive(a[1..]);
    }
  }

  lemma {:induction false} LessTransitive(a: string, b: string, c: string)
    requires Less(a, b) && Less(b, c)
    ensures Less(a, c)
  {
    if a != [] && b != [] && c != [] && a[0] == b[0] == c[0] {
      LessTransitive(a[1..], b[1..], c[1..]);
    }
  }

  lemma {:induction false} LessTotal(a: string, b: string)
    requires a != b
    ensures Less(a, b) || Less(b, a)
  {
    if a != [] && b != [] && a[0] == b[0] {
      assert a == [a[0]] + a[1..] && b == [b[0]] + b[1..];
      LessTotal(a[1..], b[1..]);
    }
  }

  /** `p in s` for strings: `p` occurs somewhere in `s`. */
  predicate Contains(s: string, p: string)
    decreases |s|
  {
    StartsWith(s, p) || (|s| > 0 && Contains(s[1..], p))
  }

  lemma {:induction false} ContainsMiddle(a: string, p: string, b: string)
    ensures Contains(a + p + b, p)
  {
    if a == [] {
      assert (a + p + b)[..|p|] == p;
    } else {
      ContainsMiddle(a[1..], p, b);
      assert (a + p + b)[1..] == a[1..] + p + b;
    }
  }

  /** A part of a middle part is in the whole. */
  lemma ContainsNested(lead: string, x: string, p: string, y: string, tail: string)
    ensures Contains(lead + (x + p + y) + tail, p)
  {
    assert lead + (x + p + y) + tail == (lead + x) + p + (y + tail);
    ContainsMiddle(lead + x, p, y + tail);
  }

  /** Python's `str.isspace` for one character. */
  predicate IsSpace(c: char)
  {
    c == ' ' || ('\t' <= c <= '\r') || ('\U{1C}' <= c <= '\U{1F}')
    || c == '\U{85}' || c == '\U{A0}' || c == '\U{1680}'
    || ('\U{2000}' <= c <= '\U{200A}') || c == '\U{2028}' || c == '\U{2029}'
    || c == '\U{202F}' || c == '\U{205F}' || c == '\U{3000}'
  }

  function StripLeft(s: string): (r: string)
    ensures |r| <= |s| && r == s[|s| - |r|..]
    ensures r == [] || !IsSpace(r[0])
    ensures forall i :: 0 <= i < |s| - |r| ==> IsSpace(s[i])
  {
    if |s| > 0 && IsSpace(s[0]) then StripLeft(s[1..]) else s
  }

  function StripRight(s: string): (r: string)
    ensures |r| <= |s| && r == s[..|r|]
    ensures r == [] || !IsSpace(r[|r| - 1])
    ensures forall i :: |r| <= i < |s| ==> IsSpace(s[i])
  {
    if |s| > 0 && IsSpace(s[|s| - 1]) then StripRight(s[..|s| - 1]) else s
  }

  /** `s.strip()`: drop leading and trailing whitespace. */
  function Strip(s: string): string
  {
    StripRight(StripLeft(s))
  }

  /** A string strips to nothing exactly when every character is whitespace. */
  lemma StripEmpty(s: string)
    ensures Strip(s) == [] <==> forall i :: 0 <= i < |s| ==> IsSpace(s[i])
  {
    if Strip(s) == [] {
      // a non-empty left strip starts with a non-space, which the right strip would keep
      assert StripLeft(s) == [];
    }
  }

  /** Number of occurrences of `c` in `s`. */
  function Count(s: string, c: char): nat
  {
    if s == [] then 0 else (if s[0] == c then 1 else 0) + Count(s[1..], c)
  }

  /** `s.split(c)` for a one-character separator: always at least one piece. */
  function Split(s: string, c: char): (r: seq<string>)
    ensures |r| == Count(s, c) + 1
    ensures forall k :: 0 <= k < |r| ==> c !in r[k]
  {
    if s == [] then [[]]
    else
      var rest := Split(s[1..], c);
      if s[0] == c then [[]] + rest
      else [[s[0]] + rest[0]] + rest[1..]
  }

  /** One step of `Split`: the first character either ends the first piece or joins it. */
  lemma SplitCons(h: char, t: string, c: char)
    ensures h == c ==> Split([h] + t, c) == [[]] + Split(t, c)
    ensures h != c ==> Split([h] + t, c) == [[h] + Split(t, c)[0]] + Split(t, c)[1..]
  {
    assert ([h] + t)[1..] == t;
  }

  /** Splitting and joining again with the same separator gives back the string. */
  lemma {:induction false} JoinSplit(s: string, c: char)
    ensures Join(Split(s, c), [c]) == s
  {
    if s != [] {
      var rest := Split(s[1..], c);
      JoinSplit(s[1..], c);
      if s[0] == c {
        assert Split(s, c)[1..] == rest;
      } else if |rest| == 1 {
        assert Split(s, c) == [[s[0]] + rest[0]];
      } else {
        var r := Split(s, c);
        assert r[1..] == rest[1..];
        assert Join(rest, [c]) == rest[0] + [c] + Join(rest[1..], [c]);
      }
    }
  }

  lemma {:induction false} SplitNoSeparator(s: string, c: char)
    requires c !in s
    ensures Split(s, c) == [s]
  {
    if s != [] {
      SplitNoSeparator(s[1..], c);
      assert [s[0]] + s[1..] == s;
    }
  }

  /** Sequence concatenation is associative; stated once so callers rewrite instead of comparing elements. */
  lemma AppendAssoc<T>(a: seq<T>, b: seq<T>, d: seq<T>)
    ensures a + (b + d) == (a + b) + d
  {
  }

  /** The head and tail of `a + b` for a non-empty `a`. */
  lemma HeadOfAppend<T>(a: seq<T>, b: seq<T>)
    requires a != []
    ensures (a + b)[0] == a[0] && (a + b)[1..] == a[1..] + b
  {
  }

  /** Cutting at a separator at index `i` splits the pieces of both sides apart. */
  lemma {:induction false} SplitAt(s: string, i: nat, c: char)
    requires i < |s| && s[i] == c
    ensures Split(s, c) == Split(s[..i], c) + Split(s[i + 1..], c)
  {
    if i == 0 {
      assert s[..0] == [];
    } else {
      var left, right := Split(s[..i][1..], c), Split(s[i + 1..], c);
      assert Split(s[1..], c) == left + right by {
        SplitAt(s[1..], i - 1, c);
        assert s[1..][..i - 1] == s[..i][1..];
        assert s[1..][i..] == s[i + 1..];
      }
      assert s[..i][0] == s[0];
      if s[0] == c {
        AppendAssoc([[]], left, right);
      } else {
        HeadOfAppend(left, right);
        AppendAssoc([[s[0]] + left[0]], left[1..], right);
      }
    }
  }

  /** Cutting at a separator splits the pieces of both sides apart. */
  lemma SplitConcat(x: string, c: char, y: string)
    ensures Split(x + [c] + y, c) == Split(x, c) + Split(y, c)
  {
    var s := x + [c] + y;
    SplitAt(s, |x|, c);
    assert s[..|x|] == x && s[|x| + 1..] == y;
  }

  /** Joining pieces that do not contain the separator, then splitting, gives the pieces back. */
  lemma {:induction false} SplitJoin(parts: seq<string>, c: char)
    requires parts != []
    requires forall k :: 0 <= k < |parts| ==> c !in parts[k]
    ensures Split(Join(parts, [c]), c) == parts
  {
    if |parts| == 1 {
      SplitNoSeparator(parts[0], c);
    } else {
      SplitJoin(parts[1..], c);
      SplitConcat(parts[0], c, Join(parts[1..], [c]));
      SplitNoSeparator(parts[0], c);
      assert [parts[0]] + parts[1..] == parts;
    }
  }

  /** A leading part without the separator extends the first piece. */
  lemma {:induction false} SplitPrefix(p: string, y: string, c: char)
    requires c !in p
    ensures var r := Split(y, c); Split(p + y, c) == [p + r[0]] + r[1..]
  {
    if p != [] {
      SplitPrefix(p[1..], y, c);
      assert (p + y)[1..] == p[1..] + y;
      assert [p[0]] + (p[1..] + Split(y, c)[0]) == p + Split(y, c)[0];
    } else {
      var r := Split(y, c);
      assert [] + y == y;
      assert p + r[0] == r[0];
      assert [r[0]] + r[1..] == r;
    }
  }

  /** A character absent from a string is absent from each of its pieces. */
  lemma {:induction false} SplitKeepsOut(s: string, c: char, d: char)
    requires d !in s
    ensures forall k :: 0 <= k < |Split(s, c)| ==> d !in Split(s, c)[k]
  {
    if s != [] {
      SplitKeepsOut(s[1..], c, d);
    }
  }

  /** Stripping adds no character. */
  lemma StripKeepsOut(s: string, d: char)
    requires d !in s
    ensures d !in Strip(s)
  {
    var l := StripLeft(s);
    assert l == s[|s| - |l|..];
    assert StripRight(l) == l[..|StripRight(l)|];
  }

  /**
   * Lines around a multi-line middle part: splitting the joined text gives
   * the outer lines unchanged and the middle part's own lines between them.
   */
  lemma SplitJoinMiddle(pre: seq<string>, x: string, post: seq<string>, c: char)
    requires pre != [] && post != []
    requires forall k :: 0 <= k < |pre| ==> c !in pre[k]
    requires forall k :: 0 <= k < |post| ==> c !in post[k]
    ensures Split(Join(pre + [x] + post, [c]), c) == pre + Split(x, c) + post
  {
    var head, tail := Join(pre, [c]), Join(post, [c]);
    var mid := x + [c] + tail;
    calc {
      Split(Join(pre + [x] + post, [c]), c);
      { JoinMiddle(pre, x, post, [c]); }
      Split(head + [c] + mid, c);
      { SplitConcat(head, c, mid); }
      Split(head, c) + Split(mid, c);
      { SplitConcat(x, c, tail); }
      Split(head, c) + (Split(x, c) + Split(tail, c));
      { SplitJoin(pre, c); SplitJoin(post, c); }
      pre + (Split(x, c) + post);
    }
  }

  lemma JoinMiddle(pre: seq<string>, x: string, post: seq<string>, sep: string)
    requires pre != [] && post != []
    ensures Join(pre + [x] + post, sep) == Join(pre, sep) + sep + (x + sep + Join(post, sep))
  {
    JoinAppend(pre, [x] + post, sep);
    assert pre + [x] + post == pre + ([x] + post);
    assert ([x] + post)[1..] == post;
  }

  /** Each character replaced by a string of its own. */
  function FlatMap(f: char -> string, s: string): string
  {
    if s == [] then [] else f(s[0]) + FlatMap(f, s[1..])
  }

  /** Each line mapped on its own. */
  function FlatMapLines(f: char -> string, lines: seq<string>): (r: seq<string>)
    ensures |r| == |lines|
  {
    if lines == [] then [] else [FlatMap(f, lines[0])] + FlatMapLines(f, lines[1..])
  }

  lemma {:induction false} FlatMapLinesAt(f: char -> string, lines: seq<string>, k: nat)
    requires k < |lines|
    ensures FlatMapLines(f, lines)[k] == FlatMap(f, lines[k])
  {
    if k > 0 {
      FlatMapLinesAt(f, lines[1..], k - 1);
    }
  }

  lemma FlatMapLinesCons(f: char -> string, line: string, rest: seq<string>)
    ensures FlatMapLines(f, [line] + rest) == [FlatMap(f, line)] + FlatMapLines(f, rest)
  {
    assert ([line] + rest)[1..] == rest;
  }

  /**
   * A map that keeps the separator and never produces it from another
   * character can be applied line by line.
   */
  lemma {:induction false} FlatMapSplit(f: char -> string, s: string, c: char)
    requires f(c) == [c]
    requires forall d :: d != c ==> c !in f(d)
    ensures Split(FlatMap(f, s), c) == FlatMapLines(f, Split(s, c))
  {
    if s != [] {
      FlatMapSplit(f, s[1..], c);
      if s[0] == c {
        FlatMapSplitAtSeparator(f, s, c);
      } else {
        FlatMapSplitInLine(f, s, c);
      }
    }
  }

  lemma FlatMapSplitAtSeparator(f: char -> string, s: string, c: char)
    requires s != [] && s[0] == c && f(c) == [c]
    requires Split(FlatMap(f, s[1..]), c) == FlatMapLines(f, Split(s[1..], c))
    ensures Split(FlatMap(f, s), c) == FlatMapLines(f, Split(s, c))
  {
    var u, pieces := FlatMap(f, s[1..]), Split(s[1..], c);
    assert Split(FlatMap(f, s), c) == [[]] + Split(u, c) by {
      assert FlatMap(f, s) == [c] + u;
      SplitCons(c, u, c);
    }
    assert Split(s, c) == [[]] + pieces by {
      assert s == [c] + s[1..];
      SplitCons(c, s[1..], c);
    }
    FlatMapLinesCons(f, [], pieces);
  }

  lemma FlatMapSplitInLine(f: char -> string, s: string, c: char)
    requires s != [] && s[0] != c && c !in f(s[0])
    requires Split(FlatMap(f, s[1..]), c) == FlatMapLines(f, Split(s[1..], c))
    ensures Split(FlatMap(f, s), c) == FlatMapLines(f, Split(s, c))
  {
    var rest := Split(s[1..], c);
    var e := f(s[0]);
    var first := [s[0]] + rest[0];
    assert Split(FlatMap(f, s), c) == [e + FlatMap(f, rest[0])] + FlatMapLines(f, rest[1..]) by {
      SplitPrefix(e, FlatMap(f, s[1..]), c);
      FlatMapLinesCons(f, rest[0], rest[1..]);
      assert [rest[0]] + rest[1..] == rest;
    }
    assert Split(s, c) == [first] + rest[1..] by {
      assert s == [s[0]] + s[1..];
      SplitCons(s[0], s[1..], c);
    }
    assert FlatMap(f, first) == e + FlatMap(f, rest[0]) by {
      assert first[1..] == rest[0];
    }
    FlatMapLinesCons(f, first, rest[1..]);
  }

  function DigitChar(d: nat): char
    requires d < 10
  {
    ('0' as int + d) as char
  }

  /** The number a string of decimal digits denotes, most significant first. */
  function DigitsValue(s: string): nat
    requires forall i :: 0 <= i < |s| ==> '0' <= s[i] <= '9'
  {
    if s == [] then 0
    else DigitsValue(s[..|s| - 1]) * 10 + (s[|s| - 1] as int - '0' as int)
  }

  /**
   * `str(n)` for a natural number: its decimal digits, no leading zero, and
   * they read back as `n`.
   */
  function NatToString(n: nat): (r: string)
    ensures |r| >= 1
    ensures forall i :: 0 <= i < |r| ==> '0' <= r[i] <= '9'
    ensures |r| > 1 ==> r[0] != '0'
    ensures DigitsValue(r) == n
  {
    if n < 10 then [DigitChar(n)]
    else
      var front := NatToString(n / 10);
      var r := front + [DigitChar(n % 10)];
      assert r[..|r| - 1] == front;
      r
  }

  /** `str(n)` for any integer. */
  function IntToString(n: int): string
  {
    if n < 0 then "-" + NatToString(-n) else NatToString(n)
  }
}
