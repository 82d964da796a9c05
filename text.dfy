/** String operations of the JavaScript runtime that the services rely on:
    `trim`, `\s`, global literal replacement, `includes`, `split`,
    `join`, ASCII lower-casing, decimal rendering of integers and UTF-16
    lengths. Strings are sequences of Unicode scalar values. */
module Text {

  import opened Outcomes

  /** What JavaScript's `\s` matches and what `String.prototype.trim`
      removes: the WhiteSpace and LineTerminator code points. */
  predicate IsSpace(c: char) {
    ('\t' <= c <= '\r') || c == ' ' || c == '\U{A0}' || c == '\U{1680}'
    || ('\U{2000}' <= c <= '\U{200A}') || c == '\U{2028}' || c == '\U{2029}'
    || c == '\U{202F}' || c == '\U{205F}' || c == '\U{3000}' || c == '\U{FEFF}'
  }

  predicate AllSpace(s: string) {
    forall i :: 0 <= i < |s| ==> IsSpace(s[i])
  }

  /** Removes leading white space: what is left is a suffix of `s`, what
      was dropped is all white space, and the rest starts with a non-space. */
  function TrimStart(s: string): (r: string)
    ensures |r| <= |s| && r == s[|s| - |r|..]
    ensures AllSpace(s[..|s| - |r|])
    ensures r == [] || !IsSpace(r[0])
  {
    if |s| > 0 && IsSpace(s[0]) then
      var r := TrimStart(s[1..]);
      assert s[..|s| - |r|] == [s[0]] + s[1..][..|s| - 1 - |r|];
      r
    else s
  }

  /** Removes trailing white space: a prefix of `s` followed only by white
      space, ending in a non-space. */
  function TrimEnd(s: string): (r: string)
    ensures |r| <= |s| && r == s[..|r|]
    ensures AllSpace(s[|r|..])
    ensures r == [] || !IsSpace(r[|r| - 1])
  {
    if |s| > 0 && IsSpace(s[|s| - 1]) then
      var front := s[..|s| - 1];
      var r := TrimEnd(front);
      assert s[|r|..] == front[|r|..] + [s[|s| - 1]];
      r
    else s
  }

  /** `s.trim()`. */
  function Trim(s: string): (r: string)
    ensures |r| <= |s|
    ensures r == [] || (!IsSpace(r[0]) && !IsSpace(r[|r| - 1]))
  {
    TrimEnd(TrimStart(s))
  }

  lemma {:induction false} TrimStartSkipsSpace(a: string, p: string)
    requires AllSpace(a)
    ensures TrimStart(a + p) == TrimStart(p)
  {
    if a == [] {
      assert a + p == p;
    } else {
      assert (a + p)[1..] == a[1..] + p;
      TrimStartSkipsSpace(a[1..], p);
    }
  }

  lemma {:induction false} TrimEndSkipsSpace(p: string, b: string)
    requires AllSpace(b)
    ensures TrimEnd(p + b) == TrimEnd(p)
  {
    if b == [] {
      assert p + b == p;
    } else {
      assert (p + b)[..|p + b| - 1] == p + b[..|b| - 1];
      TrimEndSkipsSpace(p, b[..|b| - 1]);
    }
  }

  /** Surrounding white space does not change the result of `trim`. */
  lemma {:induction false} TrimSurroundingSpace(a: string, p: string, b: string)
    requires AllSpace(a) && AllSpace(b)
    ensures Trim(a + p + b) == Trim(p)
  {
    ConcatAssoc(a, p, b);
    TrimStartSkipsSpace(a, p + b);
    TrimTrailingSpace(p, b);
  }

  lemma {:induction false} TrimTrailingSpace(p: string, b: string)
    requires AllSpace(b)
    ensures TrimEnd(TrimStart(p + b)) == TrimEnd(TrimStart(p))
  {
    if p == [] {
      assert p + b == b;
      TrimStartAllSpace(b);
    } else if IsSpace(p[0]) {
      assert (p + b)[1..] == p[1..] + b;
      TrimTrailingSpace(p[1..], b);
    } else {
      assert (p + b)[0] == p[0];
      TrimEndSkipsSpace(p, b);
    }
  }

  lemma {:induction false} TrimStartAllSpace(b: string)
    requires AllSpace(b)
    ensures TrimStart(b) == []
  {
    if b != [] {
      TrimStartAllSpace(b[1..]);
    }
  }

  /** `trim` is idempotent. */
  lemma {:induction false} TrimIdempotent(s: string)
    ensures Trim(Trim(s)) == Trim(s)
  {
    var t := Trim(s);
    assert TrimStart(t) == t;
    assert TrimEnd(t) == t;
  }

  lemma ConcatAssoc<T>(a: seq<T>, b: seq<T>, c: seq<T>)
    ensures a + b + c == a + (b + c)
  {
  }

  /** `s.replace(/pat/g, '')` for a regular expression that is a literal
      string: matches are found left to right and do not overlap. */
  function RemoveAll(s: string, pat: string): (r: string)
    requires |pat| > 0
    ensures |r| <= |s|
    decreases |s|
  {
    if |s| == 0 then []
    else if pat <= s then RemoveAll(s[|pat|..], pat)
    else [s[0]] + RemoveAll(s[1..], pat)
  }

  /** A prefix that does not contain the first character of the pattern
      passes through unchanged. */
  lemma {:induction false} RemoveAllKeepsPrefix(a: string, b: string, pat: string)
    requires |pat| > 0 && pat[0] !in a
    ensures RemoveAll(a + b, pat) == a + RemoveAll(b, pat)
  {
    if a == [] {
      assert a + b == b;
    } else {
      var s := a + b;
      assert s[0] == a[0] != pat[0];
      assert !(pat <= s);
      assert RemoveAll(s, pat) == [s[0]] + RemoveAll(s[1..], pat);
      assert s[1..] == a[1..] + b;
      RemoveAllKeepsPrefix(a[1..], b, pat);
    }
  }

  lemma {:induction false} RemoveAllWithoutFirstChar(s: string, pat: string)
    requires |pat| > 0 && pat[0] !in s
    ensures RemoveAll(s, pat) == s
  {
    RemoveAllKeepsPrefix(s, [], pat);
    assert s + [] == s;
  }

  /** `s.includes(sub)`. */
  predicate Contains(s: string, sub: string)
    decreases |s|
  {
    sub <= s || (|s| > 0 && Contains(s[1..], sub))
  }

  lemma {:induction false} ContainsMiddle(a: string, sub: string, c: string)
    ensures Contains(a + sub + c, sub)
  {
    if a == [] {
      assert a + sub + c == sub + c;
    } else {
      assert (a + sub + c)[1..] == a[1..] + sub + c;
      ContainsMiddle(a[1..], sub, c);
    }
  }

  lemma {:induction false} ContainsExtendLeft(a: string, s: string, sub: string)
    requires Contains(s, sub)
    ensures Contains(a + s, sub)
  {
    if a == [] {
      assert a + s == s;
    } else {
      assert (a + s)[1..] == a[1..] + s;
      ContainsExtendLeft(a[1..], s, sub);
    }
  }

  lemma {:induction false} ContainsExtendRight(s: string, c: string, sub: string)
    requires Contains(s, sub)
    ensures Contains(s + c, sub)
    decreases |s|
  {
    if sub <= s {
      assert sub <= s + c;
    } else {
      assert (s + c)[1..] == s[1..] + c;
      ContainsExtendRight(s[1..], c, sub);
    }
  }

  /** The occurrence of `sub` inside `s` survives any text around `s`. */
  lemma {:induction false} ContainsExtend(a: string, s: string, c: string, sub: string)
    requires Contains(s, sub)
    ensures Contains(a + s + c, sub)
  {
    ContainsExtendRight(s, c, sub);
    ContainsExtendLeft(a, s + c, sub);
    assert a + (s + c) == a + s + c;
  }

  lemma {:induction false} ContainsTransitive(x: string, y: string, z: string)
    requires Contains(x, y) && Contains(y, z)
    ensures Contains(x, z)
    decreases |x|
  {
    if y <= x {
      assert x == y + x[|y|..];
      ContainsExtendRight(y, x[|y|..], z);
    } else {
      ContainsTransitive(x[1..], y, z);
    }
  }

  /** What occurs in the trimmed text occurs in the text. */
  lemma {:induction false} TrimKeepsContained(s: string, sub: string)
    requires Contains(Trim(s), sub)
    ensures Contains(s, sub)
  {
    var a := TrimStart(s);
    var b := TrimEnd(a);
    SliceParts(a, |b|);
    ContainsExtendRight(b, a[|b|..], sub);
    SliceParts(s, |s| - |a|);
    ContainsExtendLeft(s[..|s| - |a|], a, sub);
  }

  lemma SliceParts<T>(s: seq<T>, k: nat)
    requires k <= |s|
    ensures s == s[..k] + s[k..]
  {
  }

  /** Position of the first occurrence of `sub` in `s`. */
  function IndexOf(s: string, sub: string): (r: Option<nat>)
    requires |sub| > 0
    ensures r.Some? ==> r.value + |sub| <= |s| && s[r.value..r.value + |sub|] == sub
    ensures r.Some? ==> forall i :: 0 <= i < r.value ==> !(sub <= s[i..])
    ensures r.None? ==> forall i :: 0 <= i <= |s| ==> !(sub <= s[i..])
    decreases |s|
  {
    if sub <= s then Some(0)
    else if |s| == 0 then None
    else
      var r := IndexOf(s[1..], sub);
      assert forall i :: 1 <= i <= |s| ==> s[i..] == s[1..][i - 1..];
      if r.None? then None else Some(r.value + 1)
  }

  /** `s.split(sep)` for a non-empty literal separator. */
  function SplitOn(s: string, sep: string): (r: seq<string>)
    requires |sep| > 0
    ensures |r| > 0
    decreases |s|
  {
    match IndexOf(s, sep)
    case None => [s]
    case Some(i) => [s[..i]] + SplitOn(s[i + |sep|..], sep)
  }

  /** `pieces.join(sep)`. */
  function Join(pieces: seq<string>, sep: string): string {
    if |pieces| == 0 then ""
    else if |pieces| == 1 then pieces[0]
    else Join(pieces[..|pieces| - 1], sep) + sep + pieces[|pieces| - 1]
  }

  /** Splitting and joining again with the same separator gives back the text. */
  lemma {:induction false} JoinSplitOn(s: string, sep: string)
    requires |sep| > 0
    ensures JoinFront(SplitOn(s, sep), sep) == s
    decreases |s|
  {
    var found := IndexOf(s, sep);
    if found.Some? {
      var i := found.value;
      var rest := s[i + |sep|..];
      var pieces := SplitOn(rest, sep);
      assert SplitOn(s, sep) == [s[..i]] + pieces;
      assert JoinFront([s[..i]] + pieces, sep) == s[..i] + sep + JoinFront(pieces, sep) by {
        assert ([s[..i]] + pieces)[1..] == pieces;
      }
      JoinSplitOn(rest, sep);
      assert s == s[..i] + s[i..i + |sep|] + rest;
    }
  }

  /** Join, unfolded from the front. */
  function JoinFront(pieces: seq<string>, sep: string): string
    requires |pieces| > 0
  {
    if |pieces| == 1 then pieces[0] else pieces[0] + sep + JoinFront(pieces[1..], sep)
  }

  /** Every piece of a `join` occurs in the joined text. */
  lemma {:induction false} JoinContainsPiece(pieces: seq<string>, sep: string, k: nat)
    requires k < |pieces|
    ensures Contains(Join(pieces, sep), pieces[k])
  {
    var n := |pieces|;
    if n > 1 {
      var front := Join(pieces[..n - 1], sep);
      if k == n - 1 {
        ContainsExtendLeft(front + sep, pieces[k], pieces[k]);
      } else {
        JoinContainsPiece(pieces[..n - 1], sep, k);
        ContainsExtendRight(front, sep + pieces[n - 1], pieces[k]);
        ConcatAssoc(front, sep, pieces[n - 1]);
      }
    }
  }

  /** `s.split(/\n+/)`: the pieces between runs of line feeds. */
  function SplitLines(s: string): (r: seq<string>)
    ensures |r| > 0
    decreases |s|
  {
    if '\n' !in s then [s] else [s[..FirstLineFeed(s)]] + SplitLines(AfterFirstRun(s))
  }

  /** What follows the first run of line feeds. */
  function AfterFirstRun(s: string): (t: string)
    requires '\n' in s
    ensures |t| < |s|
  {
    var i := FirstLineFeed(s);
    s[i + LineFeedRun(s[i..])..]
  }

  /** No piece holds a line feed. */
  lemma {:induction false} SplitLinesHaveNoLineFeed(s: string)
    ensures forall k :: 0 <= k < |SplitLines(s)| ==> '\n' !in SplitLines(s)[k]
    decreases |s|
  {
    if '\n' in s {
      SplitLinesHaveNoLineFeed(AfterFirstRun(s));
    }
  }

  function FirstLineFeed(s: string): (i: nat)
    requires '\n' in s
    ensures i < |s| && s[i] == '\n' && '\n' !in s[..i]
  {
    if s[0] == '\n' then 0 else FirstLineFeed(s[1..]) + 1
  }

  /** Length of the run of line feeds at the start of `s`. */
  function LineFeedRun(s: string): (n: nat)
    ensures n <= |s|
    ensures forall j :: 0 <= j < n ==> s[j] == '\n'
    ensures n == |s| || s[n] != '\n'
  {
    if |s| > 0 && s[0] == '\n' then 1 + LineFeedRun(s[1..]) else 0
  }

  /** `s` with every occurrence of `c` deleted. */
  function Without(s: string, c: char): string {
    if s == [] then [] else (if s[0] == c then [] else [s[0]]) + Without(s[1..], c)
  }

  lemma {:induction false} WithoutAppend(a: string, b: string, c: char)
    ensures Without(a + b, c) == Without(a, c) + Without(b, c)
  {
    if a == [] {
      assert a + b == b;
    } else {
      assert (a + b)[1..] == a[1..] + b;
      WithoutAppend(a[1..], b, c);
    }
  }

  lemma {:induction false} WithoutAbsent(s: string, c: char)
    requires c !in s
    ensures Without(s, c) == s
  {
    if s != [] {
      WithoutAbsent(s[1..], c);
    }
  }

  function Concat(pieces: seq<string>): string {
    if pieces == [] then "" else pieces[0] + Concat(pieces[1..])
  }

  /** Splitting on runs of line feeds loses exactly the line feeds. */
  lemma {:induction false} SplitLinesLosesOnlyLineFeeds(s: string)
    ensures Concat(SplitLines(s)) == Without(s, '\n')
    decreases |s|
  {
    if '\n' !in s {
      WithoutAbsent(s, '\n');
    } else {
      var i := FirstLineFeed(s);
      var n := LineFeedRun(s[i..]);
      var rest := s[i + n..];
      assert rest == AfterFirstRun(s);
      ConcatCons(s[..i], SplitLines(rest));
      SplitLinesLosesOnlyLineFeeds(rest);
      WithoutAroundRun(s, i, n);
    }
  }

  lemma ConcatCons(head: string, pieces: seq<string>)
    ensures Concat([head] + pieces) == head + Concat(pieces)
  {
    assert ([head] + pieces)[1..] == pieces;
  }

  lemma {:induction false} WithoutAroundRun(s: string, i: nat, n: nat)
    requires i + n <= |s| && '\n' !in s[..i]
    requires forall j :: i <= j < i + n ==> s[j] == '\n'
    ensures Without(s, '\n') == s[..i] + Without(s[i + n..], '\n')
  {
    var run := s[i..i + n];
    assert s == s[..i] + (run + s[i + n..]);
    WithoutLineFeedRun(s[..i], run, s[i + n..]);
  }

  lemma {:induction false} WithoutLineFeedRun(head: string, run: string, rest: string)
    requires '\n' !in head
    requires forall j :: 0 <= j < |run| ==> run[j] == '\n'
    ensures Without(head + (run + rest), '\n') == head + Without(rest, '\n')
  {
    WithoutLeadingRun(run, rest, '\n');
    WithoutAbsent(head, '\n');
    WithoutAppend(head, run + rest, '\n');
  }

  lemma {:induction false} WithoutLeadingRun(run: string, rest: string, c: char)
    requires forall j :: 0 <= j < |run| ==> run[j] == c
    ensures Without(run + rest, c) == Without(rest, c)
  {
    WithoutOnly(run, c);
    WithoutAppend(run, rest, c);
  }

  lemma {:induction false} WithoutOnly(s: string, c: char)
    requires forall i :: 0 <= i < |s| ==> s[i] == c
    ensures Without(s, c) == []
  {
    if s != [] {
      WithoutOnly(s[1..], c);
    }
  }

  /** `s.toLowerCase()` on ASCII letters. */
  function AsciiLower(s: string): (r: string)
    ensures |r| == |s|
  {
    seq(|s|, i requires 0 <= i < |s| => if 'A' <= s[i] <= 'Z' then (s[i] as int + 32) as char else s[i])
  }

  /** `String(n)` for a non-negative integer. */
  function NatToString(n: nat): (r: string)
    ensures |r| > 0
  {
    if n < 10 then [Digit(n)] else NatToString(n / 10) + [Digit(n % 10)]
  }

  function Digit(d: nat): (c: char)
    requires d < 10
    ensures '0' <= c <= '9'
  {
    ('0' as int + d) as char
  }

  predicate AllDigits(s: string) {
    forall i :: 0 <= i < |s| ==> '0' <= s[i] <= '9'
  }

  /** Reads a string of decimal digits back as a number. */
  function DecimalValue(s: string): nat
    requires AllDigits(s)
  {
    if s == [] then 0 else DecimalValue(s[..|s| - 1]) * 10 + (s[|s| - 1] as int - '0' as int)
  }

  /** The decimal rendering of a number is all digits and reads back as
      that number. */
  lemma {:induction false} NatToStringRoundTrip(n: nat)
    ensures AllDigits(NatToString(n)) && DecimalValue(NatToString(n)) == n
  {
    if n >= 10 {
      var s := NatToString(n);
      NatToStringRoundTrip(n / 10);
      assert s == NatToString(n / 10) + [Digit(n % 10)];
      assert s[..|s| - 1] == NatToString(n / 10);
    }
  }

  /** `s.length`: the number of UTF-16 code units. */
  function Utf16Length(s: string): (n: nat)
    ensures |s| <= n <= 2 * |s|
  {
    if s == [] then 0 else Utf16Length(s[..|s| - 1]) + (if s[|s| - 1] as int > 0xFFFF then 2 else 1)
  }

  /** `s.substring(0, n)` where `n` counts UTF-16 code units: the longest
      prefix of `s` that fits in `n` units, so one character more would not
      fit; a supplementary character cut in half is dropped. */
  function Utf16Prefix(s: string, n: nat): (r: string)
    ensures r <= s && Utf16Length(r) <= n
    ensures Utf16Length(s) <= n ==> r == s
    ensures |r| < |s| ==> Utf16Length(s[..|r| + 1]) > n
    ensures Utf16Length(s) > n ==> Utf16Length(r) + 1 >= n
    decreases |s|
  {
    if Utf16Length(s) <= n then s
    else
      var front := s[..|s| - 1];
      var r := Utf16Prefix(front, n);
      assert |r| < |front| ==> s[..|r| + 1] == front[..|r| + 1];
      assert |r| == |front| ==> s[..|r| + 1] == s;
      r
  }

}
