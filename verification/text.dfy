/** The handful of Python `str` operations the agents rely on, stated over
    `seq<char>`: `join`, `find`/`rfind` of one character, slicing with Python's
    index normalisation, `strip()` and `replace()` of one character. */
module Text {

  /** `t` occurs in `s` starting at offset `k`. */
  predicate OccursAt(t: string, s: string, k: int)
  {
    0 <= k && k + |t| <= |s| && s[k..k + |t|] == t
  }

  /** Python's `t in s` for strings. */
  predicate Contains(s: string, t: string)
  {
    exists k :: 0 <= k <= |s| && OccursAt(t, s, k)
  }

  /** Python's `s.endswith(t)`. */
  predicate EndsWith(s: string, t: string)
  {
    |t| <= |s| && s[|s| - |t|..] == t
  }

  lemma OccursInConcat(a: string, b: string, c: string)
    ensures OccursAt(b, a + b + c, |a|)
  {
    assert (a + b + c)[|a|..|a| + |b|] == b;
  }

  lemma EndsWithConcat(a: string, b: string)
    ensures EndsWith(a + b, b)
  {
    assert (a + b)[|a|..] == b;
  }

  // ---------------------------------------------------------------- join

  /** Total length of the pieces. */
  function SumLen(xs: seq<string>): nat
  {
    if |xs| == 0 then 0 else |xs[0]| + SumLen(xs[1..])
  }

  /** Python's `sep.join(xs)`. */
  function Join(xs: seq<string>, sep: string): string
  {
    if |xs| == 0 then ""
    else if |xs| == 1 then xs[0]
    else xs[0] + sep + Join(xs[1..], sep)
  }

  /** Where the `i`-th piece starts inside `Join(xs, sep)`: after the `i` earlier
      pieces and the `i` separators that follow them. */
  function JoinOffset(xs: seq<string>, sep: string, i: nat): nat
    requires i <= |xs|
  {
    SumLen(xs[..i]) + i * |sep|
  }

  lemma {:induction false} JoinLength(xs: seq<string>, sep: string)
    requires |xs| > 0
    ensures |Join(xs, sep)| == SumLen(xs) + (|xs| - 1) * |sep|
  {
    if |xs| > 1 {
      JoinLength(xs[1..], sep);
    }
  }

  lemma SumLenHead(xs: seq<string>, i: nat)
    requires 0 < i <= |xs|
    ensures SumLen(xs[..i]) == |xs[0]| + SumLen(xs[1..][..i - 1])
  {
    assert xs[..i][1..] == xs[1..][..i - 1];
  }

  /** The joined text holds every piece, in the given order, at the offset
      `JoinOffset` names, with the separator right after every piece but the last. */
  lemma {:induction false} JoinPlaces(xs: seq<string>, sep: string, i: nat)
    requires i < |xs|
    ensures OccursAt(xs[i], Join(xs, sep), JoinOffset(xs, sep, i))
    ensures i + 1 < |xs| ==> OccursAt(sep, Join(xs, sep), JoinOffset(xs, sep, i) + |xs[i]|)
  {
    var j := Join(xs, sep);
    if |xs| == 1 {
      assert xs[..0] == [];
    } else if i == 0 {
      assert xs[..0] == [];
      assert j == xs[0] + (sep + Join(xs[1..], sep));
      assert j[..|xs[0]|] == xs[0];
      assert j[|xs[0]|..|xs[0]| + |sep|] == sep;
    } else {
      var rest := Join(xs[1..], sep);
      var k := JoinOffset(xs[1..], sep, i - 1);
      JoinPlaces(xs[1..], sep, i - 1);
      SumLenHead(xs, i);
      assert i * |sep| == |sep| + (i - 1) * |sep|;
      assert j == (xs[0] + sep) + rest;
      OccursAfterPrefix(xs[0] + sep, rest, xs[i], k);
      if i + 1 < |xs| {
        OccursAfterPrefix(xs[0] + sep, rest, sep, k + |xs[i]|);
      }
    }
  }

  /** Text found in `s` is found again, shifted, once a prefix is put in front. */
  lemma OccursAfterPrefix(p: string, s: string, t: string, k: int)
    requires OccursAt(t, s, k)
    ensures OccursAt(t, p + s, |p| + k)
  {
    assert (p + s)[|p| + k..|p| + k + |t|] == s[k..k + |t|];
  }

  // ------------------------------------------------------- find and rfind

  /** Python's `s.find(c)`: the first index holding `c`, or -1. */
  function Find(s: string, c: char): (r: int)
    ensures -1 <= r < |s|
    ensures r == -1 <==> c !in s
    ensures r >= 0 ==> s[r] == c && forall j :: 0 <= j < r ==> s[j] != c
  {
    if |s| == 0 then -1
    else if s[0] == c then 0
    else
      var k := Find(s[1..], c);
      assert forall j :: 0 < j < |s| ==> s[j] == s[1..][j - 1];
      if k == -1 then -1 else k + 1
  }

  /** Python's `s.rfind(c)`: the last index holding `c`, or -1. */
  function RFind(s: string, c: char): (r: int)
    ensures -1 <= r < |s|
    ensures r == -1 <==> c !in s
    ensures r >= 0 ==> s[r] == c && forall j :: r < j < |s| ==> s[j] != c
  {
    if |s| == 0 then -1
    else if s[|s| - 1] == c then |s| - 1
    else
      assert forall j :: 0 <= j < |s| - 1 ==> s[j] == s[..|s| - 1][j];
      RFind(s[..|s| - 1], c)
  }

  // -------------------------------------------------------------- slicing

  /** How CPython turns one slice bound into an index of a sequence of length
      `n`: a negative bound counts from the end, and the result is clamped to
      `0..n`. */
  function SliceIndex(k: int, n: nat): (r: nat)
    ensures r <= n
    ensures 0 <= k <= n ==> r == k
    ensures k > n ==> r == n
    ensures k < 0 && k + n >= 0 ==> r == k + n
    ensures k + n < 0 ==> r == 0
  {
    if k < 0 then (if k + n < 0 then 0 else k + n)
    else if k > n then n
    else k
  }

  /** Python's `s[start:stop]` with step 1. */
  function Slice(s: string, start: int, stop: int): string
  {
    var a := SliceIndex(start, |s|);
    var b := SliceIndex(stop, |s|);
    if a < b then s[a..b] else ""
  }

  // ------------------------------------------------------------ whitespace

  /** Python's `str.isspace()` for one character: the ASCII controls 9-13 and
      28-31, the space, and the Unicode separators Python also counts. */
  predicate IsSpace(c: char)
  {
    var n := c as int;
    (9 <= n <= 13) || (28 <= n <= 32) || n == 0x85 || n == 0xA0 || n == 0x1680
    || (0x2000 <= n <= 0x200A) || n == 0x2028 || n == 0x2029 || n == 0x202F
    || n == 0x205F || n == 0x3000
  }

  /** Python's `s.lstrip()`: the suffix left after dropping leading whitespace. */
  function TrimStart(s: string): (r: string)
    ensures |r| <= |s| && r == s[|s| - |r|..]
    ensures forall i :: 0 <= i < |s| - |r| ==> IsSpace(s[i])
    ensures |r| > 0 ==> !IsSpace(r[0])
  {
    if |s| > 0 && IsSpace(s[0]) then
      var r := TrimStart(s[1..]);
      assert s[1..][|s| - 1 - |r|..] == s[|s| - |r|..];
      assert forall i :: 0 < i < |s| - |r| ==> s[i] == s[1..][i - 1];
      r
    else s
  }

  /** Python's `s.rstrip()`: the prefix left after dropping trailing whitespace. */
  function TrimEnd(s: string): (r: string)
    ensures |r| <= |s| && r == s[..|r|]
    ensures forall i :: |r| <= i < |s| ==> IsSpace(s[i])
    ensures |r| > 0 ==> !IsSpace(r[|r| - 1])
  {
    if |s| > 0 && IsSpace(s[|s| - 1]) then
      var r := TrimEnd(s[..|s| - 1]);
      assert s[..|s| - 1][..|r|] == s[..|r|];
      assert forall i :: |r| <= i < |s| - 1 ==> s[i] == s[..|s| - 1][i];
      r
    else s
  }

  /** Python's `s.strip()`. */
  function Strip(s: string): string
  {
    TrimEnd(TrimStart(s))
  }

  /** `s.strip()` is falsy exactly when every character of `s` is whitespace. */
  lemma StripEmptyIffBlank(s: string)
    ensures Strip(s) == "" <==> forall i :: 0 <= i < |s| ==> IsSpace(s[i])
  {
    var t := TrimStart(s);
    if Strip(s) == "" {
      // a non-empty lstrip result starts with a non-space, which rstrip keeps
      assert t == "";
    } else if |t| > 0 {
      assert !IsSpace(s[|s| - |t|]);
    }
  }

  // ------------------------------------------------------------- replace

  /** Python's `s.replace(from, to)` for single characters. */
  function ReplaceChar(s: string, from: char, to: char): (r: string)
    ensures |r| == |s|
    ensures forall i :: 0 <= i < |s| ==> r[i] == (if s[i] == from then to else s[i])
  {
    if |s| == 0 then ""
    else [if s[0] == from then to else s[0]] + ReplaceChar(s[1..], from, to)
  }
}
