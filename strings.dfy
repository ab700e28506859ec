/**
 * The parts of Python's `str` type that the modelled code relies on: whitespace
 * (`isspace`, `strip`), padding (`ljust`, `rjust`, `center`), repetition
 * (`c * n`), slicing with Python's clamping rules, `str(int)`, `"sep".join`,
 * `splitlines`, `upper` and `startswith`/`endswith`.
 * A Python `str` is a sequence of code points, so it is a Dafny `string`.
 */
module Strings {

  // ---------------------------------------------------------------- whitespace

  /** `c.isspace()`: the code points Python classes as whitespace (also `\s` in `re`). */
  predicate IsSpace(c: char) {
    var n := c as int;
    (0x09 <= n <= 0x0D) || (0x1C <= n <= 0x20) || n == 0x85 || n == 0xA0 || n == 0x1680
    || (0x2000 <= n <= 0x200A) || n == 0x2028 || n == 0x2029 || n == 0x202F
    || n == 0x205F || n == 0x3000
  }

  /** Every character of `s` is whitespace (true of the empty string). */
  predicate IsBlank(s: string) {
    forall i :: 0 <= i < |s| ==> IsSpace(s[i])
  }

  /** `s.lstrip()` */
  function StripStart(s: string): (r: string)
    ensures |r| <= |s| && r == s[|s| - |r|..]
    ensures IsBlank(s[..|s| - |r|])
    ensures r == [] || !IsSpace(r[0])
  {
    if |s| > 0 && IsSpace(s[0]) then StripStart(s[1..]) else s
  }

  /** `s.rstrip()` */
  function StripEnd(s: string): (r: string)
    ensures |r| <= |s| && r == s[..|r|]
    ensures IsBlank(s[|r|..])
    ensures r == [] || !IsSpace(r[|r| - 1])
  {
    if |s| > 0 && IsSpace(s[|s| - 1]) then StripEnd(s[..|s| - 1]) else s
  }

  /** `s.strip()` */
  function Strip(s: string): string {
    StripEnd(StripStart(s))
  }

  /** `not s.strip()` holds exactly of the blank strings. */
  lemma StripEmptyIffBlank(s: string)
    ensures Strip(s) == [] <==> IsBlank(s)
  {
    var a := StripStart(s);
    if Strip(s) == [] {
      assert a[0..] == a;
      assert a == [];
      forall i | 0 <= i < |s| ensures IsSpace(s[i]) {
        assert s[i] == s[..|s| - |a|][i];
      }
    }
  }

  // ---------------------------------------------------------------- building

  /** `c * n`: empty for n <= 0. */
  function Repeat(c: char, n: int): (r: string)
    ensures |r| == if n <= 0 then 0 else n
    ensures forall i :: 0 <= i < |r| ==> r[i] == c
    decreases n
  {
    if n <= 0 then "" else Repeat(c, n - 1) + [c]
  }

  /** `s.ljust(w)` */
  function LJust(s: string, w: int): (r: string)
    ensures |r| == if |s| >= w then |s| else w
  {
    if |s| >= w then s else s + Repeat(' ', w - |s|)
  }

  /** `s.ljust(w)` is `s` followed by spaces only. */
  lemma LJustParts(s: string, w: int)
    ensures LJust(s, w)[..|s|] == s
    ensures forall i :: |s| <= i < |LJust(s, w)| ==> LJust(s, w)[i] == ' '
  {
    if |s| < w {
      var pad := Repeat(' ', w - |s|);
      forall i | |s| <= i < |LJust(s, w)|
        ensures LJust(s, w)[i] == ' '
      {
        assert LJust(s, w)[i] == pad[i - |s|];
      }
    }
  }

  /** `s.ljust(n)[:n]`: `s` cut or padded with spaces to exactly `n` characters. */
  function LJustCut(s: string, n: nat): (r: string)
    ensures |r| == n
  {
    if |s| >= n then s[..n] else s + Repeat(' ', n - |s|)
  }

  /** `LJustCut` keeps what of `s` fits and pads the rest with spaces. */
  lemma LJustCutParts(s: string, n: nat)
    ensures var k := if |s| < n then |s| else n;
      && LJustCut(s, n)[..k] == s[..k]
      && forall j :: k <= j < n ==> LJustCut(s, n)[j] == ' '
  {
    if |s| < n {
      var r := LJustCut(s, n);
      forall j | |s| <= j < n
        ensures r[j] == ' '
      {
        assert r[j] == Repeat(' ', n - |s|)[j - |s|];
      }
    }
  }

  /** `LJustCut` is the padding followed by the cut. */
  lemma LJustCutIsTakeLJust(s: string, n: nat)
    ensures LJustCut(s, n) == Take(LJust(s, n), n)
  {
  }

  /** `s.rjust(w)` */
  function RJust(s: string, w: int): (r: string)
    ensures |r| == if |s| >= w then |s| else w
  {
    if |s| >= w then s else Repeat(' ', w - |s|) + s
  }

  /** `s.rjust(w)` is spaces only, followed by `s`. */
  lemma RJustParts(s: string, w: int)
    ensures var r := RJust(s, w); r[|r| - |s|..] == s
    ensures forall i :: 0 <= i < |RJust(s, w)| - |s| ==> RJust(s, w)[i] == ' '
  {
  }

  /**
   * `s.center(w)` as CPython computes it: the left margin is half the free
   * space, plus one when both the free space and `w` are odd.
   */
  function Center(s: string, w: int): (r: string)
    ensures |r| == if |s| >= w then |s| else w
  {
    if |s| >= w then s
    else
      var marg := w - |s|;
      var left := marg / 2 + (if marg % 2 == 1 && w % 2 == 1 then 1 else 0);
      Repeat(' ', left) + s + Repeat(' ', marg - left)
  }

  /** `s[:k]` (of a string or a list) with Python's treatment of a negative or too large bound. */
  function Take<T>(s: seq<T>, k: int): (r: seq<T>)
    ensures k >= 0 ==> |r| == if k < |s| then k else |s|
    ensures |r| <= |s| && r == s[..|r|]
  {
    if k >= 0 then (if k < |s| then s[..k] else s)
    else if |s| + k > 0 then s[..|s| + k] else []
  }

  /** A prefix one longer is the prefix and the next element. */
  lemma PrefixSnoc<T>(s: seq<T>, i: nat)
    requires i < |s|
    ensures s[..i + 1] == s[..i] + [s[i]]
  {
  }

  /** The three parts of a concatenation can be read back off it. */
  lemma Parts3<T>(a: seq<T>, b: seq<T>, c: seq<T>)
    ensures var s := a + b + c;
      s[..|a|] == a && s[|a|..|a| + |b|] == b && s[|a| + |b|..] == c
  {
  }

  /** `s[i:j]` for non-negative bounds: clamped to the string, empty when j <= i. */
  function Slice(s: string, i: nat, j: nat): (r: string)
    ensures i <= j <= |s| ==> r == s[i..j]
    ensures |r| <= |s|
  {
    if j <= i || i >= |s| then "" else s[i..if j < |s| then j else |s|]
  }

  /** `"sep".join(parts)` */
  function Join(parts: seq<string>, sep: string): string
  {
    if |parts| == 0 then "" else if |parts| == 1 then parts[0]
    else Join(parts[..|parts| - 1], sep) + sep + parts[|parts| - 1]
  }

  /** `"".join(parts)` */
  function Concat(parts: seq<string>): (r: string)
    ensures |parts| == 0 ==> r == ""
  {
    if |parts| == 0 then "" else Concat(parts[..|parts| - 1]) + parts[|parts| - 1]
  }

  // ---------------------------------------------------- prefix and suffix predicates

  predicate StartsWith(s: string, p: string) {
    |p| <= |s| && s[..|p|] == p
  }

  predicate EndsWith(s: string, p: string) {
    |p| <= |s| && s[|s| - |p|..] == p
  }

  /** `c in s` for a one-character needle. */
  predicate Contains(s: string, c: char) {
    exists i :: 0 <= i < |s| && s[i] == c
  }

  /** `s.upper()` on the ASCII letters; every other character is kept. */
  function Upper(s: string): (r: string)
    ensures |r| == |s|
    ensures forall i :: 0 <= i < |s| ==>
      r[i] == if 'a' <= s[i] <= 'z' then (s[i] as int - 32) as char else s[i]
  {
    seq(|s|, i requires 0 <= i < |s| =>
      if 'a' <= s[i] <= 'z' then (s[i] as int - 32) as char else s[i])
  }

  // ---------------------------------------------------------------- str(int)

  predicate IsDigit(c: char) {
    '0' <= c <= '9'
  }

  function DigitChar(d: nat): (c: char)
    requires d < 10
    ensures IsDigit(c) && c as int - '0' as int == d
  {
    ('0' as int + d) as char
  }

  /** `str(n)` for a natural number: decimal digits, no leading zero. */
  function NatToString(n: nat): (r: string)
    ensures |r| >= 1 && forall i :: 0 <= i < |r| ==> IsDigit(r[i])
    ensures |r| > 1 ==> r[0] != '0'
    decreases n
  {
    if n < 10 then [DigitChar(n)] else NatToString(n / 10) + [DigitChar(n % 10)]
  }

  /** `str(i)` for any integer. */
  function IntToString(i: int): (r: string)
    ensures |r| >= 1
    ensures i < 0 <==> r[0] == '-'
  {
    if i < 0 then "-" + NatToString(-i) else NatToString(i)
  }

  /** Reads a string of decimal digits back as a number. */
  function ParseDigits(s: string): int
    requires forall i :: 0 <= i < |s| ==> IsDigit(s[i])
  {
    if s == [] then 0
    else ParseDigits(s[..|s| - 1]) * 10 + (s[|s| - 1] as int - '0' as int)
  }

  /** `str` on naturals is injective: the digits read back as the number. */
  lemma {:induction false} ParseNatToString(n: nat)
    ensures ParseDigits(NatToString(n)) == n
    decreases n
  {
    if n >= 10 {
      var s := NatToString(n);
      assert s[..|s| - 1] == NatToString(n / 10);
      ParseNatToString(n / 10);
    }
  }

  /** `str(b)` for a bool. */
  function BoolToString(b: bool): string {
    if b then "True" else "False"
  }

  /** `str(xs)` for a list of ints: `[1, 2, 3]`. */
  function IntListToString(xs: seq<int>): (r: string)
    ensures |r| >= 2 && r[0] == '[' && r[|r| - 1] == ']'
  {
    "[" + Join(seq(|xs|, i requires 0 <= i < |xs| => IntToString(xs[i])), ", ") + "]"
  }

  // ---------------------------------------------------------------- min and max

  /** `min(xs)` on a non-empty list of integers. */
  function ListMin(xs: seq<int>): (m: int)
    requires |xs| > 0
    ensures forall i :: 0 <= i < |xs| ==> m <= xs[i]
    ensures exists i :: 0 <= i < |xs| && m == xs[i]
  {
    if |xs| == 1 then xs[0]
    else var m := ListMin(xs[..|xs| - 1]); if xs[|xs| - 1] < m then xs[|xs| - 1] else m
  }

  /** `max(xs)` on a non-empty list of integers. */
  function ListMax(xs: seq<int>): (m: int)
    requires |xs| > 0
    ensures forall i :: 0 <= i < |xs| ==> xs[i] <= m
    ensures exists i :: 0 <= i < |xs| && m == xs[i]
  {
    if |xs| == 1 then xs[0]
    else var m := ListMax(xs[..|xs| - 1]); if xs[|xs| - 1] > m then xs[|xs| - 1] else m
  }

  // ---------------------------------------------------------------- splitlines

  /** The line boundaries of `str.splitlines`. */
  predicate IsLineBreak(c: char) {
    var n := c as int;
    (0x0A <= n <= 0x0D) || (0x1C <= n <= 0x1E) || n == 0x85 || n == 0x2028 || n == 0x2029
  }

  predicate NoLineBreak(s: string) {
    forall i :: 0 <= i < |s| ==> !IsLineBreak(s[i])
  }

  /** `splitlines` of `cur + s` where `cur` is the line read so far. */
  function SplitLinesFrom(s: string, cur: string): (r: seq<string>)
    requires NoLineBreak(cur)
    ensures forall k :: 0 <= k < |r| ==> NoLineBreak(r[k])
  {
    if s == [] then (if cur == [] then [] else [cur])
    else if s[0] == '\r' && |s| > 1 && s[1] == '\n' then [cur] + SplitLinesFrom(s[2..], [])
    else if IsLineBreak(s[0]) then [cur] + SplitLinesFrom(s[1..], [])
    else SplitLinesFrom(s[1..], cur + [s[0]])
  }

  /**
   * `text.splitlines()`: each boundary ends a line (`\r\n` counts as one), and a
   * final line is kept only when it is not empty.
   */
  function SplitLines(text: string): (r: seq<string>)
    ensures forall k :: 0 <= k < |r| ==> NoLineBreak(r[k])
  {
    SplitLinesFrom(text, [])
  }
}
