/**
 * Swiss-style number text: currency formatting with thousands groups and
 * parentheses for negatives, and the prefix/left/right split used to align
 * numbers on their decimal point.
 */
module Numbers {
  import opened Strings
  import Wrappers

  const CurrencySymbols: map<string, string> := map[
    "USD" := "$", "EUR" := "€", "GBP" := "£", "JPY" := "¥",
    "CHF" := "Fr", "CAD" := "C$", "AUD" := "A$"
  ]

  const ThinSpace: char := ' '
  const RegularSpace: char := ' '

  /** `CURRENCY_SYMBOLS.get(currency, "$")` */
  function Symbol(currency: string): (s: string)
    ensures currency in CurrencySymbols ==> s == CurrencySymbols[currency]
    ensures currency !in CurrencySymbols ==> s == "$"
  {
    if currency in CurrencySymbols then CurrencySymbols[currency] else "$"
  }

  /** The thousands separator: a plain space in ASCII mode, otherwise U+2009. */
  function Separator(asciiOnly: bool): char {
    if asciiOnly then RegularSpace else ThinSpace
  }

  // ---------------------------------------------------------------- grouping

  /** `s` with a separator before each block of three digits counted from the right. */
  function Grouped(s: string, sep: char): string
    decreases |s|
  {
    if |s| <= 3 then s else Grouped(s[..|s| - 3], sep) + [sep] + s[|s| - 3..]
  }

  /** `reversed(s)` */
  function Reverse(s: string): (r: string)
    ensures |r| == |s|
  {
    if s == [] then [] else [s[|s| - 1]] + Reverse(s[..|s| - 1])
  }

  /** `s` with every occurrence of `c` deleted. */
  function Remove(s: string, c: char): (r: string)
    ensures |r| <= |s|
  {
    if s == [] then []
    else Remove(s[..|s| - 1], c) + (if s[|s| - 1] == c then [] else [s[|s| - 1]])
  }

  lemma RemoveAppend(a: string, b: string, c: char)
    ensures Remove(a + b, c) == Remove(a, c) + Remove(b, c)
    decreases |b|
  {
    if b == [] {
      assert a + b == a;
    } else {
      assert (a + b)[..|a + b| - 1] == a + b[..|b| - 1];
      RemoveAppend(a, b[..|b| - 1], c);
    }
  }

  /** No character of `s` is `c` (the negation of `c in s`). */
  predicate Lacks(s: string, c: char) {
    forall i :: 0 <= i < |s| ==> s[i] != c
  }

  lemma RemoveAbsent(s: string, c: char)
    requires Lacks(s, c)
    ensures Remove(s, c) == s
  {
    if s != [] {
      RemoveAbsent(s[..|s| - 1], c);
      assert s[..|s| - 1] + [s[|s| - 1]] == s;
    }
  }

  /** Grouping a digit string with one more digit in front adds a separator exactly at a block boundary. */
  lemma {:induction false} GroupedCons(c: char, t: string, sep: char)
    ensures Grouped([c] + t, sep) ==
      if |t| > 0 && |t| % 3 == 0 then [c, sep] + Grouped(t, sep) else [c] + Grouped(t, sep)
    decreases |t|
  {
    var s := [c] + t;
    if |t| > 3 {
      var t', q := t[..|t| - 3], t[|t| - 3..];
      assert s[..|s| - 3] == [c] + t';
      assert s[|s| - 3..] == q;
      assert Grouped(s, sep) == Grouped([c] + t', sep) + [sep] + q;
      assert Grouped(t, sep) == Grouped(t', sep) + [sep] + q;
      GroupedCons(c, t', sep);
      assert |t'| % 3 == 0 <==> |t| % 3 == 0;
    } else if |t| == 3 {
      assert s[..|s| - 3] == [c];
      assert s[|s| - 3..] == t;
      assert Grouped(s, sep) == [c] + [sep] + t;
    }
  }

  /** Deleting `sep` from `g + [sep] + q`, where `q` has none, deletes it from `g` only. */
  lemma RemoveSeparator(g: string, q: string, sep: char)
    requires Lacks(q, sep)
    ensures Remove(g + [sep] + q, sep) == Remove(g, sep) + q
  {
    var gs := g + [sep];
    assert Remove(gs + q, sep) == Remove(gs, sep) + Remove(q, sep) by {
      RemoveAppend(gs, q, sep);
    }
    assert Remove(gs, sep) == Remove(g, sep) by {
      assert gs[..|gs| - 1] == g;
    }
    assert Remove(q, sep) == q by {
      RemoveAbsent(q, sep);
    }
  }

  /** The grouped text has one separator per complete block of three beyond the first digits. */
  lemma {:induction false} GroupedLength(s: string, sep: char)
    requires |s| >= 1
    ensures |Grouped(s, sep)| == |s| + (|s| - 1) / 3
    decreases |s|
  {
    if |s| > 3 {
      GroupedLength(s[..|s| - 3], sep);
    }
  }

  /** Deleting the separators from the grouped text gives back the digits. */
  lemma {:induction false} GroupedUngroups(s: string, sep: char)
    requires Lacks(s, sep)
    ensures Remove(Grouped(s, sep), sep) == s
    decreases |s|
  {
    if |s| <= 3 {
      RemoveAbsent(s, sep);
    } else {
      var p, q := s[..|s| - 3], s[|s| - 3..];
      var g := Grouped(p, sep);
      assert Grouped(s, sep) == g + [sep] + q;
      assert Lacks(p, sep) && Lacks(q, sep) by {
        assert forall k :: 0 <= k < |p| ==> p[k] == s[k];
        assert forall k :: 0 <= k < |q| ==> q[k] == s[|s| - 3 + k];
      }
      assert Remove(g, sep) == p by {
        GroupedUngroups(p, sep);
      }
      assert Remove(g + [sep] + q, sep) == Remove(g, sep) + q by {
        RemoveSeparator(g, q, sep);
      }
      assert p + q == s;
    }
  }

  /** Counted from the right, every fourth character of `r` is `sep`, and only those. */
  predicate SeparatorEveryFourth(r: string, sep: char) {
    forall k :: 0 <= k < |r| ==> (r[k] == sep <==> (|r| - k) % 4 == 0)
  }

  /** The separators of the grouped text sit at every fourth place from the right. */
  lemma {:induction false} GroupedSeparatorPositions(s: string, sep: char)
    requires Lacks(s, sep)
    ensures SeparatorEveryFourth(Grouped(s, sep), sep)
    decreases |s|
  {
    var r := Grouped(s, sep);
    if |s| <= 3 {
      forall k | 0 <= k < |r| ensures r[k] != sep && (|r| - k) % 4 != 0 {
        assert r[k] == s[k];
      }
    } else {
      var p, q := s[..|s| - 3], s[|s| - 3..];
      GroupedSeparatorPositions(p, sep);
      var g := Grouped(p, sep);
      assert r == g + [sep] + q;
      forall k | 0 <= k < |r| ensures (r[k] == sep <==> (|r| - k) % 4 == 0) {
        if k < |g| {
          assert r[k] == g[k];
          assert (|r| - k) % 4 == (|g| - k) % 4;
        } else if k == |g| {
          assert r[k] == sep && |r| - k == 4;
        } else {
          assert r[k] == q[k - |g| - 1] == s[|s| - 3 + (k - |g| - 1)];
        }
      }
    }
  }

  /** Reversing a sequence with one more element at the end puts that element first. */
  lemma ReverseSnoc(s: string, c: char)
    ensures Reverse(s + [c]) == [c] + Reverse(s)
  {
    assert (s + [c])[..|s|] == s;
  }

  /** The grouping loop of `format_currency`: walk the digits from the right, then reverse. */
  method GroupThousands(integerPart: string, sep: char) returns (r: string)
    ensures r == Grouped(integerPart, sep)
  {
    var groups: string := [];
    var i := 0;
    while i < |integerPart|
      invariant 0 <= i <= |integerPart|
      invariant Reverse(groups) == Grouped(integerPart[|integerPart| - i..], sep)
    {
      groups := GroupStep(integerPart, i, sep, groups);
      i := i + 1;
    }
    assert integerPart[0..] == integerPart;
    r := Reverse(groups);
  }

  /** One turn of the grouping loop: a separator before every third digit after the first, then the digit. */
  method GroupStep(integerPart: string, i: nat, sep: char, groups: string) returns (groups': string)
    requires i < |integerPart|
    requires Reverse(groups) == Grouped(integerPart[|integerPart| - i..], sep)
    ensures Reverse(groups') == Grouped(integerPart[|integerPart| - (i + 1)..], sep)
  {
    var digit := integerPart[|integerPart| - 1 - i];
    ghost var t := integerPart[|integerPart| - i..];
    assert integerPart[|integerPart| - (i + 1)..] == [digit] + t;
    groups' := groups;
    if i > 0 && i % 3 == 0 {
      groups' := groups' + [sep];
    }
    groups' := groups' + [digit];
    GroupedPrepend(groups, t, digit, sep);
  }

  /** Adding a digit in front of `t`, with a separator when `t` is whole blocks, extends the reversed grouping. */
  lemma GroupedPrepend(groups: string, t: string, digit: char, sep: char)
    requires Reverse(groups) == Grouped(t, sep)
    ensures Reverse((if |t| > 0 && |t| % 3 == 0 then groups + [sep] else groups) + [digit])
      == Grouped([digit] + t, sep)
  {
    GroupedCons(digit, t, sep);
    ReverseSnoc(groups, sep);
    ReverseSnoc(groups + [sep], digit);
    ReverseSnoc(groups, digit);
  }

  // ---------------------------------------------------------------- currency

  /** Two decimal digits, as `%.2f` prints the fraction of a whole number of cents. */
  function TwoDigits(n: nat): (r: string)
    requires n < 100
    ensures |r| == 2 && IsDigit(r[0]) && IsDigit(r[1])
  {
    [DigitChar(n / 10), DigitChar(n % 10)]
  }

  /** The integer part of `format_currency`'s text: the whole units, grouped. */
  function IntegerText(cents: int, asciiOnly: bool): string {
    var a := if cents < 0 then -cents else cents;
    Grouped(NatToString(a / 100), Separator(asciiOnly))
  }

  /** What `format_currency` prints for an amount of `cents` hundredths. */
  function CurrencyText(cents: int, currency: string, asciiOnly: bool): string {
    var a := if cents < 0 then -cents else cents;
    var body := IntegerText(cents, asciiOnly) + "." + TwoDigits(a % 100);
    if cents < 0 then "(" + Symbol(currency) + body + ")" else Symbol(currency) + body
  }

  /**
   * `format_currency` for an amount given exactly in cents: the symbol (or "$"),
   * the grouped integer part, a point and two decimals; negatives in parentheses.
   */
  method FormatCurrency(cents: int, currency: string, asciiOnly: bool) returns (r: string)
    ensures r == CurrencyText(cents, currency, asciiOnly)
  {
    var symbol := Symbol(currency);
    var absVal := if cents < 0 then -cents else cents;
    var integerPart := NatToString(absVal / 100);
    var decimalPart := TwoDigits(absVal % 100);
    if |integerPart| > 3 {
      var sep := if asciiOnly then RegularSpace else ThinSpace;
      integerPart := GroupThousands(integerPart, sep);
    }
    var formattedAbs := integerPart + "." + decimalPart;
    if cents < 0 {
      r := "(" + symbol + formattedAbs + ")";
    } else {
      r := symbol + formattedAbs;
    }
  }

  /**
   * The integer part ungroups back to the decimal digits of the whole units, and
   * its separators (a space or U+2009) sit at every fourth place from the right.
   */
  lemma IntegerTextGroups(cents: int, asciiOnly: bool)
    ensures var a := if cents < 0 then -cents else cents;
      Remove(IntegerText(cents, asciiOnly), Separator(asciiOnly)) == NatToString(a / 100)
    ensures SeparatorEveryFourth(IntegerText(cents, asciiOnly), Separator(asciiOnly))
    ensures var a := if cents < 0 then -cents else cents;
      |IntegerText(cents, asciiOnly)| == |NatToString(a / 100)| + (|NatToString(a / 100)| - 1) / 3
  {
    var a := if cents < 0 then -cents else cents;
    var d := NatToString(a / 100);
    assert Lacks(d, Separator(asciiOnly));
    GroupedUngroups(d, Separator(asciiOnly));
    GroupedSeparatorPositions(d, Separator(asciiOnly));
    GroupedLength(d, Separator(asciiOnly));
  }

  /** No symbol starts with "(", so the parentheses appear exactly for negative amounts. */
  lemma CurrencyTextParenthesised(cents: int, currency: string, asciiOnly: bool)
    ensures var r := CurrencyText(cents, currency, asciiOnly);
      |r| > 0 && (r[0] == '(' <==> cents < 0) && (r[|r| - 1] == ')' <==> cents < 0)
  {
    var s := Symbol(currency);
    assert s in CurrencySymbols.Values || s == "$";
    assert s != [] && s[0] != '(';
  }

  /** A code missing from the table is printed with the dollar sign. */
  lemma UnknownCurrencyIsDollar(cents: int, currency: string, asciiOnly: bool)
    requires currency !in CurrencySymbols
    ensures var r := CurrencyText(cents, currency, asciiOnly);
      if cents < 0 then StartsWith(r, "($") else StartsWith(r, "$")
  {
  }

  /** Up to 999 whole units no separator appears. */
  lemma ShortAmountsUngrouped(s: string, sep: char)
    requires |s| <= 3
    ensures Grouped(s, sep) == s
  {
  }

  // ---------------------------------------------------------------- decimal alignment

  /** The characters `[\$€£¥\(\+\-]` of the prefix pattern. */
  predicate IsPrefixChar(c: char) {
    c == '$' || c == '€' || c == '£' || c == '¥' || c == '(' || c == '+' || c == '-'
  }

  /** The characters `[%\)]` of the suffix pattern. */
  predicate IsSuffixChar(c: char) {
    c == '%' || c == ')'
  }

  /** The length of the longest prefix of `s` whose characters satisfy `p`. */
  function LeadingRun(s: string, p: char -> bool): (n: nat)
    ensures n <= |s|
  {
    if s == [] || !p(s[0]) then 0 else 1 + LeadingRun(s[1..], p)
  }

  /** The leading run is the longest prefix whose characters satisfy `p`. */
  lemma {:induction false} LeadingRunSpec(s: string, p: char -> bool)
    ensures forall i :: 0 <= i < LeadingRun(s, p) ==> p(s[i])
    ensures LeadingRun(s, p) < |s| ==> !p(s[LeadingRun(s, p)])
    decreases |s|
  {
    if s != [] && p(s[0]) {
      LeadingRunSpec(s[1..], p);
      forall i | 1 <= i < LeadingRun(s, p)
        ensures p(s[i])
      {
        assert s[1..][i - 1] == s[i];
      }
    }
  }

  /** The length of the longest suffix of `s` whose characters satisfy `p`. */
  function TrailingRun(s: string, p: char -> bool): (n: nat)
    ensures n <= |s|
  {
    if s == [] || !p(s[|s| - 1]) then 0 else 1 + TrailingRun(s[..|s| - 1], p)
  }

  /** The trailing run is the longest suffix whose characters satisfy `p`. */
  lemma {:induction false} TrailingRunSpec(s: string, p: char -> bool)
    ensures forall i :: |s| - TrailingRun(s, p) <= i < |s| ==> p(s[i])
    ensures TrailingRun(s, p) < |s| ==> !p(s[|s| - TrailingRun(s, p) - 1])
    decreases |s|
  {
    if s != [] && p(s[|s| - 1]) {
      var s' := s[..|s| - 1];
      TrailingRunSpec(s', p);
      forall i | |s| - TrailingRun(s, p) <= i < |s| - 1
        ensures p(s[i])
      {
        assert s'[i] == s[i];
      }
      if TrailingRun(s, p) < |s| {
        assert s'[|s'| - TrailingRun(s', p) - 1] == s[|s| - TrailingRun(s, p) - 1];
      }
    }
  }

  /** The length of `re.match(r'^([\$€£¥\(\+\-]*\s*)', t).group(1)`: sign/currency characters, then whitespace. */
  function PrefixLength(t: string): (n: nat)
    ensures n <= |t|
  {
    var a := LeadingRun(t, IsPrefixChar);
    a + LeadingRun(t[a..], IsSpace)
  }

  /**
   * The length of `re.search(r'(\s*[%\)]+)$', t).group(1)`, or 0 without a match:
   * whitespace, then a non-empty run of `%` and `)` reaching the end.
   */
  function SuffixLength(t: string): (n: nat)
    ensures n <= |t|
  {
    var a := TrailingRun(t, IsSuffixChar);
    if a == 0 then 0 else a + TrailingRun(t[..|t| - a], IsSpace)
  }

  /** Where the suffix match starts. */
  function SuffixStart(t: string): (k: nat)
    ensures k <= |t|
  {
    |t| - SuffixLength(t)
  }

  /** The prefix match is made of sign/currency characters and whitespace. */
  lemma PrefixChars(t: string)
    ensures forall i :: 0 <= i < PrefixLength(t) ==> IsPrefixChar(t[i]) || IsSpace(t[i])
  {
    var a := LeadingRun(t, IsPrefixChar);
    LeadingRunSpec(t, IsPrefixChar);
    LeadingRunSpec(t[a..], IsSpace);
    forall i | a <= i < PrefixLength(t)
      ensures IsSpace(t[i])
    {
      assert t[a..][i - a] == t[i];
    }
  }

  /** The suffix match is made of whitespace and `%`/`)` characters, and ends with one of the latter. */
  lemma SuffixChars(t: string)
    ensures forall i :: |t| - SuffixLength(t) <= i < |t| ==> IsSuffixChar(t[i]) || IsSpace(t[i])
    ensures SuffixLength(t) > 0 ==> IsSuffixChar(t[|t| - 1])
  {
    var a := TrailingRun(t, IsSuffixChar);
    TrailingRunSpec(t, IsSuffixChar);
    if a > 0 {
      var u := t[..|t| - a];
      TrailingRunSpec(u, IsSpace);
      forall i | |t| - SuffixLength(t) <= i < |t| - a
        ensures IsSpace(t[i])
      {
        assert u[i] == t[i];
      }
    }
  }

  /** The prefix match of `split_decimal_for_align`. */
  function MatchPrefix(t: string): (r: string)
    ensures StartsWith(t, r)
    ensures forall i :: 0 <= i < |r| ==> IsPrefixChar(r[i]) || IsSpace(r[i])
  {
    PrefixChars(t);
    t[..PrefixLength(t)]
  }

  /** The suffix match of `split_decimal_for_align`; when not empty it ends with `%` or `)`. */
  function MatchSuffix(t: string): (r: string)
    ensures EndsWith(t, r)
    ensures forall i :: 0 <= i < |r| ==> IsSuffixChar(r[i]) || IsSpace(r[i])
    ensures r != [] ==> IsSuffixChar(r[|r| - 1])
  {
    SuffixChars(t);
    var r := t[SuffixStart(t)..];
    assert forall i :: 0 <= i < |r| ==> r[i] == t[SuffixStart(t) + i];
    r
  }

  /** The index of the first `ch` in `s`, if any. */
  function Find(s: string, ch: char): (r: Wrappers.Option<nat>)
    ensures r.None? ==> Lacks(s, ch)
    ensures r.Some? ==> r.value < |s| && s[r.value] == ch && Lacks(s[..r.value], ch)
  {
    if s == [] then Wrappers.None
    else if s[0] == ch then Wrappers.Some(0)
    else
      var r := Find(s[1..], ch);
      if r.None? then Wrappers.None
      else
        assert s[..r.value + 1] == [s[0]] + s[1..][..r.value];
        Wrappers.Some(r.value + 1)
  }

  /** Splits `t` into `t[..i]`, the part of `t[i..j]` before its first ".", and the rest with `t[j..]`. */
  function SplitAround(t: string, i: nat, j: nat): (r: (string, string, string))
    requires i <= |t| && j <= |t|
  {
    var numeric := Slice(t, i, j);
    var dot := Find(numeric, '.');
    if dot.Some? then (t[..i], numeric[..dot.value], numeric[dot.value + 1..] + t[j..])
    else (t[..i], numeric, t[j..])
  }

  /** The non-blank case of `split_decimal_for_align`, on the stripped text. */
  function SplitStripped(t: string): (r: (string, string, string))
  {
    SplitAround(t, PrefixLength(t), SuffixStart(t))
  }

  /** `split_decimal_for_align`: (prefix, digits left of the first ".", the rest with the suffix). */
  function SplitDecimalForAlign(text: string): (r: (string, string, string))
    ensures IsBlank(text) ==> r == ("", "", "")
  {
    StripEmptyIffBlank(text);
    if Strip(text) == [] then ("", "", "") else SplitStripped(Strip(text))
  }

  /**
   * Splitting around `t[i..j]` at its first ".": the left part holds no ".", and
   * the parts put back together (with the "." when there was one) are `t`.
   */
  lemma {:induction false} SplitAroundReassembles(t: string, i: nat, j: nat)
    requires i <= j <= |t|
    ensures var r := SplitAround(t, i, j);
      r.0 == t[..i] && Lacks(r.1, '.')
      && (Lacks(t[i..j], '.') ==> r.0 + r.1 + r.2 == t)
      && (!Lacks(t[i..j], '.') ==> r.0 + r.1 + "." + r.2 == t)
  {
    var numeric := t[i..j];
    assert t == t[..i] + numeric + t[j..];
    var dot := Find(numeric, '.');
    if dot.Some? {
      var left, right := numeric[..dot.value], numeric[dot.value + 1..];
      assert numeric == left + "." + right;
      assert t[..i] + left + "." + (right + t[j..]) == t[..i] + numeric + t[j..];
    }
  }

  /**
   * When the prefix and suffix matches of a stripped text do not overlap, the
   * first part is the prefix match, the left part holds no ".", and the parts put
   * back together (with the "." when the numeric part had one) are the text.
   */
  lemma SplitStrippedReassembles(t: string)
    requires |MatchPrefix(t)| + |MatchSuffix(t)| <= |t|
    ensures var r := SplitStripped(t);
      var numeric := t[|MatchPrefix(t)|..|t| - |MatchSuffix(t)|];
      r.0 == MatchPrefix(t) && Lacks(r.1, '.')
      && (Lacks(numeric, '.') ==> r.0 + r.1 + r.2 == t)
      && (!Lacks(numeric, '.') ==> r.0 + r.1 + "." + r.2 == t)
  {
    var i, j := PrefixLength(t), SuffixStart(t);
    assert |MatchPrefix(t)| == i && MatchPrefix(t) == t[..i];
    assert |t| - |MatchSuffix(t)| == j;
    assert t[|MatchPrefix(t)|..|t| - |MatchSuffix(t)|] == t[i..j];
    SplitAroundReassembles(t, i, j);
  }

  /** When the prefix and suffix matches overlap, the numeric part is empty. */
  lemma SplitStrippedOverlap(t: string)
    requires |MatchPrefix(t)| + |MatchSuffix(t)| > |t|
    ensures SplitStripped(t) == (MatchPrefix(t), "", MatchSuffix(t))
  {
  }

  /** A non-blank text is split after stripping. */
  lemma SplitDecimalStrips(text: string)
    requires !IsBlank(text)
    ensures SplitDecimalForAlign(text) == SplitStripped(Strip(text))
  {
    StripEmptyIffBlank(text);
  }
}
