/**
 * The validators of rendered ASCII output: equal row widths, line lengths,
 * border-style consistency, the Levenshtein distance under the parity check,
 * and the summary of a list of results.
 */
module Validators {
  import opened Wrappers
  import opened Strings
  import Charlib

  /** The three Unicode border styles, in the order the check tries them. */
  datatype BoxStyle = SingleStyle | HeavyStyle | DoubleStyle
  {
    function Name(): string {
      match this
      case SingleStyle => "single"
      case HeavyStyle => "heavy"
      case DoubleStyle => "double"
    }
  }

  /** What a `details` dictionary holds, per check. */
  datatype Details =
    | NoDetails
    | WidthDetails(widths: seq<int>, uniqueWidths: set<int>)
    | LineLengthDetails(violations: seq<string>, totalViolations: nat)
    | BorderDetails(detectedStyle: Option<BoxStyle>, borderLineCount: nat)

  /** The `ValidationResult` dataclass. */
  datatype ValidationResult =
    ValidationResult(checkName: string, passed: bool, score: real, message: string, details: Details)

  // ---------------------------------------------------------------- Levenshtein

  function Min3(a: int, b: int, c: int): (m: int)
    ensures m <= a && m <= b && m <= c
    ensures m == a || m == b || m == c
  {
    if a <= b && a <= c then a else if b <= c then b else c
  }

  /**
   * The edit distance by its recursive definition: the cheapest of deleting the
   * last character of `a`, inserting the last of `b`, or substituting one for the
   * other (free when they are equal).
   */
  function Lev(a: string, b: string): nat
    decreases |a| + |b|
  {
    if |a| == 0 then |b|
    else if |b| == 0 then |a|
    else
      Min3(Lev(a[..|a| - 1], b) + 1, Lev(a, b[..|b| - 1]) + 1,
           Lev(a[..|a| - 1], b[..|b| - 1]) + (if a[|a| - 1] == b[|b| - 1] then 0 else 1))
  }

  /** The recurrence one cell of the table follows, stated on prefixes. */
  lemma LevStep(a: string, b: string, i: nat, j: nat)
    requires i < |a| && j < |b|
    ensures Lev(a[..i + 1], b[..j + 1]) ==
      Min3(Lev(a[..i], b[..j + 1]) + 1, Lev(a[..i + 1], b[..j]) + 1,
           Lev(a[..i], b[..j]) + (if a[i] == b[j] then 0 else 1))
  {
    assert a[..i + 1][..i] == a[..i];
    assert b[..j + 1][..j] == b[..j];
  }

  /** The distance is symmetric. */
  lemma {:induction false} LevSymmetric(a: string, b: string)
    ensures Lev(a, b) == Lev(b, a)
    decreases |a| + |b|
  {
    if |a| > 0 && |b| > 0 {
      LevSymmetric(a[..|a| - 1], b);
      LevSymmetric(a, b[..|b| - 1]);
      LevSymmetric(a[..|a| - 1], b[..|b| - 1]);
    }
  }

  /** Against the empty string the distance is the other string's length. */
  lemma LevEmpty(s: string)
    ensures Lev(s, "") == |s| && Lev("", s) == |s|
  {
  }

  /** A string is at distance 0 from itself. */
  lemma {:induction false} LevSelf(s: string)
    ensures Lev(s, s) == 0
    decreases |s|
  {
    if |s| > 0 {
      LevSelf(s[..|s| - 1]);
    }
  }

  /** The distance lies between the difference of the lengths and the larger length. */
  lemma {:induction false} LevBounds(a: string, b: string)
    ensures Lev(a, b) >= |a| - |b| && Lev(a, b) >= |b| - |a|
    ensures Lev(a, b) <= if |a| < |b| then |b| else |a|
    decreases |a| + |b|
  {
    if |a| > 0 && |b| > 0 {
      LevBounds(a[..|a| - 1], b);
      LevBounds(a, b[..|b| - 1]);
      LevBounds(a[..|a| - 1], b[..|b| - 1]);
    }
  }

  /** The distance is 0 exactly between equal strings. */
  lemma {:induction false} LevZeroIff(a: string, b: string)
    ensures Lev(a, b) == 0 <==> a == b
    decreases |a| + |b|
  {
    if a == b {
      LevSelf(a);
    } else if |a| > 0 && |b| > 0 {
      var a', b' := a[..|a| - 1], b[..|b| - 1];
      if a' == b' {
        assert a[|a| - 1] != b[|b| - 1] by {
          assert a == a' + [a[|a| - 1]] && b == b' + [b[|b| - 1]];
        }
      } else {
        LevZeroIff(a', b');
      }
    }
  }

  /** One row of the table: from the row for `s1[..i]` to the row for `s1[..i + 1]`. */
  method NextRow(s1: string, s2: string, i: nat, previousRow: seq<nat>) returns (currentRow: seq<nat>)
    requires i < |s1| && |previousRow| == |s2| + 1
    requires forall j :: 0 <= j <= |s2| ==> previousRow[j] == Lev(s1[..i], s2[..j])
    ensures |currentRow| == |s2| + 1
    ensures forall j :: 0 <= j <= |s2| ==> currentRow[j] == Lev(s1[..i + 1], s2[..j])
  {
    currentRow := [i + 1];
    assert Lev(s1[..i + 1], s2[..0]) == i + 1;
    for j := 0 to |s2|
      invariant |currentRow| == j + 1
      invariant forall k :: 0 <= k <= j ==> currentRow[k] == Lev(s1[..i + 1], s2[..k])
    {
      var cell := NextCell(s1, s2, i, j, previousRow[j + 1], currentRow[j], previousRow[j]);
      currentRow := currentRow + [cell];
    }
  }

  /** One cell of the table, from the cells above, to the left and diagonally above-left of it. */
  method NextCell(s1: string, s2: string, i: nat, j: nat, above: nat, left: nat, diagonal: nat) returns (cell: nat)
    requires i < |s1| && j < |s2|
    requires above == Lev(s1[..i], s2[..j + 1])
    requires left == Lev(s1[..i + 1], s2[..j])
    requires diagonal == Lev(s1[..i], s2[..j])
    ensures cell == Lev(s1[..i + 1], s2[..j + 1])
  {
    var insertions := above + 1;
    var deletions := left + 1;
    var substitutions := diagonal + (if s1[i] != s2[j] then 1 else 0);
    LevStep(s1, s2, i, j);
    cell := Min3(insertions, deletions, substitutions);
  }

  /**
   * `calculate_levenshtein_distance`: the longer string goes first, and the
   * table is kept two rows at a time; the result is the distance.
   */
  method LevenshteinDistance(s1: string, s2: string) returns (d: nat)
    ensures d == Lev(s1, s2)
    decreases if |s1| < |s2| then 1 else 0
  {
    if |s1| < |s2| {
      d := LevenshteinDistance(s2, s1);
      LevSymmetric(s2, s1);
      return;
    }
    if |s2| == 0 {
      return |s1|;
    }
    var previousRow: seq<nat> := seq(|s2| + 1, j => j);
    for i := 0 to |s1|
      invariant |previousRow| == |s2| + 1
      invariant forall j :: 0 <= j <= |s2| ==> previousRow[j] == Lev(s1[..i], s2[..j])
    {
      previousRow := NextRow(s1, s2, i, previousRow);
    }
    assert s1[..|s1|] == s1 && s2[..|s2|] == s2;
    d := previousRow[|s2|];
  }

  // ---------------------------------------------------------------- row widths

  /** The lines the width check looks at: all of them, or, with `allowEmpty`, the non-blank ones. */
  function Applicable(lines: seq<string>, allowEmpty: bool): (r: seq<string>)
    ensures |r| <= |lines|
  {
    if lines == [] then []
    else
      var last := lines[|lines| - 1];
      Applicable(lines[..|lines| - 1], allowEmpty) + (if allowEmpty && IsBlank(last) then [] else [last])
  }

  /** A line is looked at exactly when it is in the list and not skipped as blank. */
  lemma {:induction false} ApplicableMembers(lines: seq<string>, allowEmpty: bool, l: string)
    ensures l in Applicable(lines, allowEmpty) <==> l in lines && !(allowEmpty && IsBlank(l))
  {
    if lines != [] {
      ApplicableMembers(lines[..|lines| - 1], allowEmpty, l);
      assert lines == lines[..|lines| - 1] + [lines[|lines| - 1]];
    }
  }

  predicate SameWidth(ls: seq<string>) {
    forall i, j :: 0 <= i < |ls| && 0 <= j < |ls| ==> |ls[i]| == |ls[j]|
  }

  /** `[len(line) for line in ls]` */
  function Widths(ls: seq<string>): (ws: seq<int>)
    ensures |ws| == |ls| && forall i :: 0 <= i < |ls| ==> ws[i] == |ls[i]|
  {
    seq(|ls|, i requires 0 <= i < |ls| => |ls[i]|)
  }

  /** `set(ws)` */
  function UniqueWidths(ws: seq<int>): set<int> {
    set i | 0 <= i < |ws| :: ws[i]
  }

  /** A non-empty list has one distinct width exactly when all its entries are equal. */
  lemma SingleWidthIff(ws: seq<int>)
    requires |ws| > 0
    ensures |UniqueWidths(ws)| == 1 <==> forall i :: 0 <= i < |ws| ==> ws[i] == ws[0]
  {
    var u := UniqueWidths(ws);
    assert ws[0] in u;
    if forall i :: 0 <= i < |ws| ==> ws[i] == ws[0] {
      assert u == {ws[0]};
    } else {
      var i :| 0 <= i < |ws| && ws[i] != ws[0];
      assert ws[i] in u;
      assert {ws[0], ws[i]} <= u;
      assert |{ws[0], ws[i]}| == 2;
      SubsetCard({ws[0], ws[i]}, u);
    }
  }

  lemma SubsetCard<T>(a: set<T>, b: set<T>)
    requires a <= b
    ensures |a| <= |b|
  {
    assert b == a + (b - a);
  }

  /** `f"All {n} lines have equal width ({width} chars)"` */
  function EqualWidthMessage(n: int, width: int): string {
    "All " + IntToString(n) + " lines have equal width (" + IntToString(width) + " chars)"
  }

  /** `f"Width mismatch: {k} different widths (min: {lo}, max: {hi})"` */
  function MismatchMessage(k: int, lo: int, hi: int): string {
    "Width mismatch: " + IntToString(k) + " different widths (min: " + IntToString(lo) + ", max: " + IntToString(hi) + ")"
  }

  /**
   * `validate_row_widths` (validators): passes on no lines, on no applicable
   * lines, and otherwise exactly when every applicable line has the same width;
   * the score is 1.0 or 0.0 accordingly.
   */
  method ValidateRowWidths(lines: seq<string>, allowEmpty: bool) returns (r: ValidationResult)
    ensures r.checkName == "row_widths"
    ensures r.passed <==> SameWidth(Applicable(lines, allowEmpty))
    ensures r.score == if r.passed then 1.0 else 0.0
    ensures lines == [] ==> r.message == "No lines to validate"
    ensures lines != [] && Applicable(lines, allowEmpty) == [] ==> r.message == "No applicable lines"
    ensures var a := Applicable(lines, allowEmpty);
      a != [] && r.passed ==> r.message == EqualWidthMessage(|a|, |a[0]|) && r.details == NoDetails
    ensures var ws := Widths(Applicable(lines, allowEmpty));
      !r.passed ==> |ws| > 0 && r.message == MismatchMessage(|UniqueWidths(ws)|, ListMin(ws), ListMax(ws))
    ensures var ws := Widths(Applicable(lines, allowEmpty));
      !r.passed ==> r.details == WidthDetails(ws, UniqueWidths(ws))
  {
    if lines == [] {
      return ValidationResult("row_widths", true, 1.0, "No lines to validate", NoDetails);
    }
    var filtered: seq<string> := [];
    for k := 0 to |lines|
      invariant filtered == Applicable(lines[..k], allowEmpty)
    {
      assert lines[..k + 1][..k] == lines[..k];
      var line := lines[k];
      if allowEmpty {
        StripEmptyIffBlank(line);
        if Strip(line) != [] {
          filtered := filtered + [line];
        }
      } else {
        filtered := filtered + [line];
      }
    }
    assert lines[..|lines|] == lines;
    if filtered == [] {
      return ValidationResult("row_widths", true, 1.0, "No applicable lines", NoDetails);
    }
    var widths := Widths(filtered);
    var uniqueWidths := UniqueWidths(widths);
    SingleWidthIff(widths);
    if |uniqueWidths| == 1 {
      r := ValidationResult("row_widths", true, 1.0,
        EqualWidthMessage(|filtered|, widths[0]), NoDetails);
    } else {
      assert !SameWidth(filtered) by {
        var i :| 0 <= i < |widths| && widths[i] != widths[0];
        assert |filtered[i]| != |filtered[0]|;
      }
      r := ValidationResult("row_widths", false, 0.0,
        MismatchMessage(|uniqueWidths|, ListMin(widths), ListMax(widths)), WidthDetails(widths, uniqueWidths));
    }
  }

  // ---------------------------------------------------------------- line length

  /** The counters `validate_line_length` keeps while it walks the lines. */
  datatype LengthTally = LengthTally(tooShort: nat, tooLong: nat, contentLines: nat, violations: seq<string>)

  /** `f"Line {no}: {len} chars (too short)"` or `(too long)` */
  function ViolationMessage(no: int, len: int, short: bool): string {
    "Line " + IntToString(no) + ": " + IntToString(len) + (if short then " chars (too short)" else " chars (too long)")
  }

  /** The tally after one more line, the `no`-th: blank lines count for nothing. */
  function TallyStep(t: LengthTally, line: string, no: int, minChars: int, maxChars: int): LengthTally {
    var len := |Strip(line)|;
    if len == 0 then t
    else if len < minChars then
      LengthTally(t.tooShort + 1, t.tooLong, t.contentLines + 1, t.violations + [ViolationMessage(no, len, true)])
    else if len > maxChars then
      LengthTally(t.tooShort, t.tooLong + 1, t.contentLines + 1, t.violations + [ViolationMessage(no, len, false)])
    else LengthTally(t.tooShort, t.tooLong, t.contentLines + 1, t.violations)
  }

  /** The counters over a whole list of lines. */
  function Tally(lines: seq<string>, minChars: int, maxChars: int): LengthTally {
    if lines == [] then LengthTally(0, 0, 0, [])
    else TallyStep(Tally(lines[..|lines| - 1], minChars, maxChars), lines[|lines| - 1], |lines|, minChars, maxChars)
  }

  /** `len([l for l in lines if l.strip()])` */
  function ContentLines(lines: seq<string>): (n: nat)
    ensures n <= |lines|
  {
    if lines == [] then 0
    else ContentLines(lines[..|lines| - 1]) + (if IsBlank(lines[|lines| - 1]) then 0 else 1)
  }

  /**
   * Each violation is a non-blank line with one message: there are as many
   * messages as short and long lines together, never more than the content
   * lines, and the content count is the number of non-blank lines.
   */
  lemma {:induction false} TallyCounts(lines: seq<string>, minChars: int, maxChars: int)
    ensures var t := Tally(lines, minChars, maxChars);
      |t.violations| == t.tooShort + t.tooLong <= t.contentLines == ContentLines(lines)
  {
    if lines != [] {
      TallyCounts(lines[..|lines| - 1], minChars, maxChars);
      StripEmptyIffBlank(lines[|lines| - 1]);
    }
  }

  /** Dividing by a positive `c` keeps comparisons: `t / c <= k` exactly when `t <= k * c`. */
  lemma DivAtMost(t: real, c: real, k: real)
    requires c > 0.0
    ensures t / c <= k <==> t <= k * c
  {
    var q := t / c;
    assert q * c == t;
    if q <= k {
      assert (k - q) * c >= 0.0;
    } else {
      assert (q - k) * c > 0.0;
    }
  }

  /** With `0 < t <= c`, the score `1 - t/c` reaches 0.9 exactly when at most a tenth of the lines violate. */
  lemma ScoreThreshold(t: nat, c: nat)
    requires 0 < t <= c
    ensures 0.0 <= 1.0 - t as real / c as real < 1.0
    ensures 1.0 - t as real / c as real >= 0.9 <==> 10 * t <= c
  {
    DivAtMost(t as real, c as real, 0.1);
    DivAtMost(t as real, c as real, 1.0);
    DivAtMost(t as real, c as real, 0.0);
  }

  /** The counting loop of `validate_line_length`. */
  method CountLineLengths(lines: seq<string>, minChars: int, maxChars: int) returns (t: LengthTally)
    ensures t == Tally(lines, minChars, maxChars)
  {
    var violations: seq<string> := [];
    var tooShort, tooLong := 0, 0;
    for i := 0 to |lines|
      invariant var u := Tally(lines[..i], minChars, maxChars);
        tooShort == u.tooShort && tooLong == u.tooLong && violations == u.violations
    {
      assert lines[..i + 1][..i] == lines[..i];
      assert Tally(lines[..i + 1], minChars, maxChars)
        == TallyStep(Tally(lines[..i], minChars, maxChars), lines[i], i + 1, minChars, maxChars);
      var lineLen := |Strip(lines[i])|;
      if lineLen == 0 {
        continue;
      }
      if lineLen < minChars {
        tooShort := tooShort + 1;
        violations := violations + [ViolationMessage(i + 1, lineLen, true)];
      } else if lineLen > maxChars {
        tooLong := tooLong + 1;
        violations := violations + [ViolationMessage(i + 1, lineLen, false)];
      }
    }
    assert lines[..|lines|] == lines;
    TallyCounts(lines, minChars, maxChars);
    t := LengthTally(tooShort, tooLong, ContentLines(lines), violations);
  }

  /**
   * `validate_line_length`: counts the non-blank lines that are too short or too
   * long; it passes with score 1.0 when there are none, and otherwise scores
   * `1 - t/c` (never below 0) and passes exactly when at most a tenth of the
   * content lines violate.
   */
  method ValidateLineLength(lines: seq<string>, minChars: int, maxChars: int) returns (r: ValidationResult)
    ensures r.checkName == "line_length"
    ensures lines == [] ==> r == ValidationResult("line_length", true, 1.0, "No lines to validate", NoDetails)
    ensures var t := Tally(lines, minChars, maxChars);
      t.tooShort + t.tooLong == 0 ==> r.passed && r.score == 1.0
    ensures var t := Tally(lines, minChars, maxChars);
      var v, c := t.tooShort + t.tooLong, ContentLines(lines);
      v > 0 ==>
        && 0 < c && 0.0 <= r.score < 1.0 && r.score == 1.0 - v as real / c as real
        && (r.passed <==> 10 * v <= c)
        && r.details == LineLengthDetails(Take(t.violations, 10), v)
  {
    if lines == [] {
      return ValidationResult("line_length", true, 1.0, "No lines to validate", NoDetails);
    }
    var t := CountLineLengths(lines, minChars, maxChars);
    TallyCounts(lines, minChars, maxChars);
    var totalViolations := t.tooShort + t.tooLong;
    var contentLines := ContentLines(lines);
    if totalViolations == 0 {
      r := ValidationResult("line_length", true, 1.0,
        "All " + IntToString(contentLines) + " lines within " + IntToString(minChars) + "-"
          + IntToString(maxChars) + " char range", NoDetails);
    } else {
      ScoreThreshold(totalViolations, contentLines);
      var raw := 1.0 - totalViolations as real / contentLines as real;
      var score := if 0.0 > raw then 0.0 else raw;
      r := ValidationResult("line_length", score >= 0.9, score,
        IntToString(totalViolations) + "/" + IntToString(contentLines) + " lines outside range ("
          + IntToString(t.tooShort) + " short, " + IntToString(t.tooLong) + " long)",
        LineLengthDetails(Take(t.violations, 10), totalViolations));
    }
  }

  // ---------------------------------------------------------------- border integrity

  /**
   * The Unicode style a character belongs to. The three sets spelled out by the
   * check are the single, heavy and double boxes of the character library, which
   * share no glyph, so at most one of them matches. The ASCII `-|+` have none.
   */
  function StyleOf(c: char): (r: Option<BoxStyle>)
    ensures r == Some(SingleStyle) <==> c in Charlib.Single.Glyphs()
    ensures r == Some(HeavyStyle) <==> c in Charlib.Heavy.Glyphs()
    ensures r == Some(DoubleStyle) <==> c in Charlib.Double.Glyphs()
  {
    Charlib.UnicodeStylesDistinct();
    if c in Charlib.Single.Glyphs() then Some(SingleStyle)
    else if c in Charlib.Heavy.Glyphs() then Some(HeavyStyle)
    else if c in Charlib.Double.Glyphs() then Some(DoubleStyle)
    else None
  }

  predicate IsAsciiBorder(c: char) {
    c == '-' || c == '|' || c == '+'
  }

  predicate IsBorderChar(c: char) {
    IsAsciiBorder(c) || StyleOf(c).Some?
  }

  /** The ASCII border characters never set a style. */
  lemma AsciiHasNoStyle(c: char)
    requires IsAsciiBorder(c)
    ensures StyleOf(c) == None
  {
    Charlib.UnicodeStylesDistinct();
    assert c !in Charlib.Single.Glyphs() && c !in Charlib.Heavy.Glyphs() && c !in Charlib.Double.Glyphs();
  }

  /** The styles of the Unicode box characters of `s`. */
  function StylesIn(s: string): set<BoxStyle> {
    set k | 0 <= k < |s| && StyleOf(s[k]).Some? :: StyleOf(s[k]).value
  }

  /** The style of the first Unicode box character of `s`, if any. */
  function FirstStyle(s: string): Option<BoxStyle> {
    if s == [] then None else if StyleOf(s[0]).Some? then StyleOf(s[0]) else FirstStyle(s[1..])
  }

  /** Characters of two different Unicode styles occur in `s`. */
  predicate MixedStyles(s: string) {
    exists a, b :: a in StylesIn(s) && b in StylesIn(s) && a != b
  }

  /** What the scan has established about the text read so far. */
  predicate Scanned(seen: string, detected: Option<BoxStyle>, mixed: bool) {
    detected == FirstStyle(seen) && (mixed <==> MixedStyles(seen))
  }

  lemma StylesInAppend(s: string, c: char)
    ensures StylesIn(s + [c]) == StylesIn(s) + (if StyleOf(c).Some? then {StyleOf(c).value} else {})
  {
    var t := s + [c];
    assert forall k :: 0 <= k < |s| ==> t[k] == s[k];
    assert t[|s|] == c;
  }

  lemma {:induction false} FirstStyleAppend(s: string, c: char)
    ensures FirstStyle(s + [c]) == if FirstStyle(s).Some? then FirstStyle(s) else StyleOf(c)
  {
    if s != [] {
      assert (s + [c])[1..] == s[1..] + [c];
      FirstStyleAppend(s[1..], c);
    }
  }

  /** The first style is one of the styles, and there is none exactly when there are no styles. */
  lemma {:induction false} FirstStyleIn(s: string)
    ensures FirstStyle(s).None? <==> StylesIn(s) == {}
    ensures FirstStyle(s).Some? ==> FirstStyle(s).value in StylesIn(s)
  {
    if s != [] {
      FirstStyleIn(s[1..]);
      if StyleOf(s[0]).Some? {
        assert StyleOf(s[0]).value in StylesIn(s);
      } else {
        assert StylesIn(s) == StylesIn(s[1..]) by {
          forall st | st in StylesIn(s) ensures st in StylesIn(s[1..]) {
            var k :| 0 <= k < |s| && StyleOf(s[k]).Some? && StyleOf(s[k]).value == st;
            assert s[1..][k - 1] == s[k];
          }
          forall st | st in StylesIn(s[1..]) ensures st in StylesIn(s) {
            var k :| 0 <= k < |s[1..]| && StyleOf(s[1..][k]).Some? && StyleOf(s[1..][k]).value == st;
            assert s[k + 1] == s[1..][k];
          }
        }
      }
    }
  }

  /**
   * One step of the scan: a character with a style sets the detected style when
   * none is set yet, and marks mixing when it differs from the detected one.
   */
  lemma ScanStep(seen: string, c: char, detected: Option<BoxStyle>, mixed: bool)
    requires Scanned(seen, detected, mixed)
    ensures var st := StyleOf(c);
      Scanned(seen + [c],
              if st.Some? && detected.None? then st else detected,
              mixed || (st.Some? && detected.Some? && detected != st))
  {
    StylesInAppend(seen, c);
    FirstStyleAppend(seen, c);
    FirstStyleIn(seen);
    var st := StyleOf(c);
    if st.Some? && detected.Some? && detected != st {
      assert detected.value in StylesIn(seen + [c]) && st.value in StylesIn(seen + [c]);
    }
    if st.Some? && detected.Some? && detected == st && !mixed {
      assert StylesIn(seen) == {detected.value};
      assert StylesIn(seen + [c]) == {detected.value};
    }
  }

  /** The border characters of `s`. */
  function BorderCharsOf(s: string): set<char> {
    set k | 0 <= k < |s| && IsBorderChar(s[k]) :: s[k]
  }

  /** `"|" in l or "│" in l or "║" in l` */
  predicate IsTableLine(l: string) {
    Contains(l, '|') || Contains(l, '│') || Contains(l, '║')
  }

  /** The scan over one line: its border characters, and the style state after it. */
  method ScanLine(line: string, ghost seen: string, detected: Option<BoxStyle>, mixed: bool)
    returns (lineChars: set<char>, detected': Option<BoxStyle>, mixed': bool)
    requires Scanned(seen, detected, mixed)
    ensures Scanned(seen + line, detected', mixed')
    ensures lineChars == BorderCharsOf(line)
    ensures lineChars == {} ==> detected' == detected && mixed' == mixed && !IsTableLine(line)
  {
    lineChars, detected', mixed' := {}, detected, mixed;
    assert seen + line[..0] == seen;
    for k := 0 to |line|
      invariant Scanned(seen + line[..k], detected', mixed')
      invariant lineChars == set j | 0 <= j < k && IsBorderChar(line[j]) :: line[j]
      invariant lineChars == {} ==> detected' == detected && mixed' == mixed
    {
      var c := line[k];
      ScanStep(seen + line[..k], c, detected', mixed');
      assert seen + line[..k + 1] == seen + line[..k] + [c];
      if IsAsciiBorder(c) {
        AsciiHasNoStyle(c);
        lineChars := lineChars + {c};
      } else {
        var style := StyleOf(c);
        if style.Some? {
          lineChars := lineChars + {c};
          if detected'.None? {
            detected' := style;
          } else if detected' != style {
            mixed' := true;
          }
        }
      }
    }
    assert line[..|line|] == line;
    if IsTableLine(line) {
      var j :| 0 <= j < |line| && (line[j] == '|' || line[j] == '│' || line[j] == '║');
      assert Charlib.Single.Glyphs()[1] == '│' && Charlib.Double.Glyphs()[1] == '║';
      assert line[j] in lineChars;
    }
  }

  /** The `(line number, border characters)` entries of the lines that have border characters. */
  function BorderLines(lines: seq<string>): seq<(int, set<char>)> {
    if lines == [] then []
    else
      var cs := BorderCharsOf(lines[|lines| - 1]);
      BorderLines(lines[..|lines| - 1]) + (if cs != {} then [(|lines|, cs)] else [])
  }

  /** `[line for line in lines if ...]` for the table test. */
  function TableLines(lines: seq<string>): (r: seq<string>)
    ensures forall k :: 0 <= k < |r| ==> IsTableLine(r[k])
  {
    if lines == [] then []
    else TableLines(lines[..|lines| - 1]) + (if IsTableLine(lines[|lines| - 1]) then [lines[|lines| - 1]] else [])
  }

  /** At least three table lines, with more than two distinct widths among them. */
  predicate InconsistentTable(lines: seq<string>) {
    var t := TableLines(lines);
    |t| >= 3 && |UniqueWidths(Widths(t))| > 2
  }

  /** The issue messages, in the order the check reports them. */
  function BorderIssues(lines: seq<string>): seq<string> {
    (if MixedStyles(Concat(lines)) then ["Mixed border styles detected"] else [])
    + (if InconsistentTable(lines) then ["Inconsistent table row widths"] else [])
  }

  /**
   * `validate_border_integrity`: fails, with score 0.5, exactly when characters
   * of two Unicode styles occur or at least three table lines have more than
   * two widths; otherwise passes with 1.0. No lines, or no line with a border
   * character, pass early with their own messages.
   */
  method ValidateBorderIntegrity(lines: seq<string>) returns (r: ValidationResult)
    ensures r.checkName == "border_integrity"
    ensures r.passed <==> !MixedStyles(Concat(lines)) && !InconsistentTable(lines)
    ensures r.score == if r.passed then 1.0 else 0.5
    ensures !r.passed ==>
      && r.message == Join(BorderIssues(lines), "; ")
      && r.details == BorderDetails(FirstStyle(Concat(lines)), |BorderLines(lines)|)
    ensures var style := FirstStyle(Concat(lines));
      r.passed && BorderLines(lines) != [] ==>
        r.message == "Border integrity OK: " + IntToString(|BorderLines(lines)|) + " border lines, style: "
          + (if style.Some? then style.value.Name() else "ASCII")
    ensures lines == [] ==>
      r == ValidationResult("border_integrity", true, 1.0, "No lines to validate", NoDetails)
    ensures lines != [] && BorderLines(lines) == [] ==>
      r == ValidationResult("border_integrity", true, 1.0, "No border characters found", NoDetails)
  {
    if lines == [] {
      return ValidationResult("border_integrity", true, 1.0, "No lines to validate", NoDetails);
    }
    var borderLines: seq<(int, set<char>)> := [];
    var detectedStyle: Option<BoxStyle> := None;
    var mixedStyles := false;
    ghost var seen: string := "";
    for i := 0 to |lines|
      invariant seen == Concat(lines[..i])
      invariant Scanned(seen, detectedStyle, mixedStyles)
      invariant borderLines == BorderLines(lines[..i])
      invariant borderLines == [] ==> detectedStyle.None? && !mixedStyles && TableLines(lines[..i]) == []
    {
      assert lines[..i + 1][..i] == lines[..i];
      var lineBorderChars;
      lineBorderChars, detectedStyle, mixedStyles := ScanLine(lines[i], seen, detectedStyle, mixedStyles);
      seen := seen + lines[i];
      if lineBorderChars != {} {
        borderLines := borderLines + [(i + 1, lineBorderChars)];
      }
    }
    assert lines[..|lines|] == lines;
    if borderLines == [] {
      return ValidationResult("border_integrity", true, 1.0, "No border characters found", NoDetails);
    }
    var issues: seq<string> := [];
    if mixedStyles {
      issues := issues + ["Mixed border styles detected"];
    }
    var tableLines := TableLines(lines);
    if |tableLines| >= 3 {
      var widths := Widths(tableLines);
      if |UniqueWidths(widths)| > 2 {
        issues := issues + ["Inconsistent table row widths"];
      }
    }
    assert issues == BorderIssues(lines);
    if issues == [] {
      r := ValidationResult("border_integrity", true, 1.0,
        "Border integrity OK: " + IntToString(|borderLines|) + " border lines, style: "
          + (if detectedStyle.Some? then detectedStyle.value.Name() else "ASCII"), NoDetails);
    } else {
      r := ValidationResult("border_integrity", false, 0.5, Join(issues, "; "),
        BorderDetails(detectedStyle, |borderLines|));
    }
  }

  // ---------------------------------------------------------------- summary

  /** One entry of the `checks` list of the summary. */
  datatype CheckEntry = CheckEntry(name: string, passed: bool, score: real, message: string)

  /** The dictionary `validation_summary` returns. */
  datatype Summary = Summary(totalChecks: nat, passed: nat, failed: int, passRate: real,
                             averageScore: real, overallGrade: string, checks: seq<CheckEntry>)

  /** The number of passed results; all passed exactly when it is the length. */
  function CountPassed(results: seq<ValidationResult>): (n: nat)
    ensures n <= |results|
    ensures n == |results| <==> forall i :: 0 <= i < |results| ==> results[i].passed
  {
    if results == [] then 0
    else CountPassed(results[..|results| - 1]) + (if results[|results| - 1].passed then 1 else 0)
  }

  /** `sum(r.score for r in results)` */
  function SumScores(results: seq<ValidationResult>): real {
    if results == [] then 0.0 else SumScores(results[..|results| - 1]) + results[|results| - 1].score
  }

  /** The pass rate lies in [0, 1] and is 1 exactly when every check passed. */
  lemma PassRateRange(passed: nat, total: nat)
    requires passed <= total
    ensures total > 0 ==> 0.0 <= passed as real / total as real <= 1.0
    ensures total > 0 ==> (passed as real / total as real == 1.0 <==> passed == total)
  {
    if total > 0 {
      DivAtMost(passed as real, total as real, 1.0);
      DivAtMost(passed as real, total as real, 0.0);
      var q := passed as real / total as real;
      assert q * total as real == passed as real;
    }
  }

  /**
   * `validation_summary`: passed and failed add up to the total, the grade is PASS
   * exactly when every check passed (so also for no checks, where the rates are 0.0),
   * and the entries follow the results in order.
   */
  function ValidationSummary(results: seq<ValidationResult>): (s: Summary)
    ensures s.totalChecks == |results| && s.passed + s.failed == s.totalChecks && s.failed >= 0
    ensures s.overallGrade == "PASS" <==> forall i :: 0 <= i < |results| ==> results[i].passed
    ensures s.overallGrade == "PASS" || s.overallGrade == "FAIL"
    ensures s.passed == CountPassed(results)
    ensures results == [] ==> s.passRate == 0.0 && s.averageScore == 0.0
    ensures results != [] ==> s.passRate == CountPassed(results) as real / |results| as real
    ensures results != [] ==> s.averageScore == SumScores(results) / |results| as real
    ensures 0.0 <= s.passRate <= 1.0
    ensures results != [] ==> (s.passRate == 1.0 <==> s.overallGrade == "PASS")
    ensures |s.checks| == |results| && forall i :: 0 <= i < |results| ==>
      s.checks[i] == CheckEntry(results[i].checkName, results[i].passed, results[i].score, results[i].message)
  {
    var total := |results|;
    var passed := CountPassed(results);
    var rate := if total > 0 then passed as real / total as real else 0.0;
    PassRateRange(passed, total);
    Summary(total, passed, total - passed, rate,
            if total > 0 then SumScores(results) / total as real else 0.0,
            if passed == total then "PASS" else "FAIL",
            seq(|results|, i requires 0 <= i < |results| =>
              CheckEntry(results[i].checkName, results[i].passed, results[i].score, results[i].message)))
  }
}
