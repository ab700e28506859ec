/**
 * The quality-control pass over a rendered block: equal widths of the
 * non-blank lines, the bar-proportion flag, the corner-symmetry heuristic
 * for frames, and the one-line footer that reports them.
 */
module Qc {
  import opened Wrappers
  import opened Strings
  import Validators

  /**
   * `validate_row_widths` (qc): true when no line is non-blank, and otherwise
   * exactly when the non-blank lines have a single width.
   */
  function ValidateRowWidths(lines: seq<string>): (ok: bool)
    ensures ok <==> Validators.SameWidth(Validators.Applicable(lines, true))
  {
    var nonEmpty := Validators.Applicable(lines, true);
    if nonEmpty == [] then true
    else
      Validators.SingleWidthIff(Validators.Widths(nonEmpty));
      assert Validators.SameWidth(nonEmpty) <==> forall i :: 0 <= i < |nonEmpty| ==> |nonEmpty[i]| == |nonEmpty[0]|;
      |Validators.UniqueWidths(Validators.Widths(nonEmpty))| == 1
  }

  /** The `frame_chars` set of `qc_block`; the closing bottom corners are not in it. */
  predicate IsFrameChar(c: char) {
    c in "┌┏╔+│┃║|┐┓╗└┗╚─━═-"
  }

  predicate StartsTop(line: string) {
    |line| > 0 && line[0] in "┌┏╔+"
  }

  predicate EndsTop(line: string) {
    |line| > 0 && line[|line| - 1] in "┐┓╗+"
  }

  predicate StartsBottom(line: string) {
    |line| > 0 && line[0] in "└┗╚+"
  }

  predicate EndsBottom(line: string) {
    |line| > 0 && line[|line| - 1] in "┘┛╝+"
  }

  /** `any(c in frame_chars for c in line)` */
  predicate HasFrameChar(line: string) {
    exists k :: 0 <= k < |line| && IsFrameChar(line[k])
  }

  /** A line the heuristic flags: non-empty, with a frame character, opened but not closed. */
  predicate Flagged(line: string) {
    && line != []
    && HasFrameChar(line)
    && ((StartsTop(line) && !EndsTop(line)) || (StartsBottom(line) && !EndsBottom(line)))
  }

  /**
   * The frame-character test never decides: every opening glyph is itself a frame
   * character, so a line is flagged exactly when it opens a top or bottom edge it
   * does not close; a line starting with any other character is never flagged.
   */
  lemma FlaggedIff(line: string)
    ensures Flagged(line) <==> (StartsTop(line) && !EndsTop(line)) || (StartsBottom(line) && !EndsBottom(line))
    ensures line != [] && line[0] !in "┌┏╔+└┗╚" ==> !Flagged(line)
  {
    if StartsTop(line) || StartsBottom(line) {
      assert IsFrameChar(line[0]);
    }
  }

  /** The dictionary `qc_block` returns. */
  type QcFlags = map<string, bool>

  const QcKeys: set<string> := {"width_ok", "proportions_ok", "borders_ok"}

  /**
   * `qc_block` on the lines of `text`. The float-valued proportion check is the
   * parameter `barProportions`, consulted only when both `data` and `width` are given.
   */
  method QcBlock(text: string, data: Option<seq<real>>, width: Option<int>,
                 barProportions: (seq<string>, seq<real>, int) -> bool) returns (out: QcFlags)
    ensures out.Keys == QcKeys
    ensures out["width_ok"] == ValidateRowWidths(SplitLines(text))
    ensures data.None? || width.None? ==> out["proportions_ok"]
    ensures data.Some? && width.Some? ==>
      out["proportions_ok"] == barProportions(SplitLines(text), data.value, width.value)
    ensures !out["borders_ok"] <==> exists i :: 0 <= i < |SplitLines(text)| && Flagged(SplitLines(text)[i])
  {
    var lines := SplitLines(text);
    assert "width_ok" != "proportions_ok" && "width_ok" != "borders_ok" && "proportions_ok" != "borders_ok";
    out := map["width_ok" := true, "proportions_ok" := true, "borders_ok" := true];
    if !ValidateRowWidths(lines) {
      out := out["width_ok" := false];
    }
    if data.Some? && width.Some? {
      if !barProportions(lines, data.value, width.value) {
        out := out["proportions_ok" := false];
      }
    }
    var bordersOk := BordersOk(lines);
    if !bordersOk {
      out := out["borders_ok" := false];
    }
  }

  /** The border loop of `qc_block`: false at the first flagged line. */
  method BordersOk(lines: seq<string>) returns (ok: bool)
    ensures !ok <==> exists i :: 0 <= i < |lines| && Flagged(lines[i])
  {
    ok := true;
    var i := 0;
    while i < |lines|
      invariant 0 <= i <= |lines|
      invariant forall j :: 0 <= j < i ==> !Flagged(lines[j])
    {
      var flagged := CheckLine(lines[i]);
      if flagged {
        ok := false;
        break;
      }
      i := i + 1;
    }
  }

  /** The body of the border loop: the two corner tests on a non-empty line with a frame character. */
  method CheckLine(line: string) returns (flagged: bool)
    ensures flagged == Flagged(line)
  {
    flagged := false;
    if line != [] && HasFrameChar(line) {
      if StartsTop(line) && !EndsTop(line) {
        flagged := true;
      } else if StartsBottom(line) && !EndsBottom(line) {
        flagged := true;
      }
    }
  }

  /** `qc.get(key, True)` */
  function Flag(qc: QcFlags, key: string): (b: bool)
    ensures key !in qc ==> b
    ensures key in qc ==> b == qc[key]
  {
    if key in qc then qc[key] else true
  }

  /** The footer up to the widths list. */
  function FooterHead(qc: QcFlags, expectedWidth: int): string {
    "QC: width_ok=" + BoolToString(Flag(qc, "width_ok")) + " expected=" + IntToString(expectedWidth) + " widths="
  }

  /** The footer after the widths list. */
  function FooterTail(qc: QcFlags, seed: string): string {
    " math_ok=" + BoolToString(Flag(qc, "proportions_ok")) + " borders_ok=" + BoolToString(Flag(qc, "borders_ok"))
      + (" seed=" + seed)
  }

  /** `qc_footer`: the three flags, the expected width, the widths list and the seed on one line. */
  function QcFooter(qc: QcFlags, expectedWidth: int, widthsList: seq<int>, seed: string): string {
    FooterHead(qc, expectedWidth) + IntListToString(widthsList) + FooterTail(qc, seed)
  }

  /** A missing flag is reported as `True`: the footer of no flags is the footer of all-true flags. */
  lemma QcFooterDefaults(expectedWidth: int, widthsList: seq<int>, seed: string)
    ensures QcFooter(map[], expectedWidth, widthsList, seed)
      == QcFooter(map["width_ok" := true, "proportions_ok" := true, "borders_ok" := true],
                  expectedWidth, widthsList, seed)
  {
  }

  /**
   * The footer read back piece by piece: the width flag and the expected width,
   * then the widths list verbatim right after " widths=", then the proportions
   * flag as `math_ok` and the borders flag, and last the seed verbatim.
   */
  lemma QcFooterFields(qc: QcFlags, expectedWidth: int, widthsList: seq<int>, seed: string)
    ensures var r := QcFooter(qc, expectedWidth, widthsList, seed);
      var head := "QC: width_ok=" + BoolToString(Flag(qc, "width_ok")) + " expected="
        + IntToString(expectedWidth) + " widths=";
      var list := IntListToString(widthsList);
      var flags := " math_ok=" + BoolToString(Flag(qc, "proportions_ok")) + " borders_ok="
        + BoolToString(Flag(qc, "borders_ok"));
      && |r| == |head| + |list| + |flags| + |" seed=" + seed|
      && r[..|head|] == head
      && r[|head|..|head| + |list|] == list
      && r[|head| + |list|..|head| + |list| + |flags|] == flags
      && StartsWith(r, head + "[")
      && EndsWith(r, " seed=" + seed)
  {
    var head := FooterHead(qc, expectedWidth);
    var list := IntListToString(widthsList);
    var flags := " math_ok=" + BoolToString(Flag(qc, "proportions_ok")) + " borders_ok="
      + BoolToString(Flag(qc, "borders_ok"));
    var tail := " seed=" + seed;
    assert FooterTail(qc, seed) == flags + tail;
    FooterParts(head, list, flags, tail);
  }

  /** A footer made of a head, a bracketed list, the flags and a tail: each part can be read back off it. */
  lemma FooterParts(head: string, l: string, x: string, tail: string)
    requires |l| >= 1 && l[0] == '['
    ensures var r := head + l + (x + tail);
      && r[..|head|] == head
      && r[|head|..|head| + |l|] == l
      && r[|head| + |l|..|head| + |l| + |x|] == x
      && StartsWith(r, head + "[")
      && EndsWith(r, tail)
  {
    var r := head + l + (x + tail);
    assert r == head + l + x + tail;
    Parts3(head + l, x, tail);
    Parts3(head, l, x + tail);
    assert r[|r| - |tail|..] == tail;
    assert r[..|head| + 1] == head + [l[0]];
  }
}
