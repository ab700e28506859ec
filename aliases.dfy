/** Label aliasing: CJK and emoji labels mapped to ASCII names, and unit symbols. */
module Aliases {
  import opened Strings

  const LabelAliasesCjk: map<string, string> := map[
    "温度" := "ONDO", "経路" := "ROUTE", "顧客" := "CUSTOMER", "速度" := "SPEED",
    "時間" := "TIME", "数量" := "QTY", "最大" := "MAX"
  ]

  /** The heart key is two code points: U+2764 followed by the variation selector U+FE0F. */
  const Heart: string := "\U{2764}\U{FE0F}"

  const EmojiToAscii: map<string, string> := map[
    "\U{1F525}" := "FIRE", "\U{1F4A7}" := "WATER", "\U{1F333}" := "TREE",
    "\U{26A1}" := "ELEC", Heart := "HEART", "\U{1F680}" := "ROCKET",
    "\U{1F4E6}" := "BOX", "\U{1F40D}" := "PYTHON"
  ]

  const MetricUnits: map<string, string> :=
    map["ms" := "milliseconds", "s" := "seconds", "m" := "minutes", "h" := "hours"]
  const DataUnits: map<string, string> :=
    map["B" := "bytes", "KB" := "kilobytes", "MB" := "megabytes", "GB" := "gigabytes",
        "TB" := "terabytes"]
  const CurrencyUnits: map<string, string> :=
    map["USD" := "$", "EUR" := "€", "JPY" := "¥", "GBP" := "£"]

  // ---------------------------------------------------------------- detection

  /** The CJK class: unified ideographs, kana, Hangul syllables. */
  predicate IsCjk(c: char) {
    var n := c as int;
    (0x4E00 <= n <= 0x9FFF) || (0x3040 <= n <= 0x30FF) || (0xAC00 <= n <= 0xD7AF)
  }

  /** The emoji class: U+1F000..U+1FAFF and the miscellaneous symbols U+2600..U+27BF. */
  predicate IsEmoji(c: char) {
    var n := c as int;
    (0x1F000 <= n <= 0x1FAFF) || (0x2600 <= n <= 0x27BF)
  }

  /** `contains_cjk_or_emoji`: one search for each class. */
  function ContainsCjkOrEmoji(s: string): (r: bool)
    ensures r <==> exists i :: 0 <= i < |s| && (IsCjk(s[i]) || IsEmoji(s[i]))
  {
    (exists i :: 0 <= i < |s| && IsCjk(s[i])) || (exists i :: 0 <= i < |s| && IsEmoji(s[i]))
  }

  // ---------------------------------------------------------------- aliasing

  /** The replacement of one character: its emoji name, or the character itself. */
  function AliasChar(c: char): string {
    if [c] in EmojiToAscii then EmojiToAscii[[c]] else [c]
  }

  /** The per-character replacement of a whole label, joined. */
  function Aliased(s: string): string {
    if s == [] then "" else Aliased(s[..|s| - 1]) + AliasChar(s[|s| - 1])
  }

  /** What `alias_label` returns for `lbl`, for use in specifications. */
  function AliasOf(lbl: string): string {
    if lbl in LabelAliasesCjk then LabelAliasesCjk[lbl] else Aliased(lbl)
  }

  /** `alias_label`: an exact CJK key maps to its entry; otherwise each emoji character is renamed. */
  method AliasLabel(lbl: string) returns (r: string)
    ensures lbl in LabelAliasesCjk ==> r == LabelAliasesCjk[lbl]
    ensures lbl !in LabelAliasesCjk ==> r == Aliased(lbl)
    ensures r == AliasOf(lbl)
  {
    if lbl in LabelAliasesCjk {
      return LabelAliasesCjk[lbl];
    }
    var out: seq<string> := [];
    var i := 0;
    while i < |lbl|
      invariant 0 <= i <= |lbl|
      invariant Concat(out) == Aliased(lbl[..i])
    {
      assert (out + [AliasChar(lbl[i])])[..|out|] == out;
      assert lbl[..i + 1][..i] == lbl[..i];
      out := out + [AliasChar(lbl[i])];
      i := i + 1;
    }
    assert lbl[..i] == lbl;
    r := Concat(out);
  }

  /** A character in neither the CJK nor the emoji class. */
  predicate PlainChar(c: char) {
    !IsCjk(c) && !IsEmoji(c)
  }

  /** Aliasing leaves plain characters alone and renames only the one-character keys. */
  lemma {:induction false} AliasedKeepsPlain(s: string)
    requires forall i :: 0 <= i < |s| ==> [s[i]] !in EmojiToAscii
    ensures Aliased(s) == s
  {
    if s != [] {
      AliasedKeepsPlain(s[..|s| - 1]);
      assert s[..|s| - 1] + [s[|s| - 1]] == s;
    }
  }

  /** The emoji names are ASCII, so renaming removes every emoji that is a one-character key. */
  lemma {:induction false} AliasedIsPlain(s: string)
    requires forall i :: 0 <= i < |s| ==> PlainChar(s[i]) || [s[i]] in EmojiToAscii
    ensures !ContainsCjkOrEmoji(Aliased(s))
  {
    if s != [] {
      var init, last := s[..|s| - 1], s[|s| - 1];
      AliasedIsPlain(init);
      var tail := AliasChar(last);
      assert forall i :: 0 <= i < |tail| ==> PlainChar(tail[i]) by {
        if [last] in EmojiToAscii {
          assert [last] in {"\U{1F525}", "\U{1F4A7}", "\U{1F333}", "\U{26A1}", "\U{1F680}",
                            "\U{1F4E6}", "\U{1F40D}"};
        }
      }
      var a := Aliased(init);
      assert Aliased(s) == a + tail;
      forall i | 0 <= i < |a + tail| ensures PlainChar((a + tail)[i]) {
        if i >= |a| { assert (a + tail)[i] == tail[i - |a|]; }
      }
    }
  }

  /**
   * The heart key is two code points, while the replacement looks up one code
   * point at a time: aliasing the heart keeps it as it is, never "HEART".
   */
  lemma AliasedKeepsHeart()
    ensures Heart !in LabelAliasesCjk
    ensures Aliased(Heart) == Heart
  {
    assert ['\U{2764}'] !in EmojiToAscii && ['\U{FE0F}'] !in EmojiToAscii;
    AliasedKeepsPlain(Heart);
  }

  // ---------------------------------------------------------------- units

  /** `unit_symbol`: "%" passes; then the currency, metric and data tables in that order. */
  method UnitSymbol(unit: string) returns (r: string)
    ensures unit == "%" ==> r == "%"
    ensures unit != "%" && unit in CurrencyUnits ==> r == CurrencyUnits[unit]
    ensures unit != "%" && unit !in CurrencyUnits && unit in MetricUnits ==> r == MetricUnits[unit]
    ensures unit != "%" && unit !in CurrencyUnits && unit !in MetricUnits && unit in DataUnits
      ==> r == DataUnits[unit]
    ensures unit !in CurrencyUnits && unit !in MetricUnits && unit !in DataUnits ==> r == unit
  {
    if unit == "%" {
      return "%";
    }
    var tables := [CurrencyUnits, MetricUnits, DataUnits];
    var k := 0;
    while k < |tables|
      invariant 0 <= k <= |tables|
      invariant forall j :: 0 <= j < k ==> unit !in tables[j]
    {
      if unit in tables[k] {
        return tables[k][unit];
      }
      k := k + 1;
    }
    assert unit !in tables[0] && unit !in tables[1] && unit !in tables[2];
    return unit;
  }

  /** No unit name is in two tables, so the lookup order never changes a result. */
  lemma UnitTablesDisjoint()
    ensures CurrencyUnits.Keys !! MetricUnits.Keys
    ensures CurrencyUnits.Keys !! DataUnits.Keys
    ensures MetricUnits.Keys !! DataUnits.Keys
  {
  }
}
