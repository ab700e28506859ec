/** The glyph tables and style packs of the character library. */
module Charlib {

  /** One box-drawing style: the edge glyphs and the four corners. */
  datatype BoxGlyphs = BoxGlyphs(h: char, v: char, tl: char, tr: char, bl: char, br: char)
  {
    /** The six glyphs in the order h, v, tl, tr, bl, br. */
    function Glyphs(): seq<char> {
      [h, v, tl, tr, bl, br]
    }

    predicate Distinct() {
      forall i, j :: 0 <= i < j < 6 ==> Glyphs()[i] != Glyphs()[j]
    }

    predicate SharesNoGlyphWith(other: BoxGlyphs) {
      forall i, j :: 0 <= i < 6 && 0 <= j < 6 ==> Glyphs()[i] != other.Glyphs()[j]
    }
  }

  /** A named rendering style: frame glyphs, bar fill, empty cell and ruler tick. */
  datatype StylePack = StylePack(frame: BoxGlyphs, fill: char, empty: char, ruler: char)

  const FullBlock: char := '█'

  const Single := BoxGlyphs('─', '│', '┌', '┐', '└', '┘')
  const Double := BoxGlyphs('═', '║', '╔', '╗', '╚', '╝')
  const Heavy := BoxGlyphs('━', '┃', '┏', '┓', '┗', '┛')

  const UnicodeBox: map<string, BoxGlyphs> :=
    map["single" := Single, "double" := Double, "heavy" := Heavy]

  const AsciiSimple := BoxGlyphs('-', '|', '+', '+', '+', '+')
  const AsciiBox: map<string, BoxGlyphs> := map["simple" := AsciiSimple]

  const Rulers: map<string, char> := map["pipe" := '|', "dash" := '-', "plus" := '+']

  const MinimalAscii := StylePack(AsciiSimple, '=', ' ', '|')

  const StylePacks: map<string, StylePack> := map[
    "minimal_ascii" := MinimalAscii,
    "bold_unicode" := StylePack(Heavy, '█', '░', '|'),
    "double_frame" := StylePack(Double, '▓', '░', '+'),
    "hatch_fill" := StylePack(Single, '║', ' ', '-')
  ]

  /** `get_style_pack`: the named pack, or `minimal_ascii` for any other name. */
  function GetStylePack(name: string): (r: StylePack)
    ensures name in StylePacks ==> r == StylePacks[name]
    ensures name !in StylePacks ==> r == StylePacks["minimal_ascii"]
    ensures r in StylePacks.Values
  {
    if name in StylePacks then StylePacks[name] else MinimalAscii
  }

  /** Each Unicode style has six different glyphs and no two styles share one. */
  lemma UnicodeStylesDistinct()
    ensures forall s :: s in UnicodeBox ==> UnicodeBox[s].Distinct()
    ensures Single.SharesNoGlyphWith(Double)
    ensures Single.SharesNoGlyphWith(Heavy)
    ensures Double.SharesNoGlyphWith(Heavy)
  {
    assert UnicodeBox.Keys == {"single", "double", "heavy"};
  }

  /** The ASCII box has `+` at all four corners. */
  lemma AsciiCorners()
    ensures var b := AsciiBox["simple"]; b.tl == b.tr == b.bl == b.br == '+'
  {
  }

  /** Whatever name is asked for, the pack's ruler and frame come from the tables. */
  lemma StylePackParts(name: string)
    ensures GetStylePack(name).ruler in Rulers.Values
    ensures GetStylePack(name).frame in UnicodeBox.Values + AsciiBox.Values
  {
    assert Rulers["pipe"] == '|' && Rulers["plus"] == '+' && Rulers["dash"] == '-';
    assert UnicodeBox["single"] == Single && UnicodeBox["double"] == Double;
    assert UnicodeBox["heavy"] == Heavy && AsciiBox["simple"] == AsciiSimple;
  }
}
