# ascii-vibe core in Dafny

A model of the core of ascii-vibe, a toolkit that renders data as fixed-width
"Swiss style" ASCII and Unicode text: horizontal bar charts, full-block bands,
sparklines, braided separators and procedural borders. It also models the
checks that keep that text well formed: equal row widths, line lengths,
border-style consistency, a corner-symmetry heuristic, and the quality-control
footer.

The project has one module per source file:

- `Validators` for `src/ascii_vibe/validators.py`.
- `Qc` for `src/ascii_vibe/qc.py`.
- `Procgen` for `src/ascii_vibe/procgen.py`.
- `Numbers` for `src/ascii_vibe/numbers.py`.
- `Renderer` for `src/ascii_vibe/renderer.py`.
- `SwissRenderer` for the top-level `renderer.py`.
- `Crawler` for the URL filter of `src/ascii_vibe/crawler/crawler.py`.
- `Aliases`, `Charlib` and `Governance` for the lookup tables and the run policy.

Two shared modules sit beside them:

- `Strings` holds the Python string built-ins the source relies on: `strip`, `ljust`, `rjust`, `center`, slicing, `splitlines`, `str` of an integer, `join` and ASCII `upper`.
- `Wrappers` holds `Option` and a `Result` whose error side names the Python exception raised.

Code that loops in the source is modelled as methods with loop invariants. Each such method is proved equal to a specification function, and the properties are proved about those functions as lemmas:

- the Levenshtein table;
- the grouping of thousands;
- the generator loops;
- the ruler, which is built in an array;
- the row loops of the renderers.

The xorshift32 step works on a `bv32` word. A Python dictionary becomes a map, or a sequence of pairs when its insertion order matters. Floats become exact `real` values. Python's `round` is modelled as rounding half to even, and `_round_half_up` as `floor(x + 0.5)`.

## Model

| member | source | states |
|---|---|---|
| Validators.Min3 | src/ascii_vibe/validators.py:268 | the minimum of the three candidate costs is one of them and below each |
| Validators.LevStep | src/ascii_vibe/validators.py:261-269 | the distance of two one-longer prefixes follows the insert/delete/substitute recurrence of one table cell |
| Validators.Lev | src/ascii_vibe/validators.py:253-271 | the reference edit distance: recursive over the last characters, taking the cheapest of deleting, inserting and substituting (free for equal characters); `Validators.LevenshteinDistance` is proved to return it, and the Lev lemmas state its properties |
| Validators.LevSymmetric | src/ascii_vibe/validators.py:255-256 | the distance does not depend on the order of the arguments, so swapping them for the longer-first call changes nothing |
| Validators.LevEmpty | src/ascii_vibe/validators.py:258-259 | against the empty string the distance is the other string's length, in either order |
| Validators.LevSelf | src/ascii_vibe/validators.py:261-271 | a string is at distance 0 from itself |
| Validators.LevBounds | src/ascii_vibe/validators.py:261-271 | the distance is at least the difference of the lengths and at most the larger length |
| Validators.LevZeroIff | src/ascii_vibe/validators.py:261-271 | the distance is 0 exactly when the strings are equal |
| Validators.NextRow | src/ascii_vibe/validators.py:262-269 | from the table row of a prefix of `s1`, one pass computes the row of the prefix one longer, cell by cell equal to the recursive distance |
| Validators.NextCell | src/ascii_vibe/validators.py:265-268 | the minimum of insertion, deletion and substitution over the three neighbouring cells is the distance of the two prefixes |
| Validators.LevenshteinDistance | src/ascii_vibe/validators.py:253-271 | the two-row dynamic program returns the recursive edit distance |
| Validators.Applicable | src/ascii_vibe/validators.py:23-30 | the filtered lines are a sub-list of the input |
| Validators.ApplicableMembers | src/ascii_vibe/validators.py:24-30 | a line is kept exactly when it is in the input and is not skipped as blank while blank lines are allowed |
| Validators.Widths | src/ascii_vibe/validators.py:35 | entry `i` of the widths is the length of line `i` |
| Validators.SingleWidthIff | src/ascii_vibe/validators.py:36-38 | a non-empty list of widths has one distinct value exactly when all its entries equal the first |
| Strings.ListMin | src/ascii_vibe/validators.py:44 | `min` of a non-empty integer list, here the widths, is one of its entries and at most each |
| Strings.ListMax | src/ascii_vibe/validators.py:44 | `max` of a non-empty integer list, here the widths, is one of its entries and at least each |
| Validators.ValidateRowWidths | src/ascii_vibe/validators.py:18-49 | passes on no lines and on no applicable lines, and otherwise exactly when every applicable line has one width; score 1.0 or 0.0; the two early messages; on a pass, the message with the line count and the common width; on a mismatch, the message with the number of distinct widths, the minimum and the maximum, and details with the widths and the set of distinct widths |
| Validators.TallyCounts | src/ascii_vibe/validators.py:56-73 | one violation message per short or long line, no more violations than content lines, and the content count is the number of non-blank lines |
| Validators.ScoreThreshold | src/ascii_vibe/validators.py:81-83 | with some violations, the score `1 - t/c` lies in [0, 1) and reaches 0.9 exactly when at most a tenth of the content lines violate |
| Validators.CountLineLengths | src/ascii_vibe/validators.py:56-70 | the counting loop returns the tally of short lines, long lines and their messages |
| Validators.ValidateLineLength | src/ascii_vibe/validators.py:51-86 | no lines or no violations pass with 1.0; otherwise the score is `max(0, 1 - t/c)` and the check passes exactly when the score is at least 0.9 |
| Validators.StyleOf | src/ascii_vibe/validators.py:196-200 | a character has a Unicode style exactly when it is a glyph of that box set, and the three sets are the single, heavy and double boxes |
| Validators.AsciiHasNoStyle | src/ascii_vibe/validators.py:201-216 | the ASCII border characters `-`, `\|` and `+` never set a style |
| Validators.FirstStyleIn | src/ascii_vibe/validators.py:204-220 | the first style met is one of the styles of the text, and there is none exactly when the text has no Unicode box glyph |
| Validators.ScanStep | src/ascii_vibe/validators.py:214-220 | one styled character sets the detected style when none is set, and marks mixing exactly when it differs from the detected one |
| Validators.ScanLine | src/ascii_vibe/validators.py:209-223 | the scan of one line collects its border characters and keeps the style state true of all text read so far |
| Validators.TableLines | src/ascii_vibe/validators.py:234 | every kept line holds a table bar |
| Validators.ValidateBorderIntegrity | src/ascii_vibe/validators.py:190-251 | passes with 1.0 and "No lines to validate" on no lines, and with "No border characters found" when no line has a border character; otherwise fails, with score 0.5, the joined issue messages and the details, exactly when glyphs of two Unicode styles occur or three or more table lines have more than two widths, and passes with 1.0 and the count of border lines and the first style met |
| Validators.CountPassed | src/ascii_vibe/validators.py:354 | the passed count is at most the total, and equals it exactly when every result passed |
| Validators.PassRateRange | src/ascii_vibe/validators.py:363 | the pass rate lies in [0, 1] and is 1 exactly when every check passed |
| Validators.ValidationSummary | src/ascii_vibe/validators.py:351-375 | the passed count is the number of passing results and passed plus failed is the total; the pass rate is that count over the total and the average score the sum of the scores over it, both 0.0 for no checks; the grade is PASS exactly when every check passed, also for no checks; the entries follow the results in order |
| Qc.ValidateRowWidths | src/ascii_vibe/qc.py:4-9 | true exactly when the non-blank lines all have one width, so also when there are none |
| Qc.FlaggedIff | src/ascii_vibe/qc.py:49-58 | a line is flagged exactly when it opens a top or bottom edge that it does not close; a line starting with any other character is never flagged |
| Qc.QcBlock | src/ascii_vibe/qc.py:31-60 | exactly the three keys; the width flag is the row-width check; the proportions flag stays true unless both data and width are given; the borders flag is false exactly when some line is flagged |
| Qc.BordersOk | src/ascii_vibe/qc.py:49-58 | the loop with its early break is false exactly when some line is flagged |
| Qc.CheckLine | src/ascii_vibe/qc.py:51-58 | the two corner tests on a non-empty line with a frame character flag exactly the flagged lines |
| Qc.Flag | src/ascii_vibe/qc.py:64-66 | a missing key reads as true, and a present key as its value |
| Qc.QcFooter | src/ascii_vibe/qc.py:62-67 | `qc_footer`: the width flag, the expected width, the widths list, the proportions flag as `math_ok`, the borders flag and the seed on one line, a missing flag printed as `True`; `Qc.QcFooterDefaults` and `Qc.QcFooterFields` state its properties |
| Qc.QcFooterDefaults | src/ascii_vibe/qc.py:62-67 | the footer of no flags equals the footer of three true flags |
| Qc.QcFooterFields | src/ascii_vibe/qc.py:62-67 | the footer is read back piece by piece: the width flag and the expected width, then the widths list verbatim right after ` widths=`, then the proportions flag as `math_ok` and the borders flag, and last ` seed=` and the seed verbatim, the parts adding up to the whole length |
| Procgen.Xorshift32 | src/ascii_vibe/procgen.py:4-10 | `xorshift32`: the three shift-xor steps on the low 32 bits of the seed, each masked to 32 bits; `Procgen.Xorshift32Inverse` and `Procgen.Xorshift32LowBits` state its properties |
| Procgen.StepInverse | src/ascii_vibe/procgen.py:6-10 | each of the three shift-xor steps can be undone, so one generator step is a bijection on 32-bit words |
| Procgen.StepZeroIff | src/ascii_vibe/procgen.py:6-10 | the step maps 0, and only 0, to 0 |
| Procgen.Xorshift32Inverse | src/ascii_vibe/procgen.py:4-10 | `xorshift32` can be inverted back to the low word of the seed, and returns 0 exactly when that word is 0 |
| Procgen.Xorshift32LowBits | src/ascii_vibe/procgen.py:6 | seeds that differ by a multiple of 2^32 give the same output |
| Procgen.NextFacts | src/ascii_vibe/procgen.py:4-10 | one step lands in [0, 2^32), and gives 0 exactly from a state whose low word is 0 |
| Procgen.StateAfterNext | src/ascii_vibe/procgen.py:16-18 | the state after one more step is `xorshift32` of the state before it |
| Procgen.StateAfterAdd | src/ascii_vibe/procgen.py:12-19 | `a` steps followed by `b` more are `a + b` steps, so a stream can be resumed from any state |
| Procgen.StateAfterZeroIff | src/ascii_vibe/procgen.py:12-19 | every state reached by at least one step lies in [0, 2^32), and is 0 exactly when the seed's low word is 0 |
| Procgen.RandSequence | src/ascii_vibe/procgen.py:12-19 | `count` values, or none for a count that is not positive; the first is `xorshift32(seed)` and each next one is `xorshift32` of the one before |
| Procgen.Palette | src/ascii_vibe/procgen.py:21-22 | both palettes have at least two entries |
| Procgen.RoundHalfEven | src/ascii_vibe/procgen.py:44 | Python's `round` lands within one half of its argument |
| Procgen.RoundHalfEvenBetween | src/ascii_vibe/procgen.py:44 | a value between two integers rounds to an integer between them, and an integral end rounds to itself |
| Procgen.Clamp | src/ascii_vibe/procgen.py:45 | the clamped index lies in the range and equals the index when it already did |
| Procgen.MinOf | src/ascii_vibe/procgen.py:32 | `min` is one of the values and at most each |
| Procgen.MaxOf | src/ascii_vibe/procgen.py:32 | `max` is one of the values and at least each |
| Procgen.BaseIndex | src/ascii_vibe/procgen.py:43-45 | the index before variation is always inside the palette |
| Procgen.SparkIndex | src/ascii_vibe/procgen.py:47-53 | the seeded variation keeps the index inside the palette and moves it by at most one; without a seed it changes nothing |
| Procgen.Vary | src/ascii_vibe/procgen.py:48-53 | the variation step of the loop computes the seeded index |
| Procgen.BaseIndexMonotone | src/ascii_vibe/procgen.py:43-45 | a larger value never gets a lower palette index |
| Procgen.BaseIndexEnds | src/ascii_vibe/procgen.py:43-45 | the minimum maps to the first palette entry and the maximum to the last |
| Procgen.Sparkline | src/ascii_vibe/procgen.py:24-57 | one palette character per value, so "" for no values; equal values give the first entry repeated; otherwise character `i` is the palette entry at the varied index of value `i` |
| Procgen.SparkChars | src/ascii_vibe/procgen.py:41-57 | the loop emits the palette character at the varied index of each value |
| Procgen.BraidGlyphs | src/ascii_vibe/procgen.py:64 | the two slash glyphs differ |
| Procgen.BraidCharBreaks | src/ascii_vibe/procgen.py:76-79 | a seeded glyph is one of the pair, and breaks the alternation exactly when its draw is divisible by 20 |
| Procgen.Braid | src/ascii_vibe/procgen.py:59-81 | "" for a width that is not positive, otherwise `width` glyphs; unseeded they alternate starting with the first glyph; seeded, glyph `i` depends on draw `i + 1` of the generator |
| Procgen.BraidShape | src/ascii_vibe/procgen.py:71-81 | every seeded glyph is one of the pair, and it breaks the alternation exactly where the draw is divisible by 20 |
| Procgen.Threshold | src/ascii_vibe/procgen.py:92-93 | the threshold of the clamped density lies in [0, 0xFFFFFFFF] |
| Procgen.DensityField | src/ascii_vibe/procgen.py:83-106 | [] when a side is not positive, otherwise `height` rows of `width` cells; cell (y, x) is filled exactly when draw `y*width + x + 1` is below the threshold |
| Procgen.BorderCellRegions | src/ascii_vibe/procgen.py:124-136 | the corners are the corner glyph; the side cells of the middle rows are the vertical glyph; interior cells are spaces; edge cells are horizontal or rough, and horizontal unless the style is "rough" |
| Procgen.ProceduralBorder | src/ascii_vibe/procgen.py:108-140 | [] below 3x3, otherwise `height` rows of `width` cells, each the border cell of its position, with the top edge using the first draws and the bottom edge the next ones |
| Procgen.UnicodeBorderCorners | src/ascii_vibe/procgen.py:116 | in Unicode mode the single corner glyph `┌` is used also at the top-right and bottom-right corners |
| Numbers.Symbol | src/ascii_vibe/numbers.py:16 | the table's symbol for a known code, and "$" for any other |
| Numbers.Grouped | src/ascii_vibe/numbers.py:28-35 | the reference grouping: a separator before each block of three digits counted from the right; `Numbers.GroupThousands` is proved to return it, and the Grouped lemmas state its properties |
| Numbers.GroupedCons | src/ascii_vibe/numbers.py:30-34 | one more leading digit adds a separator exactly when the digits after it form whole blocks of three |
| Numbers.GroupedLength | src/ascii_vibe/numbers.py:28-35 | grouping adds one separator per complete block of three after the leading digits |
| Numbers.GroupedUngroups | src/ascii_vibe/numbers.py:30-35 | deleting the separators from the grouped text gives back the digit string |
| Numbers.GroupedSeparatorPositions | src/ascii_vibe/numbers.py:30-35 | counted from the right, every fourth character of the grouped text is the separator, and only those |
| Numbers.GroupThousands | src/ascii_vibe/numbers.py:28-35 | walking the digits from the right and reversing the groups gives the grouped text |
| Numbers.GroupStep | src/ascii_vibe/numbers.py:31-34 | one turn of the loop extends the reversed grouping by one digit, with a separator before every third |
| Numbers.GroupedPrepend | src/ascii_vibe/numbers.py:31-35 | adding a digit in front, with a separator after whole blocks, extends the reversed grouping |
| Numbers.TwoDigits | src/ascii_vibe/numbers.py:20-25 | the decimal part is exactly two digits |
| Numbers.CurrencyText | src/ascii_vibe/numbers.py:14-43 | the text `format_currency` prints for an amount in cents: the symbol, the grouped integer part, a point and two decimals, parenthesised when negative; `Numbers.IntegerTextGroups`, `Numbers.CurrencyTextParenthesised` and `Numbers.UnknownCurrencyIsDollar` state its properties |
| Numbers.FormatCurrency | src/ascii_vibe/numbers.py:14-43 | the symbol, the integer part grouped only beyond three digits, a point and two decimals, with parentheses around negatives |
| Numbers.IntegerTextGroups | src/ascii_vibe/numbers.py:28-35 | the printed integer part ungroups back to the digits of the whole units; its separators, a space in ASCII mode and U+2009 otherwise, sit at every fourth place from the right; its length adds one per block |
| Numbers.CurrencyTextParenthesised | src/ascii_vibe/numbers.py:39-43 | the text opens with "(" and closes with ")" exactly when the amount is negative |
| Numbers.UnknownCurrencyIsDollar | src/ascii_vibe/numbers.py:16 | an unknown code is printed with "$", after "(" for negatives |
| Numbers.ShortAmountsUngrouped | src/ascii_vibe/numbers.py:28 | up to three digits get no separator |
| Numbers.LeadingRunSpec | src/ascii_vibe/numbers.py:79 | every character of the leading run matches, and the character after it does not |
| Numbers.TrailingRunSpec | src/ascii_vibe/numbers.py:83 | every character of the trailing run matches, and the character before it does not |
| Numbers.PrefixLength | src/ascii_vibe/numbers.py:79-80 | the prefix match fits in the text |
| Numbers.SuffixLength | src/ascii_vibe/numbers.py:83-84 | the suffix match fits in the text |
| Numbers.PrefixChars | src/ascii_vibe/numbers.py:79-80 | the prefix match is sign/currency characters and whitespace |
| Numbers.SuffixChars | src/ascii_vibe/numbers.py:83-84 | the suffix match is whitespace and `%`/`)`, and ends with one of the latter |
| Numbers.MatchPrefix | src/ascii_vibe/numbers.py:79-80 | the prefix is a prefix of the text made of the pattern's characters |
| Numbers.MatchSuffix | src/ascii_vibe/numbers.py:83-84 | the suffix is a suffix of the text made of the pattern's characters, ending with `%` or `)` when not empty |
| Numbers.Find | src/ascii_vibe/numbers.py:90-91 | the index of the first "." when there is one, and otherwise none |
| Numbers.SplitDecimalForAlign | src/ascii_vibe/numbers.py:71-94 | ("", "", "") for an empty or whitespace-only text |
| Numbers.SplitAroundReassembles | src/ascii_vibe/numbers.py:87-94 | the left part holds no "."; the parts joined, with the "." when there was one, give back the text |
| Numbers.SplitStrippedReassembles | src/ascii_vibe/numbers.py:76-94 | when the prefix and suffix matches do not overlap, the first part is the prefix match and the parts joined, with the first "." when there was one, give back the stripped text |
| Numbers.SplitStrippedOverlap | src/ascii_vibe/numbers.py:87 | when the matches overlap, the numeric part is empty and the parts are the two matches |
| Numbers.SplitDecimalStrips | src/ascii_vibe/numbers.py:73-76 | a text that is not blank is split after stripping |
| Renderer.RoundHalfUp | src/ascii_vibe/renderer.py:9-10 | `floor(x + 0.5)` is the nearest integer, with ties going up |
| Renderer.RoundHalfUpMonotone | src/ascii_vibe/renderer.py:9-10 | rounding half up never reverses an order |
| Renderer.Trunc | src/ascii_vibe/renderer.py:66 | `int(v)` truncates toward zero |
| Renderer.ScaleBarLen | src/ascii_vibe/renderer.py:12-15 | 0 when the maximum is not positive, and otherwise a length in [0, width] |
| Renderer.ScaleBarLenEnds | src/ascii_vibe/renderer.py:12-15 | the maximum gets the whole width, and a value at or below zero gets no bar |
| Renderer.ScaleBarLenMonotone | src/ascii_vibe/renderer.py:12-15 | a larger value never gets a shorter bar |
| Renderer.QuarterTick | src/ascii_vibe/renderer.py:22 | the column of tick `k` is `(k*width + 2) / 4` in integer arithmetic, clamped to the ruler |
| Renderer.Ruler | src/ascii_vibe/renderer.py:17-24 | the ruler has exactly `width` cells |
| Renderer.RulerTicks | src/ascii_vibe/renderer.py:17-24 | the first and last cells are ticks; a cell is a tick exactly when it is one of the five tick columns; every other cell is fill |
| Renderer.BuildHorizontalRuler | src/ascii_vibe/renderer.py:17-24 | the array filled and stamped is the ruler; a width that is not positive raises IndexError |
| Renderer.MaxValue | src/ascii_vibe/renderer.py:52 | `max(values)` is one of the values and at least each |
| Renderer.MaxLen | src/ascii_vibe/renderer.py:65-69 | the column width is at least each text's length and equals one of them |
| Renderer.NeedsLegend | src/ascii_vibe/renderer.py:26-27 | true exactly when some label holds a CJK or emoji character, reading the labels from the front as `any` does |
| Renderer.LegendIndex | src/ascii_vibe/renderer.py:57 | the `legend_index` dictionary over distinct labels; `Renderer.LegendIndexAt` states that each label maps to its 1-based position |
| Renderer.LegendIndexAt | src/ascii_vibe/renderer.py:57 | each label maps to its 1-based position |
| Renderer.Resolved | src/ascii_vibe/renderer.py:60-63 | one shown label per item |
| Renderer.ValueTexts | src/ascii_vibe/renderer.py:66 | one value text per item |
| Renderer.Percents | src/ascii_vibe/renderer.py:68 | one percent per item |
| Renderer.PercentTexts | src/ascii_vibe/renderer.py:69 | one percent text per percent |
| Renderer.BarLens | src/ascii_vibe/renderer.py:81 | every bar length lies between zero and the width |
| Renderer.ColumnsOf | src/ascii_vibe/renderer.py:60-69 | the four columns have one entry per item |
| Renderer.LegendLine | src/ascii_vibe/renderer.py:76 | legend row `i`: two spaces, the 1-based index, a point, a space and the label's alias |
| Renderer.LegendLines | src/ascii_vibe/renderer.py:73-76 | the legend is a heading and one row per label |
| Renderer.Bar | src/ascii_vibe/renderer.py:82 | a bar with a length in range is exactly `width` cells |
| Renderer.BarLines | src/ascii_vibe/renderer.py:79-85 | one bar row per item |
| Renderer.TickLabels | src/ascii_vibe/renderer.py:94 | five tick texts |
| Renderer.TickCells | src/ascii_vibe/renderer.py:95-101 | the tick row after `k` labels with the column counter `pos_chars`: each label padded to end at its target column, no padding when the row is already past it; `Renderer.TickCellsLayout` and `Renderer.TickRowReachesRulerEnd` state its properties |
| Renderer.TickCellsLayout | src/ascii_vibe/renderer.py:95-102 | each tick label ends at its target column unless the label before it already reaches past it, so labels never overlap and keep their order |
| Renderer.TickRowReachesRulerEnd | src/ascii_vibe/renderer.py:97-101 | the last tick label reaches at least the end of the ruler |
| Renderer.ScaleLines | src/ascii_vibe/renderer.py:88-102 | the scale is the ruler row and the tick row |
| Renderer.EffectivePack | src/ascii_vibe/renderer.py:44-46 | ASCII forcing selects `minimal_ascii`, whose fill is `=`; otherwise the requested pack is looked up |
| Renderer.LabelWidth | src/ascii_vibe/renderer.py:65 | the label column is at least 6 and at least each shown label's width |
| Renderer.BarCells | src/ascii_vibe/renderer.py:82 | cell `j` of a bar is fill before the length and a space after it |
| Renderer.BarLineParts | src/ascii_vibe/renderer.py:83-85 | the tag and the bar can be read back off a bar row at fixed offsets |
| Renderer.BarRowShape | src/ascii_vibe/renderer.py:83-85 | a row whose fields fit their columns has the columns' total length, with the tag and then the bar at fixed columns |
| Renderer.BarLinesAligned | src/ascii_vibe/renderer.py:79-85 | every bar row has the same length, opens with its padded tag, and carries its bar right after it |
| Renderer.TagPrefix | src/ascii_vibe/renderer.py:83 | a bar row starts with `[` and its shown label |
| Renderer.IndexTags | src/ascii_vibe/renderer.py:83-85 | when each shown label is its 1-based index, every bar row starts with `[` and that index |
| Renderer.LegendTags | src/ascii_vibe/renderer.py:56-85 | under a legend the bar rows are tagged with 1-based indices |
| Renderer.ScaleLinesAligned | src/ascii_vibe/renderer.py:88-102 | the ruler row is the label space plus `width` cells, and the tick row reaches at least as far |
| Renderer.AssembleLayout | src/ascii_vibe/renderer.py:71-104 | the title, the legend, the bar rows and the scale can be read back off the assembled rows in order |
| Renderer.AssembleBarRowsEqualWidth | src/ascii_vibe/renderer.py:71-104 | all bar rows of an assembled chart have one length |
| Renderer.BarLinesWidth | src/ascii_vibe/renderer.py:65-85 | every bar row is as wide as the label, bar, value and percent columns with their separators |
| Renderer.ChartLines | src/ascii_vibe/renderer.py:44-103 | the rows of a non-empty chart: the title, the legend when needed, the bar rows and the scale when shown, over the effective style pack; `Renderer.ChartLayout` and `Renderer.ChartBarRowsEqualWidth` state its properties |
| Renderer.ChartLayout | src/ascii_vibe/renderer.py:40-104 | the title; the legend exactly when a label has CJK or emoji characters; one bar row per item; then the two scale rows when the scale is shown |
| Renderer.ChartBarRowsEqualWidth | src/ascii_vibe/renderer.py:65-85 | all bar rows of a chart have one length, whatever the labels |
| Renderer.ResolveLabels | src/ascii_vibe/renderer.py:60-63 | the loop gives the 1-based index under a legend and the alias otherwise |
| Renderer.LegendRows | src/ascii_vibe/renderer.py:73-76 | the legend loop builds the legend rows |
| Renderer.BarRows | src/ascii_vibe/renderer.py:79-85 | the bar loop builds the bar rows |
| Renderer.BarRow | src/ascii_vibe/renderer.py:80-85 | the body of the bar loop builds bar row `i` |
| Renderer.TickRow | src/ascii_vibe/renderer.py:95-102 | the tick loop, with its column counter, builds the tick row |
| Renderer.RenderBarChartAscii | src/ascii_vibe/renderer.py:29-104 | `title + "\n( no data )"` for an empty series; IndexError for a shown scale on a ruler of no width; otherwise the chart rows joined by newlines |
| Renderer.DropEnds | src/ascii_vibe/renderer.py:164 | `s[1:-1]` is two shorter, or empty |
| Renderer.LabelBlock | src/ascii_vibe/renderer.py:162-166 | the label block is `[`, exactly `inner` characters, `]` |
| Renderer.BandBar | src/ascii_vibe/renderer.py:169 | a bar with a count in range is exactly `B` cells |
| Renderer.FitWidth | src/ascii_vibe/renderer.py:185-187 | the clip/pad step gives exactly `W` cells, keeps a row of width `W`, keeps what fits, and pads with spaces |
| Renderer.BandVMax | src/ascii_vibe/renderer.py:133-135 | the scale is positive and at least every value; it is the largest value when some value is positive |
| Renderer.LabelBlocks | src/ascii_vibe/renderer.py:160-166 | one label block per label, each `inner + 2` wide |
| Renderer.BandRows | src/ascii_vibe/renderer.py:160-188 | one bar row per item |
| Renderer.BandAssemble | src/ascii_vibe/renderer.py:147-191 | the band is three rows longer than its bar rows |
| Renderer.BandLines | src/ascii_vibe/renderer.py:128-193 | `len(labels) + 3` lines |
| Renderer.BandLinesAt | src/ascii_vibe/renderer.py:147-191 | `len(labels) + 3` lines for any label block width and scale |
| Renderer.BandLabelBracketed | src/ascii_vibe/renderer.py:162-164 | one pair of outer brackets is stripped from a label, so bracketing a label that is not already bracketed changes nothing printed |
| Renderer.BracketedCut | src/ascii_vibe/renderer.py:165-166 | the bracketed label keeps what fits of the text, then spaces |
| Renderer.LabelBlockText | src/ascii_vibe/renderer.py:162-166 | the label block holds the upper-cased label, cut to the block or padded with spaces |
| Renderer.ShareBounds | src/ascii_vibe/renderer.py:168 | a share of a positive maximum, scaled to `b`, lies between 0 and `b`; the maximum gets `b` and zero gets 0 |
| Renderer.BandShareBounds | src/ascii_vibe/renderer.py:168 | the unrounded bar share lies between none and all of the bar |
| Renderer.BandBarCountBounds | src/ascii_vibe/renderer.py:168-169 | a value between zero and the scale fills between none and all of the bar; the largest all of it, zero none |
| Renderer.BandRowSplit | src/ascii_vibe/renderer.py:172-182 | a band row is its head, the value text and the right wall, clipped or padded to `W` |
| Renderer.FittedRowParts | src/ascii_vibe/renderer.py:172-187 | the fitted row keeps the walls, the label block and the bar in place |
| Renderer.FittedRowEnd | src/ascii_vibe/renderer.py:170-187 | the last cell is the right wall exactly when the value text takes two cells |
| Renderer.ValueTextHasNoBlock | src/ascii_vibe/renderer.py:170 | the value text of a non-negative value is spaces and digits only |
| Renderer.BandRowLayout | src/ascii_vibe/renderer.py:160-188 | a bar row is exactly `W` wide, with the walls, the label block and a bar of `B` cells in place; it keeps its right wall exactly when the value prints in at most two characters |
| Renderer.BandFrame | src/ascii_vibe/renderer.py:149-191 | the band opens and closes with caps of `W` blocks; the title row has a wall at each end and is `W` wide exactly when the title fits; the bar rows lie between the title row and the bottom cap |
| Renderer.BandRowsWidth | src/ascii_vibe/renderer.py:184-188 | the clip/pad step makes every bar row `W` wide |
| Renderer.BandLinesWidth | src/ascii_vibe/renderer.py:149-191 | every line but the title row is exactly `W` wide |
| Renderer.BandRowAligned | src/ascii_vibe/renderer.py:160-188 | a row whose label block fills the label field lines up |
| Renderer.BandRowsAligned | src/ascii_vibe/renderer.py:160-188 | the bar rows line up: `W` wide, bars in one column and `B` wide, the largest value filling its bar, the right wall kept exactly for values of at most two characters |
| Renderer.BandItemRowsAligned | src/ascii_vibe/renderer.py:133-188 | the band's own rows over non-negative values, with its own label blocks and scale, line up |
| Renderer.BuildBandRow | src/ascii_vibe/renderer.py:161-187 | the body of the row loop builds the fitted row of one label and value |
| Renderer.BuildBandBar | src/ascii_vibe/renderer.py:168-169 | the bar segment has the rounded number of blocks |
| Renderer.BuildLabelBlock | src/ascii_vibe/renderer.py:162-166 | the label handling builds the label block |
| Renderer.FitRow | src/ascii_vibe/renderer.py:185-187 | the clip/pad statement computes the fitted row |
| Renderer.BuildBandRows | src/ascii_vibe/renderer.py:160-188 | the row loop builds the band's bar rows |
| Renderer.RenderSwissFullBlockBar | src/ascii_vibe/renderer.py:108-193 | the title for empty or mismatched lists; ValueError when `W - (B + 8) < 4`; otherwise the band's lines joined by newlines |
| Renderer.JoinBandLines | src/ascii_vibe/renderer.py:147-193 | the lines built and joined are the band's lines |
| Renderer.BandScale | src/ascii_vibe/renderer.py:133-135 | the scale is `max(values)`, raised to 1 when not positive |
| Renderer.BuildBandLines | src/ascii_vibe/renderer.py:147-191 | the builder gives cap, title row, bar rows and cap |
| Renderer.BuildBandTitle | src/ascii_vibe/renderer.py:153-154 | the title row is the upper-cased title centred between two blocks |
| SwissRenderer.ScaleBarLen | renderer.py:4-8 | 0 when the maximum is not positive, and otherwise within one half of the share, since it is not clamped |
| SwissRenderer.ScaleBarLenBounds | renderer.py:4-8 | a value between zero and a positive maximum fills between none and all of the bar; the maximum all of it, zero none |
| SwissRenderer.ScaleBarLenMonotone | renderer.py:4-8 | a larger value never gets a shorter bar |
| SwissRenderer.ScaleBarLenUnclamped | renderer.py:4-8 | a value above the maximum overfills the bar |
| SwissRenderer.LabelFieldOf | renderer.py:69 | the widest `[label]`, or 7 without labels |
| SwissRenderer.TruncTexts | renderer.py:71 | one integer-part text per value |
| SwissRenderer.ValueFieldOf | renderer.py:71 | at least 2, at least each integer part's width, and otherwise equal to one of them |
| SwissRenderer.SwissFields | renderer.py:68-92 | the total is `W`, the value field is as measured, the bar field is at least 1 and the label field at least 2 |
| SwissRenderer.PrepareSwissFields | renderer.py:60-92 | the conditional steps compute the closed-form fields, which do not depend on `bar_width` |
| SwissRenderer.SwissFieldsFit | renderer.py:73-92 | `L + B + V + 6` is never below `W`, and equals it exactly when the widest label leaves a bar cell; a zero raw bar field overshoots by one; a negative one shrinks the label by the deficit or to three cells, and when the shrink absorbs the deficit the template still overshoots by one |
| SwissRenderer.TitleRow | renderer.py:120-125 | the title row: ` title ` (cut to `W - 4` characters when it exceeds `W - 2`) centred between runs of full blocks, the extra block on the right; `SwissRenderer.TitleRowShape` states its shape |
| SwissRenderer.TitleRowShape | renderer.py:120-125 | the title row is `W` wide for `W >= 2`, with a wall at each end from `W >= 4`; a fitting title is centred whole; a longer one is cut to `W - 4` characters |
| SwissRenderer.TitleRowFits | renderer.py:120-125 | a fitting title is centred whole with a space either side, the extra block going right |
| SwissRenderer.TitleRowCut | renderer.py:121-125 | a longer title is cut to `W - 4` characters between one wall on each side |
| SwissRenderer.CentredShape | renderer.py:123-125 | centring gives `W` cells: `p` blocks, the text, the other blocks |
| SwissRenderer.LabelCells | renderer.py:132-133 | every padded label is exactly `L` characters |
| SwissRenderer.RowHead | renderer.py:139 | the part of a row before the value is 4 cells wider than the label and bar |
| SwissRenderer.SwissRow | renderer.py:132-146 | one data row: wall, padded or cut label, bar, right-aligned rounded value, wall, then clipped or padded to `W`; `SwissRenderer.SwissRowAligned` and `SwissRenderer.SwissRowsLoseWall` state its properties |
| SwissRenderer.SwissRows | renderer.py:131-147 | one data row per label |
| SwissRenderer.SwissAssemble | renderer.py:116-150 | the band is four lines longer than its data rows |
| SwissRenderer.SwissLines | renderer.py:114-150 | `len(labels) + 4` lines |
| SwissRenderer.RowTextSplit | renderer.py:139 | a row is its head, the right-aligned value and the right wall |
| SwissRenderer.IntTextHasNoBlock | renderer.py:136 | the text of an integer holds no full block |
| SwissRenderer.RowHeadKept | renderer.py:139-146 | fitting to a width that holds the head keeps the walls, the label cell and the bar |
| SwissRenderer.HeadParts | renderer.py:139 | the walls, label cell and bar can be read off a row's head |
| SwissRenderer.RowEnd | renderer.py:139-146 | the row ends on the right wall exactly when the value text fits its field |
| SwissRenderer.RowEndCut | renderer.py:139-146 | a row one cell short of its template never ends on the wall |
| SwissRenderer.RowExact | renderer.py:139-146 | with fields that add up to `W`, the row keeps its text up to the bar and ends on the wall exactly when the value fits, right-aligned before it |
| SwissRenderer.RowOvershootByOne | renderer.py:139-146 | a template one cell wider than `W` is cut, and its last cell is not the wall |
| SwissRenderer.SwissRowAligned | renderer.py:131-147 | with fields that fill the width, a data row lines up |
| SwissRenderer.SwissRowsAligned | renderer.py:131-147 | the data rows line up: `W` wide, label and bar in fixed columns, a bar between none and all filled, the maximum full, the wall kept exactly when the value fits |
| SwissRenderer.SwissRowsLoseWall | renderer.py:131-147 | with fields one cell too wide, every data row is cut to `W` and none ends on the right wall |
| SwissRenderer.SwissFrame | renderer.py:116-150 | the top, middle and bottom bands are `W` blocks, the title row is second, and the data rows sit between the middle and bottom bands |
| SwissRenderer.SwissFrameWidth | renderer.py:116-150 | when the title row and the data rows are `W` wide, every line is |
| SwissRenderer.SwissRowsWidth | renderer.py:141-146 | the clip/pad fallback makes every data row `W` wide |
| SwissRenderer.SwissLinesWidth | renderer.py:116-150 | every line of the band is exactly `W` wide for `W >= 2` |
| SwissRenderer.SwissBandRowsFit | renderer.py:114-147 | for non-negative values, when the widest label leaves a bar cell, the band's own data rows line up |
| SwissRenderer.SwissBandRowsCut | renderer.py:83-147 | for non-negative values, when the label shrink absorbs the deficit, every data row is cut one cell early and loses its right wall |
| SwissRenderer.RoundedTextOutgrowsField | renderer.py:71-136 | the value field is measured on truncated values while the rows print rounded ones, so 99.6 gets a two-cell field and the text "100" |
| SwissRenderer.BuildTitleRow | renderer.py:120-125 | the title-row code builds the centred title row |
| SwissRenderer.BuildSwissRow | renderer.py:132-147 | the body of the row loop builds the fitted data row |
| SwissRenderer.BuildSwissRows | renderer.py:131-147 | the row loop builds the data rows |
| SwissRenderer.RenderSwissFullBlockBar | renderer.py:94-151 | AssertionError for lists of different lengths; the title for no labels; otherwise the band's lines joined by newlines |
| Crawler.FirstDoubleStar | src/ascii_vibe/crawler/crawler.py:107-108 | the position of the first `**` at or after a start, or none when there is none |
| Crawler.MatchesPattern | src/ascii_vibe/crawler/crawler.py:103-111 | `_matches_pattern`: a trailing `/**` is a prefix test, another `**` a prefix and suffix test around the first `**`, and any other pattern equality or, with a trailing `*`, a prefix test; `Crawler.MatchesTree`, `Crawler.MatchesDoubleStar` and `Crawler.MatchesPlain` state the three cases |
| Crawler.MatchesTree | src/ascii_vibe/crawler/crawler.py:105-106 | a pattern ending in `/**` matches exactly the paths that start with the pattern less those three characters |
| Crawler.MatchesTreeSibling | src/ascii_vibe/crawler/crawler.py:105-106 | since the slash is dropped, `/docs/**` also matches `/docsearch` |
| Crawler.MatchesDoubleStar | src/ascii_vibe/crawler/crawler.py:107-109 | a pattern with `**` elsewhere matches exactly the paths that start with the text before the first `**` and end with the text after it |
| Crawler.MatchesDoubleStarOverlap | src/ascii_vibe/crawler/crawler.py:107-109 | the two parts may overlap in the path: `/ab**b` matches `/ab` |
| Crawler.MatchesPlain | src/ascii_vibe/crawler/crawler.py:110-111 | any other pattern matches on equality, or on prefix when it ends in `*` |
| Crawler.MatchesItself | src/ascii_vibe/crawler/crawler.py:103-111 | every pattern, read as a path, matches itself |
| Crawler.AnyMatch | src/ascii_vibe/crawler/crawler.py:89-99 | the early-return loop is true exactly when some pattern matches |
| Crawler.Patterns | src/ascii_vibe/crawler/crawler.py:89-95 | a missing list counts as no patterns |
| Crawler.ShouldCrawl | src/ascii_vibe/crawler/crawler.py:83-101 | false when an exclude pattern matches; otherwise, with a non-empty include list, true exactly when an include pattern matches; otherwise true |
| Crawler.SameSetSameMatch | src/ascii_vibe/crawler/crawler.py:89-99 | two lists with the same patterns match the same paths |
| Crawler.ShouldCrawlOrderFree | src/ascii_vibe/crawler/crawler.py:89-101 | the decision depends only on which patterns each list holds, not on their order or repetition |
| Aliases.ContainsCjkOrEmoji | src/ascii_vibe/aliases.py:20-24 | true exactly when some code point lies in one of the CJK, kana, Hangul or emoji ranges |
| Aliases.AliasLabel | src/ascii_vibe/aliases.py:26-32 | an exact CJK key gives its table entry; otherwise each one-character emoji key is replaced by its name, character by character |
| Aliases.AliasedKeepsPlain | src/ascii_vibe/aliases.py:29-32 | a label with no one-character emoji key is returned unchanged |
| Aliases.AliasedIsPlain | src/ascii_vibe/aliases.py:26-32 | when every CJK or emoji character is a one-character key, the alias has no CJK or emoji character |
| Aliases.AliasedKeepsHeart | src/ascii_vibe/aliases.py:10-31 | the two-code-point heart key can never match the per-character loop, so the heart stays as it is |
| Aliases.UnitSymbol | src/ascii_vibe/aliases.py:34-41 | "%" passes; then the currency, metric and data tables in that order; an unknown unit is returned unchanged |
| Aliases.UnitTablesDisjoint | src/ascii_vibe/aliases.py:12-17 | no unit name is in two tables, so the lookup order never changes a result |
| Charlib.GetStylePack | src/ascii_vibe/charlib.py:24-25 | the named pack when it exists, `minimal_ascii` for any other name |
| Charlib.UnicodeStylesDistinct | src/ascii_vibe/charlib.py:9-13 | each Unicode box has six different glyphs, and no two boxes share one |
| Charlib.AsciiCorners | src/ascii_vibe/charlib.py:14 | the ASCII box has `+` at all four corners |
| Charlib.StylePackParts | src/ascii_vibe/charlib.py:17-25 | every pack's ruler is one of the rulers and its frame one of the box tables |
| Governance.Governors.FromArgs | src/ascii_vibe/governance.py:11-18 | the mode is copied; ASCII is forced by the flag or by execution mode; the footer is on unless `no_qc`; a missing or empty seed becomes "auto" |
| Governance.Governors.EffectiveStylePack | src/ascii_vibe/governance.py:20-23 | `minimal_ascii` whenever ASCII is forced, the requested name otherwise |
| Governance.ExecutionModeForcesAscii | src/ascii_vibe/governance.py:11-23 | in execution mode every requested pack resolves to `minimal_ascii` |

## Left out

- Floats are exact `real` values, so binary rounding error is not modelled. This covers `round`, the percents, the bar shares, sparkline normalisation and the density threshold. A tie such as `round(2.5)` is taken as exact, though the float nearest a computed `x.5` may not be.
- Numbers.FormatCurrency: takes the amount as a whole number of cents. So `f"{abs_val:.2f}"` rounding a float, and a negative amount that prints as zero, are not modelled.
- `format_percent`, `normalize_number` and `is_numeric_like` are not modelled. They rest on float formatting and on `float()` parsing.
- `Strings.Upper`: models `str.upper` on ASCII letters only. Other characters are kept as they are.
- Qc.QcBlock: the proportion check `validate_bar_proportions` is a parameter, because it compares float-rounded counts. The `try/except` around the width check is not modelled, since `validate_row_widths` raises on no list of strings.
- `validate_accent_budget`, `validate_bar_proportions` (validators), `validate_parity` and `run_full_validation` are not modelled. They are float ratios, `difflib` and regex whitespace collapsing, and a driver over the checks. The Levenshtein distance under `validate_parity` is modelled.
- Validators.ValidateRowWidths: the `unique_widths` entry of the details is a set. The order in which `list(unique_widths)` lists the distinct widths, which follows Python's set iteration, is not modelled.
- Validators.ScanLine: its ghost parameter carries the text scanned so far, which the source does not keep.
- The `render_bar_chart_ascii` and `_half_up_int` of the top-level `renderer.py` (lines 10-58) are not modelled. Only `_scale_bar_len`, `_prepare_swiss_fields` and `render_swiss_full_block_bar` are.
- Renderer.RenderBarChartAscii: the series is a list of (label, value) pairs in insertion order, with distinct labels as a dictionary has. Style packs are looked up through `Charlib.GetStylePack`.
- SwissRenderer.PrepareSwissFields: the `bar_width` parameter is taken and ignored, as in the source, where both branches compute the same bar field.
- In the top-level `renderer.py`, `_scale_bar_len` uses `round`. Despite its "half-up" comment, that is rounding half to even, and the model follows the code. The same holds for `int(round(val))` in the value text.
- The top-level band measures the value field on `int(v)`, which truncates, but prints `int(round(val))`. The model follows the code, and `SwissRenderer.RoundedTextOutgrowsField` exhibits the mismatch.
- When the raw bar field is zero or negative, the top-level band raises it to one cell after the shrink. The template then overshoots `W`, and the clip step cuts the right wall off every data row. The model follows the code, as `SwissRenderer.SwissFieldsFit` and `SwissRenderer.SwissBandRowsCut` state.
- In the package renderer, a bar tag pads its label to the label column. So a legend index appears as `[1     ]`, not `[1]`, and the model follows the code. `Renderer.LegendTags` states that the tag starts with `[` and the index.
- Crawler: only `_matches_pattern` and `_should_crawl` are modelled, and `_should_crawl` works on the URL's path. The networking, robots.txt and sitemap handling, the Playwright and aiohttp sessions, the concurrency and `urlparse` are not modelled. A missing include or exclude list and an empty one behave alike, as the source's truthiness test makes them.
- Governance.Governors.FromArgs: `args.seed or "auto"` is modelled with an optional string. A missing seed and an empty seed both become "auto".
- The rest of the repository is not part of this model. That covers mirror, reporting, html2ascii, the demo and the tests.
