# kanjigrid in Dafny

A model of the grid builder `Gridder` of kanjigrid. The builder counts the kanji of the texts fed to it. It then draws a "kanji grid" for a grading, for example the Jouyou school grades:

- a header and a subgrid of coloured cells for each group of the grading;
- optionally a bar graph of how much of the grading occurred, and how often;
- optionally the observed kanji that are outside the grading;
- optionally a stats block;
- side and bottom padding around all of it.

## Modules and files

- `text_filter.dfy` (`TextFilter`): the kanji set and `_clean_text`.
- `counting.dfy` (`Counting`): the frequency counter `kcounter` and what one update does.
- `grading.dfy` (`Grading`): the grading provider as the builder uses it:
  - ordered groups, each with a name and a kanji set;
  - `get_all_in_grading`;
  - `is_in_grading`.
- `imaging.dfy` (`Imaging`): images as values. An image is its width, its height and the list of painting operations applied to it:
  - fill a rectangle;
  - write a label at a point;
  - paste an image at an offset.

  `_get_vert_cat` and `_get_hori_cat` create a black image and paste the two parts, exactly as the source does.
- `ordering.dfy` (`Ordering`): `max`, `min`, `sorted(..., reverse=True)` over integer keys and `sorted` over characters.
- `tiers.dfy` (`Tiers`): the cell-colour rule of the subgrid and the default threshold table.
- `layout.dfy` (`Layout`):
  - the settings;
  - `_generate_header`;
  - `_generate_kanji_picto`;
  - the placement of cells in `_generate_subgrid`.
- `bar_graph.dfy` (`BarGraph`): `_generate_bar_graph`:
  - the band table (`splits`);
  - its scaling into segment widths that add up to the bar width;
  - the strip and the frame.
- `stats.dfy` (`Stats`): `_generate_stats`:
  - the per-threshold counts;
  - the count of graded kanji that never occurred;
  - the share that did.
- `report.dfy` (`Report`): `_generate_addition` and `make_grid`:
  - the sections in stacking order;
  - which section failures fail the grid;
  - the final size.
- `gridder.dfy` (`KanjiGrid`): the `Gridder` class.
  - It has an immutable `settings` field and the mutable `kcounter` field.
  - Its methods are the source's loops, run step by step:
    - feeding the counter;
    - pasting the cells;
    - stacking the stats lines;
    - counting and rewriting `splits`;
    - drawing the segments;
    - stacking the grid.
  - Each method is proved to build exactly what the corresponding function of the model describes. The lemmas then state the source's properties about those functions.

## Conventions

- **Error conditions.** A Python exception becomes `Err(...)` of a `Result`:
  - **Division by zero in the subgrid:** `ceil(len / columns)` with `columns == 0`. It is checked first, as in the source.
  - **Division by zero in the bar graph:** `width / sum(splits.values())` with a zero sum.
  - **Division by zero in the stats:** `100 * (...) / len(grade_kanji)` on an empty grading.
  - **Empty colour table:** `max` of an empty threshold table in `_generate_subgrid`.
  - **Negative size:** an image of negative width, when the bar is narrower than its two vertical borders.

  The first section that fails fails `make_grid`.
- **Bar widths.** The source computes them with a float factor and `int(...)`. The model uses the exact `floor(split * width / total)`.
- **Percentage.** Taken as an exact rational number.
- **Fonts.** A font is represented by its size, a positive integer.

## Model

Rows that say "a definition without a contract" name the model's own definitions of the source's operations: the methods of `Gridder` are proved equal to them, and the other rows state their properties.

| member | source | states |
|---|---|---|
| TextFilter.Clean | kanjigrid/kanjigrid.py:92-93 | the cleaned text is no longer than the input and holds only kanji-set characters |
| TextFilter.CleanIsSubsequence | kanjigrid/kanjigrid.py:92-93 | the cleaned text is a subsequence of the input: its characters keep their original order |
| TextFilter.CleanCounts | kanjigrid/kanjigrid.py:92-93 | every character of the set is kept as often as it occurs in the input; every other character is dropped |
| TextFilter.CleanAppend | kanjigrid/kanjigrid.py:92-93 | cleaning a concatenation is concatenating the cleaned parts |
| TextFilter.CleanKeepsKanji | kanjigrid/kanjigrid.py:92-93 | text made only of kanji passes through unchanged |
| TextFilter.CleanIdempotent | kanjigrid/kanjigrid.py:92-93 | cleaning twice is cleaning once |
| Counting.TallyKeys | kanjigrid/kanjigrid.py:151-152 | after an update, the counted characters are the old ones plus those of the text |
| Counting.TallyCount | kanjigrid/kanjigrid.py:151-152 | an update raises each count by that character's occurrences in the text; other counts are unchanged |
| Counting.TallyPositive | kanjigrid/kanjigrid.py:151-152 | an update keeps every count at least 1 |
| Counting.TallyAppend | kanjigrid/kanjigrid.py:151-152 | updating with `a + b` equals updating with `a`, then with `b` |
| Counting.TallySnoc | kanjigrid/kanjigrid.py:151-152 | one more character raises only that character's count, by one |
| Counting.TallyCommutes | kanjigrid/kanjigrid.py:151-152 | the order of two updates does not matter |
| Counting.FeedTwice | kanjigrid/kanjigrid.py:151-152 | feeding A and then B gives the same counter as feeding A+B |
| Counting.FeedCount | kanjigrid/kanjigrid.py:151-152 | after feeding a text, a kanji's count has grown by its occurrences in the text; any other character's count is unchanged |
| KanjiGrid.Gridder.constructor | kanjigrid/kanjigrid.py:43-91 | the settings are the arguments with the source's defaults; no table gives the red-to-green table of five thresholds; the counter starts empty |
| KanjiGrid.Gridder.FeedText | kanjigrid/kanjigrid.py:151-152 | the counter becomes the old counter updated with the cleaned text, and stays positive |
| Ordering.MaxOf | kanjigrid/kanjigrid.py:170 | `max` of a non-empty set is in the set and is at least every element |
| Ordering.MinOf | kanjigrid/kanjigrid.py:255 | `min` of a non-empty set is in the set and is at most every element |
| Ordering.SortedDesc | kanjigrid/kanjigrid.py:171 | the listing has exactly the set's elements, without repeats, strictly decreasing |
| Ordering.SortedChars | kanjigrid/kanjigrid.py:166 | the kanji of a group, each once, in increasing code-point order |
| Ordering.DecreasingUnique | kanjigrid/kanjigrid.py:171 | two strictly decreasing listings of the same elements are equal, so the sorted order is unique |
| Tiers.AtMost | kanjigrid/kanjigrid.py:180 | the filter `x <= kcount` keeps exactly the keys not above the count; on a decreasing listing, as the source passes, the result is decreasing too |
| Tiers.TierColor | kanjigrid/kanjigrid.py:170-188 | counts at or above the top threshold take the top colour, which is also the greatest threshold at most the count; otherwise the greatest threshold at most the count gives the colour; counts below every threshold take `kanji_background_color` |
| Tiers.DefaultTiers | kanjigrid/kanjigrid.py:65-72 | with the default table, counts below 1 take the background, counts 1 to 5 their own colour, and counts of 5 or more dark green |
| Layout.Settings.GridWidth | kanjigrid/kanjigrid.py:167 | the section width `kfont.size * columns`; a definition without a contract |
| Layout.Column | kanjigrid/kanjigrid.py:189-192 | the column of an index lies below the column count |
| Layout.ColumnRow | kanjigrid/kanjigrid.py:189-192 | row times columns plus column gives back the index |
| Layout.ColumnRowDivMod | kanjigrid/kanjigrid.py:189-192 | the column is `k mod C` and the row is `k div C` |
| Layout.RowsIsCeiling | kanjigrid/kanjigrid.py:168 | the row count is `ceil(n / C)`: its rows hold all `n` cells and one fewer row would not; zero kanji give zero rows |
| Layout.CellOrigin | kanjigrid/kanjigrid.py:189-192 | the paste offsets `(k*S) mod (C*S)` and `((k*S) div (C*S))*S` are `(k mod C)*S` and `(k div C)*S` |
| Layout.CellInside | kanjigrid/kanjigrid.py:167-169 | every cell lies fully inside the `C*S` by `ceil(n/C)*S` canvas |
| Layout.CellsDistinct | kanjigrid/kanjigrid.py:189-192 | distinct indices are pasted at distinct cells |
| Layout.Header | kanjigrid/kanjigrid.py:133-149 | a header is `kfont.size * columns` wide and `padding_above_header + hfont.size + padding_under_header` tall |
| Layout.SubgridErrors | kanjigrid/kanjigrid.py:165-170 | a subgrid fails with a division by zero when there are no columns, else on an empty table, and otherwise succeeds |
| Layout.SubgridLayout | kanjigrid/kanjigrid.py:165-193 | a subgrid is `C*S` wide and `ceil(n/C)*S` tall, and holds the background fill plus one paste per kanji |
| Layout.SubgridCells | kanjigrid/kanjigrid.py:172-192 | the `k`-th paste is the code-point-sorted `k`-th kanji, in column `k mod C` and row `k div C`, with the colour of its count |
| KanjiGrid.Gridder.GenerateSubgrid | kanjigrid/kanjigrid.py:165-193 | the paste loop builds exactly the subgrid of the model, with the same error cases |
| Imaging.VertCat | kanjigrid/kanjigrid.py:95-99 | as wide as the first part, as tall as both together, with the second part pasted at the first part's height |
| Imaging.HoriCat | kanjigrid/kanjigrid.py:101-105 | as wide as both parts together, as tall as the first, with the second part pasted at the first part's width |
| Imaging.StackDownSize | kanjigrid/kanjigrid.py:293-310 | stacking parts below a top keeps the top's width and adds up the heights |
| BarGraph.NextAbove | kanjigrid/kanjigrid.py:250 | `prev_key` is the smallest threshold above the current one |
| BarGraph.Band | kanjigrid/kanjigrid.py:237-250 | a band holds observed, graded kanji counted at least its key and, below the top key, less than the next larger key |
| BarGraph.BandLoopStep | kanjigrid/kanjigrid.py:237-250 | at the top key the loop counts `count >= key`; at any other key it counts `key <= count < prev_key`, where `prev_key` was set by the iteration before |
| BarGraph.BandsDisjoint | kanjigrid/kanjigrid.py:237-251 | the bands of distinct keys are disjoint, and no band meets the never-seen graded kanji of band 0 |
| BarGraph.BandStep | kanjigrid/kanjigrid.py:237-250 | below the top key, the kanji counted at least `key` are the band of `key` plus those counted at least the next key |
| BarGraph.BandsAll | kanjigrid/kanjigrid.py:237-250 | the band sizes add up to the number of observed graded kanji counted at least the smallest key |
| BarGraph.Splits | kanjigrid/kanjigrid.py:237-251 | the table's keys are the thresholds plus 0 |
| BarGraph.GradedParts | kanjigrid/kanjigrid.py:251 | the graded kanji split into the observed ones and the `splits[0]` never-seen ones |
| BarGraph.SplitsCover | kanjigrid/kanjigrid.py:237-251 | with a smallest key of 1, the whole table adds up to the number of graded kanji |
| KanjiGrid.Gridder.CountBands | kanjigrid/kanjigrid.py:237-250 | the band loop fills the table with exactly each threshold's band size |
| BarGraph.FloorsShortfall | kanjigrid/kanjigrid.py:252-254 | the rounded-down widths add up to at most the bar width, and miss it by less than one unit per band |
| BarGraph.Lowest | kanjigrid/kanjigrid.py:255 | the lowest key of the table is one of its keys and is at most every key |
| BarGraph.AddRemainder | kanjigrid/kanjigrid.py:255-256 | adding `width - sum(values)` at the lowest key makes the table add up to exactly `width` and keeps its keys |
| BarGraph.ScaledWidths | kanjigrid/kanjigrid.py:252-256 | the widths have the same keys as the table and add up to exactly the bar width |
| BarGraph.ScaledWidthsShares | kanjigrid/kanjigrid.py:252-256 | away from the lowest key each width is `floor(split * W / total)`; the lowest key gets its own floor plus less than one unit per band |
| BarGraph.RemainderToBandZero | kanjigrid/kanjigrid.py:251-256 | with positive thresholds the lowest key is `0`, so the never-seen band takes the remainder and every threshold band gets exactly `floor(split * W / total)` |
| BarGraph.RewriteLoopStep | kanjigrid/kanjigrid.py:253-256 | one iteration of the rewriting loop turns the table after the first `j` keys into the table after `j + 1`; the last iteration gives the finished widths |
| KanjiGrid.ScaleSplits | kanjigrid/kanjigrid.py:252-256 | the in-place rewriting loop turns the table into exactly the widths |
| BarGraph.Strip | kanjigrid/kanjigrid.py:257-264 | the strip is `kfont.size` tall, and as wide as the sum of the widths of the keys drawn |
| KanjiGrid.Gridder.DrawStrip | kanjigrid/kanjigrid.py:257-264 | the segment loop builds exactly the strip, one segment per key, largest key first, coloured from the table or the background |
| BarGraph.BarLayout | kanjigrid/kanjigrid.py:233-284 | the bar fails by division by zero on an empty table sum, with a negative size when the bar is narrower than its borders, and otherwise succeeds, `S*C` wide and `bar_padding + 2*bar_hori_border + S` tall |
| BarGraph.StripFillsBar | kanjigrid/kanjigrid.py:257-282 | the segments plus the two vertical borders fill exactly the section width `S*C` |
| KanjiGrid.Gridder.GenerateBarGraph | kanjigrid/kanjigrid.py:233-284 | the method builds exactly the bar section of the model, errors included |
| Stats.StatSet | kanjigrid/kanjigrid.py:201-206 | a stats line counts only observed kanji |
| Stats.StatLineCounts | kanjigrid/kanjigrid.py:199-211 | line `i` is an `S*C` by `hfont.size` background line whose one caption, written at `(hfont.size, 0)`, reports the `i`-th threshold from the top, whether it is the top one, and its count. The top line's count is of all observed kanji, graded or not, counted at least the key; every other line's count is of those counted exactly the key |
| Stats.StatsVsBands | kanjigrid/kanjigrid.py:199-206 | the graded part of a stats line lies inside that key's band; at the top key they match, and so do they at a key whose next larger key is one above |
| Stats.StatLineImage | kanjigrid/kanjigrid.py:200-211 | each stats line is `S*C` wide and `hfont.size` tall |
| Stats.StatLineShape | kanjigrid/kanjigrid.py:200-211 | for any listing, line `i` is a background line with the caption of `ks[i]` written at `(hfont.size, 0)` |
| Stats.StatsBodySize | kanjigrid/kanjigrid.py:197-211 | the threshold lines stack to `S*C` by `|thresholds| * hfont.size` |
| KanjiGrid.Gridder.StackStatLines | kanjigrid/kanjigrid.py:199-211 | the threshold loop stacks exactly the lines of the thresholds listed |
| KanjiGrid.Gridder.GenerateStatLines | kanjigrid/kanjigrid.py:197-211 | the lines stacked largest threshold first |
| Stats.ZeroOccurrences | kanjigrid/kanjigrid.py:213-214 | `zero_occ` plus the observed graded kanji is the grading's size, so `0 <= zero_occ <= |graded|` |
| Stats.Percent | kanjigrid/kanjigrid.py:215 | the occurred percentage lies in [0, 100]; it is 100 exactly when every graded kanji occurred and 0 exactly when none did |
| Stats.PercentExample | kanjigrid/kanjigrid.py:215 | 500 unseen of 2000 graded kanji give 75% |
| Stats.ZeroLineImage | kanjigrid/kanjigrid.py:216-222 | the last line is `S*C` wide and `hfont.size` tall |
| Stats.StatsLayout | kanjigrid/kanjigrid.py:195-223 | the stats fail exactly on an empty grading; otherwise they are `S*C` wide and a header plus `(|thresholds| + 1) * hfont.size` tall |
| KanjiGrid.Gridder.GenerateStats | kanjigrid/kanjigrid.py:195-223 | the method builds exactly the stats section of the model, errors included |
| Report.OutOfGrading | kanjigrid/kanjigrid.py:228 | the additional kanji share nothing with the grading; together with the observed graded kanji they make up all observed kanji |
| Report.AdditionLayout | kanjigrid/kanjigrid.py:225-231 | the additional-kanji section fails exactly when a subgrid cannot be drawn; otherwise it is a header over `ceil(n/C)` rows of the kanji outside the grading |
| KanjiGrid.Gridder.GenerateAddition | kanjigrid/kanjigrid.py:225-231 | the method builds exactly the additional-kanji section of the model |
| Report.TitledSubgrid | kanjigrid/kanjigrid.py:297-299 | a group's section fails exactly when a subgrid cannot be drawn; otherwise it is `S*C` wide and a header plus `ceil(n/C)*S` tall |
| Report.GroupSectionsShape | kanjigrid/kanjigrid.py:294-300 | the group loop fails exactly when there is a group and a subgrid cannot be drawn; otherwise it gives one section per group, in the grading's order |
| Report.GroupSectionsNext | kanjigrid/kanjigrid.py:294-300 | each group pass appends its section; a failing subgrid fails the whole loop with its error |
| Report.GroupSectionsPrefixFails | kanjigrid/kanjigrid.py:294-300 | once a group fails, the later groups change nothing |
| Report.ExtrasSteps | kanjigrid/kanjigrid.py:301-310 | the bar, the additional kanji and the stats are each drawn only when their flag is set, in that order; the first drawn one that fails gives the error |
| Report.SectionsOrder | kanjigrid/kanjigrid.py:293-310 | a grid that succeeds stacks the group sections, then the bar, the additional kanji and the stats, each only when asked for |
| Report.MakeGridErrors | kanjigrid/kanjigrid.py:286-320 | `make_grid` succeeds exactly when three things hold: the subgrids can be drawn (if any is drawn), the bar can be drawn (if asked for), and the grading is non-empty (if the stats are asked for) |
| Report.MakeGridSize | kanjigrid/kanjigrid.py:311-320 | the grid is `S*C + 2*S` wide (side padding `kfont.size`, not `grid_side_padding`) and the sum of the section heights plus `padding_under_header` tall |
| KanjiGrid.Gridder.StackGroups | kanjigrid/kanjigrid.py:293-300 | the group loop stacks exactly the group sections below an empty image as wide as the grid, or stops with the first subgrid's error |
| KanjiGrid.Gridder.StackBar | kanjigrid/kanjigrid.py:301-303 | with the flag set, the bar is stacked below the grid or its error returned; without it the grid is unchanged |
| KanjiGrid.Gridder.StackAddition | kanjigrid/kanjigrid.py:304-306 | the same for the additional kanji |
| KanjiGrid.Gridder.StackStats | kanjigrid/kanjigrid.py:308-310 | the same for the stats |
| KanjiGrid.Gridder.StackExtras | kanjigrid/kanjigrid.py:301-310 | the optional steps stack exactly the model's optional sections, or return the first error |
| KanjiGrid.Gridder.MakeGrid | kanjigrid/kanjigrid.py:286-320 | the method builds exactly the grid of the model, errors included |
| Counting.Tally | kanjigrid/kanjigrid.py:152 | `Counter.update`: each character of the text adds one to its count; a definition without a contract |
| Tiers.GetOr | kanjigrid/kanjigrid.py:262 | `dict.get(k, default)`; a definition without a contract |
| Layout.Picto | kanjigrid/kanjigrid.py:124-131 | `_generate_kanji_picto`: an `S` by `S` cell in the given background colour with the kanji written at its origin; a definition without a contract |
| Layout.CellColor | kanjigrid/kanjigrid.py:174-188 | the background of one kanji's cell, from its count and the threshold table; a definition without a contract |
| Layout.SubgridImage | kanjigrid/kanjigrid.py:166-193 | the subgrid canvas with one pasted cell per sorted kanji; a definition without a contract |
| Layout.Subgrid | kanjigrid/kanjigrid.py:165-193 | `_generate_subgrid`, with its two error cases; a definition without a contract |
| BarGraph.ScaleDown | kanjigrid/kanjigrid.py:252-254 | `int(split * factor)` as an exact floor; a definition without a contract |
| BarGraph.Floors | kanjigrid/kanjigrid.py:252-254 | every split scaled down to its share of the bar width; keeps the table's keys |
| BarGraph.MapSum | kanjigrid/kanjigrid.py:252 | `sum(splits.values())`; a definition without a contract |
| BarGraph.Unseen | kanjigrid/kanjigrid.py:251 | the graded kanji never counted, whose size is `splits[0]` here and `zero_occ` at line 214; a definition without a contract |
| BarGraph.BarWidth | kanjigrid/kanjigrid.py:234 | `kfont.size * columns - 2 * bar_vert_border`, the width shared by the segments; a definition without a contract |
| BarGraph.Framed | kanjigrid/kanjigrid.py:265-283 | the strip between its two vertical borders, between two horizontal borders, under the bar padding; a definition without a contract |
| BarGraph.Bar | kanjigrid/kanjigrid.py:233-284 | `_generate_bar_graph`, with its two error cases; a definition without a contract |
| Stats.StatsBody | kanjigrid/kanjigrid.py:197-211 | the threshold lines, largest threshold first, stacked; a definition without a contract |
| Stats.StatsSection | kanjigrid/kanjigrid.py:195-223 | `_generate_stats`, failing on an empty grading; a definition without a contract |
| Report.Addition | kanjigrid/kanjigrid.py:225-231 | `_generate_addition`: a header and a subgrid of the observed kanji outside the grading; a definition without a contract |
| Report.GroupSection | kanjigrid/kanjigrid.py:297-299 | one group's header and subgrid; a definition without a contract |
| Report.GroupSections | kanjigrid/kanjigrid.py:294-300 | the group loop, stopping at the first failing subgrid; a definition without a contract |
| Report.Extras | kanjigrid/kanjigrid.py:301-310 | the optional bar, additional-kanji and stats sections in that order; a definition without a contract |
| Report.Finish | kanjigrid/kanjigrid.py:311-320 | the side and bottom padding around the stacked sections; a definition without a contract |
| Report.MakeGrid | kanjigrid/kanjigrid.py:286-320 | `make_grid`; a definition without a contract |

## Left out

- The `load_font` function and font files. A font is its size. Loading errors and the printing of font names are I/O.
- `_draw_on_img`: glyph rendering and the per-family baseline offsets (`size / 3.5`, `size / 5`) are float values that depend on the font. Text is recorded as written at the drawing origin.
- The pixel contents made by PIL. An image records which fill, text or paste went where, not the resulting pixels.
- Float arithmetic. Two quantities are exact in the model:
  - the bar's `int(split * factor)` is exact `floor(split * width / total)`;
  - the stats percentage is an exact rational.

  Float rounding could differ from both at boundaries.
- String formatting of the stats lines (`.2f`, f-strings). The label keeps the key, the top-or-exact flag, the count and the percentage.
- `dry_grid`: it is an empty stub.
- The grading provider (`Jouyou`) is not part of this model. It is modelled as an ordered sequence of named kanji sets; `get_all_in_grading` is their union and `is_in_grading` is membership in it.
- The code-point range of the kanji set. Its literals are not legible in the source, so the range bounds and the extra characters are parameters (`KanjiSet`).
- `test.py`: a driver script that reads a file and saves a PNG.
- Negative numeric settings. Column counts, paddings and borders are natural numbers; with negative values PIL would refuse the image sizes. Only the bar's own width can become negative, and that case is modelled as an error.
- `grid_side_padding` is stored in the settings but, as in the source, never used; the side padding is `kfont.size`.
- KanjiGrid.Gridder.CountBands and KanjiGrid.Gridder.DrawStrip take the sorted key listing from their caller rather than sorting inside the loop header; the caller passes `sorted(..., reverse=True)` of the same keys.
