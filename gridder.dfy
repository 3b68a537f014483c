/**
 * The grid builder: its settings, the counter that the fed texts update in
 * place, and the drawing methods, each proved to build what the
 * corresponding function of the model describes.
 */
module KanjiGrid {
  import opened Results
  import opened Imaging
  import opened Ordering
  import opened TextFilter
  import opened Counting
  import opened Grading
  import opened Tiers
  import opened Layout
  import opened Arith
  import opened BarGraph
  import opened Stats
  import opened Report

  class Gridder {
    const settings: Settings
    /** `kcounter`: how often each kanji occurred in the texts fed so far. */
    var kcounter: Counter

    /** Only characters that occurred are counted. */
    ghost predicate Valid()
      reads this
    {
      Positive(kcounter)
    }

    /**
     * `Gridder(...)` with the same defaults. Fonts are given by their sizes;
     * no table selects the red-to-green default table, an empty one is kept.
     */
    constructor(
      kanjiSet: KanjiSet,
      kanjiFontSize: FontSize,
      headerFontSize: FontSize,
      columns: nat := 50,
      colordict: Option<map<int, Color>> := None,
      barPadding: nat := 30,
      paddingAboveHeader: nat := 50,
      paddingUnderHeader: nat := 30,
      gridSidePadding: nat := 50,
      barHoriBorder: nat := 2,
      barVertBorder: nat := 1,
      kanjiFontColor: Color := "#000000",
      headerFontColor: Color := "#000000",
      backgroundColor: Color := "#FFFFFF",
      kanjiBackgroundColor: Color := "#FFFFFF")
      ensures settings == Settings(
        kanjiSet, kanjiFontSize, headerFontSize, columns,
        if colordict.None? then DefaultColors else colordict.value,
        barPadding, paddingAboveHeader, paddingUnderHeader, gridSidePadding, barHoriBorder, barVertBorder,
        kanjiFontColor, headerFontColor, backgroundColor, kanjiBackgroundColor)
      ensures kcounter == map[] && Valid()
    {
      var colors := if colordict.None? then DefaultColors else colordict.value;
      settings := Settings(
        kanjiSet, kanjiFontSize, headerFontSize, columns, colors,
        barPadding, paddingAboveHeader, paddingUnderHeader, gridSidePadding, barHoriBorder, barVertBorder,
        kanjiFontColor, headerFontColor, backgroundColor, kanjiBackgroundColor);
      kcounter := map[];
    }

    /** `feed_text`: count the kanji of `text`, one occurrence at a time. */
    method FeedText(text: string)
      requires Valid()
      modifies this
      ensures Valid()
      ensures kcounter == Tally(old(kcounter), Clean(settings.kanjiSet, text))
    {
      var cleaned := Clean(settings.kanjiSet, text);
      ghost var start := kcounter;
      var i := 0;
      while i < |cleaned|
        invariant 0 <= i <= |cleaned|
        invariant kcounter == Tally(start, cleaned[..i])
      {
        var c := cleaned[i];
        ghost var before := kcounter;
        assert cleaned[..i + 1] == cleaned[..i] + [c];
        TallySnoc(start, cleaned[..i], c);
        kcounter := kcounter[c := Count(kcounter, c) + 1];
        assert kcounter == before[c := Count(before, c) + 1];
        i := i + 1;
      }
      assert cleaned[..i] == cleaned;
      TallyPositive(start, cleaned);
    }

    /** `_generate_subgrid`: paste one cell per kanji, in code-point order, at the source's offsets. */
    method GenerateSubgrid(grade: set<char>) returns (r: Result<Image>)
      ensures r == Subgrid(settings, kcounter, grade)
    {
      if settings.columns == 0 {
        return Err(DivisionByZero);
      }
      var kanji := SortedChars(grade);
      var size, columns := settings.kanjiFontSize, settings.columns;
      var width := settings.GridWidth();
      MulMono(0, Rows(|kanji|, columns), size);
      var height: nat := size * Rows(|kanji|, columns);
      var canvas := Solid(width, height, settings.backgroundColor);
      if settings.colors == map[] {
        return Err(EmptyColorTable);
      }
      ghost var shades := Shades(settings, kcounter, kanji);
      var img := canvas;
      var k := 0;
      while k < |kanji|
        invariant 0 <= k <= |kanji|
        invariant img == canvas.(items := canvas.items + Cells(settings, kanji, shades, k))
      {
        var color := TierColor(settings.colors, settings.kanjiBackgroundColor, Count(kcounter, kanji[k]));
        var picto := Picto(settings, kanji[k], color);
        PasteIsNextCell(settings, kcounter, kanji, canvas, k);
        img := PasteAt(img, (k * size) % width, ((k * size) / width) * size, picto);
        k := k + 1;
      }
      return Ok(img);
    }
  
    /** The threshold loop of `_generate_stats`: one line per threshold, largest first, stacked on an empty image. */
    method GenerateStatLines() returns (img: Image)
      ensures img == StatsBody(settings, kcounter)
    {
      var ks := SortedDesc(settings.colors.Keys);
      ListedIn(ks, settings.colors.Keys);
      img := StackStatLines(ks);
    }

    /** The threshold loop of `_generate_stats` over the listing `ks`: one line per threshold, each below the last. */
    method StackStatLines(ks: seq<int>) returns (img: Image)
      requires forall i :: 0 <= i < |ks| ==> ks[i] in settings.colors.Keys
      ensures img == StackDown(Blank(settings.GridWidth(), 0), StatLines(settings, kcounter, settings.colors.Keys, ks))
    {
      var width := settings.GridWidth();
      img := Blank(width, 0);
      var keys := settings.colors.Keys;
      ghost var lines := StatLines(settings, kcounter, keys, ks);
      var i := 0;
      while i < |ks|
        invariant 0 <= i <= |ks|
        invariant img == StackDown(Blank(width, 0), lines[..i])
      {
        var key := ks[i];
        var line := Solid(width, settings.headerFontSize, settings.backgroundColor);
        var n: nat;
        if key == MaxOf(keys) {
          n := |OrMore(kcounter, key)|;
        } else {
          n := |Exactly(kcounter, key)|;
        }
        line := DrawText(line, settings.headerFontSize, 0, StatLine(key, key == MaxOf(keys), n), settings.headerFontColor);
        StatLineStep(settings, kcounter, keys, ks, i, n);
        StackDownNext(Blank(width, 0), lines, i, img, line);
        img := VertCat(img, line);
        i := i + 1;
      }
      assert lines[..i] == lines;
    }

    /** `_generate_stats`: the header, the threshold lines and the zero line; an empty grading divides by zero. */
    method GenerateStats(grading: Grading) returns (r: Result<Image>)
      ensures r == StatsSection(settings, kcounter, grading)
    {
      var width := settings.GridWidth();
      var head := Header(settings, "Kanji Stats:");
      var img := GenerateStatLines();
      img := VertCat(head, img);
      var graded := grading.AllInGrading();
      var zero := |graded - kcounter.Keys|;
      if |graded| == 0 {
        return Err(DivisionByZero);
      }
      GradedParts(kcounter, graded);
      var percent := Percent(|graded|, zero);
      var line := Solid(width, settings.headerFontSize, settings.backgroundColor);
      line := DrawText(line, settings.headerFontSize, 0, ZeroLine(zero, percent), settings.headerFontColor);
      return Ok(VertCat(img, line));
    }

    /** `_generate_addition`: a header over the subgrid of the observed kanji outside the grading. */
    method GenerateAddition(grading: Grading) returns (r: Result<Image>)
      ensures r == Addition(settings, kcounter, grading)
    {
      var head := Header(settings, "Additional Kanji:");
      var outside := set c | c in kcounter && !grading.IsInGrading(c);
      var sub :- GenerateSubgrid(outside);
      return Ok(VertCat(head, sub));
    }
  
    /** The band loop of `_generate_bar_graph`: the size of each threshold's band, `prev_key` carrying the threshold above. */
    method CountBands(graded: set<char>, ks: seq<int>) returns (splits: map<int, nat>)
      requires Decreasing(ks) && forall x :: x in ks <==> x in settings.colors.Keys
      ensures splits == BandSizes(kcounter, graded, settings.colors.Keys)
    {
      var keys := settings.colors.Keys;
      ListedIn(ks, keys);
      splits := map[];
      var prevKey := 0;
      var i := 0;
      while i < |ks|
        invariant 0 <= i <= |ks|
        invariant splits == BandsListed(kcounter, graded, keys, ks[..i])
        invariant 0 < i ==> prevKey == ks[i - 1]
      {
        var key := ks[i];
        BandLoopStep(kcounter, graded, keys, ks, i);
        BandsListedNext(kcounter, graded, keys, ks, i);
        if key == MaxOf(keys) {
          splits := splits[key := |AtLeast(kcounter, graded, key)|];
        } else {
          splits := splits[key := |Between(kcounter, graded, key, prevKey)|];
        }
        prevKey := key;
        i := i + 1;
      }
      assert ks[..i] == ks;
      BandsListedAll(kcounter, graded, keys, ks);
    }

    /** The segment-drawing loop of `_generate_bar_graph`: one segment per key, largest key first. */
    method DrawStrip(widths: map<int, nat>, ks: seq<int>) returns (bar: Image)
      requires forall i :: 0 <= i < |ks| ==> ks[i] in widths
      ensures bar == Strip(settings, widths, ks)
    {
      bar := Blank(0, settings.kanjiFontSize);
      var t := 0;
      while t < |ks|
        invariant 0 <= t <= |ks|
        invariant bar == Strip(settings, widths, ks[..t])
      {
        var k := ks[t];
        StripNext(settings, widths, ks, t, bar);
        bar := HoriCat(bar, Solid(widths[k], settings.kanjiFontSize, GetOr(settings.colors, k, settings.backgroundColor)));
        t := t + 1;
      }
      assert ks[..t] == ks;
    }

    /**
     * `_generate_bar_graph`: count the bands, add band 0, rewrite the table
     * into widths, then draw the segments and the frame. No band at all
     * divides by zero; a bar narrower than its borders has a negative width.
     */
    method GenerateBarGraph(grading: Grading) returns (r: Result<Image>)
      ensures r == Bar(settings, kcounter, grading)
    {
      var width: int := settings.GridWidth() - 2 * settings.barVertBorder;
      var graded := grading.AllInGrading();
      var splits := CountBands(graded, SortedDesc(settings.colors.Keys));
      splits := splits[0 := |graded - kcounter.Keys|];
      assert splits == Splits(kcounter, graded, settings.colors.Keys);
      assert width == BarWidth(settings);
      var total := MapSum(splits);
      if total == 0 {
        return Err(DivisionByZero);
      }
      if width < 0 {
        return Err(NegativeSize);
      }
      splits := ScaleSplits(splits, width);
      ListedIn(SortedDesc(splits.Keys), splits.Keys);
      var bar := DrawStrip(splits, SortedDesc(splits.Keys));
      ghost var strip := bar;
      var full := width + 2 * settings.barVertBorder;
      assert full == settings.GridWidth();
      var pad := Solid(full, settings.barPadding, settings.backgroundColor);
      var horz := Solid(full, settings.barHoriBorder, settings.headerFontColor);
      var vert := Solid(settings.barVertBorder, settings.kanjiFontSize, settings.headerFontColor);
      bar := HoriCat(vert, bar);
      bar := HoriCat(bar, vert);
      bar := VertCat(horz, bar);
      bar := VertCat(bar, horz);
      bar := VertCat(pad, bar);
      assert bar == Framed(settings, strip);
      return Ok(bar);
    }

    /**
     * The group loop of `make_grid`: a header and subgrid per group, in the
     * grading's order, stacked below an empty image as wide as the grid; the
     * first subgrid that fails fails the loop.
     */
    method StackGroups(grading: Grading) returns (r: Result<Image>, ghost secs: seq<Image>)
      ensures GroupSections(settings, kcounter, grading.groups).Err? ==>
        r == Err(GroupSections(settings, kcounter, grading.groups).error)
      ensures GroupSections(settings, kcounter, grading.groups).Ok? ==>
        secs == GroupSections(settings, kcounter, grading.groups).value
        && r == Ok(StackDown(Blank(settings.GridWidth(), 0), secs))
    {
      var top := Blank(settings.GridWidth(), 0);
      var grid := top;
      var gs := grading.groups;
      secs := [];
      var i := 0;
      while i < |gs|
        invariant 0 <= i <= |gs|
        invariant GroupSections(settings, kcounter, gs[..i]) == Ok(secs)
        invariant grid == StackDown(top, secs)
      {
        var head := Header(settings, gs[i].name);
        var subgrid := GenerateSubgrid(gs[i].kanji);
        GroupSectionsNext(settings, kcounter, gs, i);
        if subgrid.Err? {
          return Err(subgrid.error), secs;
        }
        var concat := VertCat(head, subgrid.value);
        StackDownSnoc(top, secs, concat);
        grid := VertCat(grid, concat);
        secs := secs + [concat];
        i := i + 1;
      }
      assert gs[..i] == gs;
      return Ok(grid), secs;
    }

    /** One optional step of `make_grid`: when `barGraph` is set, the bar graph stacked below the grid so far. */
    method StackBar(grading: Grading, barGraph: bool, grid: Image, ghost secs: seq<Image>)
      returns (r: Result<Image>, ghost after: seq<Image>)
      requires grid == StackDown(Blank(settings.GridWidth(), 0), secs)
      ensures Optional(barGraph, Bar(settings, kcounter, grading)).Err? ==>
        r == Err(Optional(barGraph, Bar(settings, kcounter, grading)).error)
      ensures Optional(barGraph, Bar(settings, kcounter, grading)).Ok? ==>
        after == secs + Optional(barGraph, Bar(settings, kcounter, grading)).value
        && r == Ok(StackDown(Blank(settings.GridWidth(), 0), after))
    {
      after := secs;
      if !barGraph {
        assert secs + [] == secs;
        return Ok(grid), secs;
      }
      var img :- GenerateBarGraph(grading);
      StackDownSnoc(Blank(settings.GridWidth(), 0), secs, img);
      return Ok(VertCat(grid, img)), secs + [img];
    }

    /** One optional step of `make_grid`: when `outside` is set, the additional kanji stacked below the grid so far. */
    method StackAddition(grading: Grading, outside: bool, grid: Image, ghost secs: seq<Image>)
      returns (r: Result<Image>, ghost after: seq<Image>)
      requires grid == StackDown(Blank(settings.GridWidth(), 0), secs)
      ensures Optional(outside, Addition(settings, kcounter, grading)).Err? ==>
        r == Err(Optional(outside, Addition(settings, kcounter, grading)).error)
      ensures Optional(outside, Addition(settings, kcounter, grading)).Ok? ==>
        after == secs + Optional(outside, Addition(settings, kcounter, grading)).value
        && r == Ok(StackDown(Blank(settings.GridWidth(), 0), after))
    {
      after := secs;
      if !outside {
        assert secs + [] == secs;
        return Ok(grid), secs;
      }
      var img :- GenerateAddition(grading);
      StackDownSnoc(Blank(settings.GridWidth(), 0), secs, img);
      return Ok(VertCat(grid, img)), secs + [img];
    }

    /** One optional step of `make_grid`: when `stats` is set, the stats stacked below the grid so far. */
    method StackStats(grading: Grading, stats: bool, grid: Image, ghost secs: seq<Image>)
      returns (r: Result<Image>, ghost after: seq<Image>)
      requires grid == StackDown(Blank(settings.GridWidth(), 0), secs)
      ensures Optional(stats, StatsSection(settings, kcounter, grading)).Err? ==>
        r == Err(Optional(stats, StatsSection(settings, kcounter, grading)).error)
      ensures Optional(stats, StatsSection(settings, kcounter, grading)).Ok? ==>
        after == secs + Optional(stats, StatsSection(settings, kcounter, grading)).value
        && r == Ok(StackDown(Blank(settings.GridWidth(), 0), after))
    {
      after := secs;
      if !stats {
        assert secs + [] == secs;
        return Ok(grid), secs;
      }
      var img :- GenerateStats(grading);
      StackDownSnoc(Blank(settings.GridWidth(), 0), secs, img);
      return Ok(VertCat(grid, img)), secs + [img];
    }

    /** The optional steps of `make_grid`, in its order; the first that fails fails the grid. */
    method StackExtras(grading: Grading, outside: bool, stats: bool, barGraph: bool, grid: Image, ghost secs: seq<Image>)
      returns (r: Result<Image>)
      requires grid == StackDown(Blank(settings.GridWidth(), 0), secs)
      ensures Extras(settings, kcounter, grading, outside, stats, barGraph).Err? ==>
        r == Err(Extras(settings, kcounter, grading, outside, stats, barGraph).error)
      ensures Extras(settings, kcounter, grading, outside, stats, barGraph).Ok? ==>
        r == Ok(StackDown(Blank(settings.GridWidth(), 0), secs + Extras(settings, kcounter, grading, outside, stats, barGraph).value))
    {
      ghost var bar := Optional(barGraph, Bar(settings, kcounter, grading));
      ghost var addition := Optional(outside, Addition(settings, kcounter, grading));
      ghost var statistics := Optional(stats, StatsSection(settings, kcounter, grading));
      ExtrasOf(settings, kcounter, grading, outside, stats, barGraph, bar, addition, statistics);
      var withBar, s1 := StackBar(grading, barGraph, grid, secs);
      var g1 :- withBar;
      var withAddition, s2 := StackAddition(grading, outside, g1, s1);
      var g2 :- withAddition;
      var withStats, s3 := StackStats(grading, stats, g2, s2);
      var g3 :- withStats;
      AppendAssoc(secs, bar.value, addition.value, statistics.value);
      return Ok(g3);
    }

    /**
     * `make_grid`: the group sections, then the optional ones, stacked below
     * an empty image as wide as the grid; then the side and bottom padding.
     * The first section that fails fails the grid.
     */
    method MakeGrid(grading: Grading, outside: bool := false, stats: bool := false, barGraph: bool := false)
      returns (r: Result<Image>)
      ensures r == Report.MakeGrid(settings, kcounter, grading, outside, stats, barGraph)
    {
      var stacked, secs := StackGroups(grading);
      var grid :- stacked;
      grid :- StackExtras(grading, outside, stats, barGraph, grid, secs);
      var padSides := Solid(settings.kanjiFontSize, grid.height, settings.backgroundColor);
      grid := HoriCat(grid, padSides);
      grid := HoriCat(padSides, grid);
      var padBottom := Solid(grid.width, settings.paddingUnderHeader, settings.backgroundColor);
      grid := VertCat(grid, padBottom);
      return Ok(grid);
    }
  }

  /**
   * The rewriting loop of `_generate_bar_graph`, in place on the table: each
   * key from the largest down takes `floor(split * width / total)`, and the
   * lowest key also takes what the rounding left of `width`.
   */
  method ScaleSplits(splits0: map<int, nat>, width: nat) returns (splits: map<int, nat>)
    requires MapSum(splits0) > 0
    ensures splits == ScaledWidths(splits0, width)
  {
    splits := splits0;
    var total := MapSum(splits);
    var ks := SortedDesc(splits.Keys);
    RewriteStart(splits0, width);
    var j := 0;
    while j < |ks|
      invariant 0 <= j <= |ks|
      invariant splits == Rewriting(splits0, width, j)
    {
      var k := ks[j];
      ghost var before := splits;
      RewriteStep(splits0, width, j);
      splits := splits[k := ScaleDown(splits[k], width, total)];
      RewriteLoopStep(splits0, width, j, before, k, splits);
      if k == MinOf(splits.Keys) {
        splits := AddRemainder(splits, k, width);
      }
      j := j + 1;
    }
    assert j == |splits0|;
  }
}
