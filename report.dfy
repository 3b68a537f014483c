/**
 * The whole grid: a header and a subgrid per group of the grading, then the
 * optional bar, additional-kanji and stats sections, framed by side and
 * bottom padding.
 */
module Report {
  import opened Results
  import opened Imaging
  import opened Counting
  import opened Grading
  import opened Layout
  import opened BarGraph
  import opened Stats

  /** The observed kanji that no group of the grading holds. */
  function OutOfGrading(counter: Counter, grading: Grading): (r: set<char>)
    ensures r * grading.AllInGrading() == {}
    ensures r + counter.Keys * grading.AllInGrading() == counter.Keys
  {
    set c | c in counter && !grading.IsInGrading(c)
  }

  /** `_generate_addition`: a header over the subgrid of the kanji outside the grading. */
  function Addition(st: Settings, counter: Counter, grading: Grading): Result<Image>
  {
    var sub :- Subgrid(st, counter, OutOfGrading(counter, grading));
    Ok(VertCat(Header(st, "Additional Kanji:"), sub))
  }

  /** The header and subgrid of one group. */
  function GroupSection(st: Settings, counter: Counter, g: Group): Result<Image>
  {
    var sub :- Subgrid(st, counter, g.kanji);
    Ok(VertCat(Header(st, g.name), sub))
  }

  /** The sections of the groups, in the grading's order; the first failing subgrid fails them all. */
  function GroupSections(st: Settings, counter: Counter, gs: seq<Group>): Result<seq<Image>>
  {
    if gs == [] then Ok([])
    else
      var init :- GroupSections(st, counter, gs[..|gs| - 1]);
      var last :- GroupSection(st, counter, gs[|gs| - 1]);
      Ok(init + [last])
  }

  /** `[part]` when the flag is set, nothing otherwise; a failing part fails only when it is drawn. */
  function Optional(flag: bool, part: Result<Image>): Result<seq<Image>>
  {
    if !flag then Ok([])
    else
      var img :- part;
      Ok([img])
  }

  /** The sections after the groups' that `make_grid` stacks when asked for: the bar, the additional kanji, the stats. */
  function Extras(st: Settings, counter: Counter, grading: Grading, outside: bool, stats: bool, barGraph: bool)
    : Result<seq<Image>>
  {
    var bar :- Optional(barGraph, Bar(st, counter, grading));
    var addition :- Optional(outside, Addition(st, counter, grading));
    var statistics :- Optional(stats, StatsSection(st, counter, grading));
    Ok(bar + addition + statistics)
  }

  /** `Extras` in terms of the three optional sections, named by the caller. */
  lemma ExtrasOf(st: Settings, counter: Counter, grading: Grading, outside: bool, stats: bool, barGraph: bool,
                 bar: Result<seq<Image>>, addition: Result<seq<Image>>, statistics: Result<seq<Image>>)
    requires bar == Optional(barGraph, Bar(st, counter, grading))
    requires addition == Optional(outside, Addition(st, counter, grading))
    requires statistics == Optional(stats, StatsSection(st, counter, grading))
    ensures bar.Err? ==> Extras(st, counter, grading, outside, stats, barGraph) == Err(bar.error)
    ensures bar.Ok? && addition.Err? ==> Extras(st, counter, grading, outside, stats, barGraph) == Err(addition.error)
    ensures bar.Ok? && addition.Ok? && statistics.Err? ==>
      Extras(st, counter, grading, outside, stats, barGraph) == Err(statistics.error)
    ensures bar.Ok? && addition.Ok? && statistics.Ok? ==>
      Extras(st, counter, grading, outside, stats, barGraph) == Ok(bar.value + addition.value + statistics.value)
  {
  }

  /** The sections that `make_grid` stacks, in stacking order. */
  function Sections(st: Settings, counter: Counter, grading: Grading, outside: bool, stats: bool, barGraph: bool)
    : Result<seq<Image>>
  {
    var groups :- GroupSections(st, counter, grading.groups);
    var extras :- Extras(st, counter, grading, outside, stats, barGraph);
    Ok(groups + extras)
  }

  /** Side padding `kfont.size` wide on both sides, then the bottom padding. */
  function Finish(st: Settings, grid: Image): Image
  {
    var side := Solid(st.kanjiFontSize, grid.height, st.backgroundColor);
    var padded := HoriCat(side, HoriCat(grid, side));
    VertCat(padded, Solid(padded.width, st.paddingUnderHeader, st.backgroundColor))
  }

  /** `make_grid` */
  function MakeGrid(st: Settings, counter: Counter, grading: Grading, outside: bool, stats: bool, barGraph: bool)
    : Result<Image>
  {
    var secs :- Sections(st, counter, grading, outside, stats, barGraph);
    Ok(Finish(st, StackDown(Blank(st.GridWidth(), 0), secs)))
  }

  /** A header over a subgrid: the subgrid fails exactly when it cannot be drawn, else it is the header plus `ceil(n / C)` rows. */
  lemma TitledSubgrid(st: Settings, counter: Counter, title: string, kanji: set<char>)
    ensures Subgrid(st, counter, kanji).Ok? <==> st.columns > 0 && st.colors != map[]
    ensures Subgrid(st, counter, kanji).Ok? ==>
      var img := VertCat(Header(st, title), Subgrid(st, counter, kanji).value);
      && img.width == st.kanjiFontSize * st.columns
      && img.height == HeaderHeight(st) + st.kanjiFontSize * Rows(|kanji|, st.columns)
  {
    SubgridErrors(st, counter, kanji);
    if st.columns > 0 && st.colors != map[] {
      SubgridLayout(st, counter, kanji);
    }
  }

  /** The additional-kanji section: a header and the subgrid of the observed kanji outside the grading. */
  lemma AdditionLayout(st: Settings, counter: Counter, grading: Grading)
    ensures Addition(st, counter, grading).Ok? <==> st.columns > 0 && st.colors != map[]
    ensures Addition(st, counter, grading).Ok? ==>
      var img := Addition(st, counter, grading).value;
      && img.width == st.kanjiFontSize * st.columns
      && img.height == HeaderHeight(st) + st.kanjiFontSize * Rows(|OutOfGrading(counter, grading)|, st.columns)
  {
    TitledSubgrid(st, counter, "Additional Kanji:", OutOfGrading(counter, grading));
  }

  /**
   * The group sections fail exactly when there is a group and subgrids cannot
   * be drawn; otherwise there is one section per group, in order, each its
   * header over its subgrid.
   */
  lemma {:induction false} GroupSectionsShape(st: Settings, counter: Counter, gs: seq<Group>)
    ensures GroupSections(st, counter, gs).Ok? <==> gs == [] || (st.columns > 0 && st.colors != map[])
    ensures GroupSections(st, counter, gs).Ok? ==>
      var secs := GroupSections(st, counter, gs).value;
      && |secs| == |gs|
      && forall i :: 0 <= i < |gs| ==>
           GroupSection(st, counter, gs[i]).Ok? && secs[i] == GroupSection(st, counter, gs[i]).value
  {
    if gs != [] {
      var init := gs[..|gs| - 1];
      GroupSectionsShape(st, counter, init);
      SubgridErrors(st, counter, gs[|gs| - 1].kanji);
      if GroupSections(st, counter, gs).Ok? {
        var secs := GroupSections(st, counter, gs).value;
        forall i | 0 <= i < |gs|
          ensures GroupSection(st, counter, gs[i]).Ok? && secs[i] == GroupSection(st, counter, gs[i]).value
        {
          if i < |gs| - 1 {
            assert gs[i] == init[i];
          }
        }
      }
    }
  }

  /** One more group of the loop in `make_grid`: its section joins the others, or its failure fails them all. */
  lemma GroupSectionsNext(st: Settings, counter: Counter, gs: seq<Group>, i: nat)
    requires i < |gs| && GroupSections(st, counter, gs[..i]).Ok?
    ensures GroupSection(st, counter, gs[i]).Ok? ==>
      GroupSections(st, counter, gs[..i + 1])
        == Ok(GroupSections(st, counter, gs[..i]).value + [GroupSection(st, counter, gs[i]).value])
    ensures GroupSection(st, counter, gs[i]).Err? ==>
      GroupSections(st, counter, gs) == Err(GroupSection(st, counter, gs[i]).error)
  {
    assert gs[..i + 1][..i] == gs[..i];
    if GroupSection(st, counter, gs[i]).Err? {
      GroupSectionsPrefixFails(st, counter, gs, i + 1);
    }
  }

  /** Once the sections of the first `n` groups fail, the sections of all the groups fail the same way. */
  lemma {:induction false} GroupSectionsPrefixFails(st: Settings, counter: Counter, gs: seq<Group>, n: nat)
    requires n <= |gs| && GroupSections(st, counter, gs[..n]).Err?
    ensures GroupSections(st, counter, gs) == GroupSections(st, counter, gs[..n])
    decreases |gs|
  {
    if n < |gs| {
      var init := gs[..|gs| - 1];
      assert init[..n] == gs[..n];
      GroupSectionsPrefixFails(st, counter, init, n);
    } else {
      assert gs[..n] == gs;
    }
  }

  /**
   * The optional sections fail with the error of the first one asked for
   * that fails, in drawing order; when none fails they are those asked for,
   * in that order.
   */
  lemma ExtrasSteps(st: Settings, counter: Counter, grading: Grading, outside: bool, stats: bool, barGraph: bool)
    ensures var bar := Bar(st, counter, grading);
      var addition := Addition(st, counter, grading);
      var statistics := StatsSection(st, counter, grading);
      var extras := Extras(st, counter, grading, outside, stats, barGraph);
      && (barGraph && bar.Err? ==> extras == Err(bar.error))
      && ((barGraph ==> bar.Ok?) && outside && addition.Err? ==> extras == Err(addition.error))
      && ((barGraph ==> bar.Ok?) && (outside ==> addition.Ok?) && stats && statistics.Err? ==> extras == Err(statistics.error))
      && ((barGraph ==> bar.Ok?) && (outside ==> addition.Ok?) && (stats ==> statistics.Ok?) ==>
            extras == Ok((if barGraph then [bar.value] else [])
              + (if outside then [addition.value] else [])
              + (if stats then [statistics.value] else [])))
  {
  }

  /** The sections of a grid that succeeds: the groups, then the bar, the additional kanji and the stats, each only if asked for. */
  lemma SectionsOrder(st: Settings, counter: Counter, grading: Grading, outside: bool, stats: bool, barGraph: bool)
    requires Sections(st, counter, grading, outside, stats, barGraph).Ok?
    ensures GroupSections(st, counter, grading.groups).Ok?
    ensures barGraph ==> Bar(st, counter, grading).Ok?
    ensures outside ==> Addition(st, counter, grading).Ok?
    ensures stats ==> StatsSection(st, counter, grading).Ok?
    ensures Sections(st, counter, grading, outside, stats, barGraph).value
      == GroupSections(st, counter, grading.groups).value
         + (if barGraph then [Bar(st, counter, grading).value] else [])
         + (if outside then [Addition(st, counter, grading).value] else [])
         + (if stats then [StatsSection(st, counter, grading).value] else [])
  {
    ExtrasSteps(st, counter, grading, outside, stats, barGraph);
    AppendAssoc(GroupSections(st, counter, grading.groups).value,
      if barGraph then [Bar(st, counter, grading).value] else [],
      if outside then [Addition(st, counter, grading).value] else [],
      if stats then [StatsSection(st, counter, grading).value] else []);
  }

  /**
   * `make_grid` fails exactly when a section it draws fails: a subgrid when
   * there is a group or the additional kanji are asked for, the bar, or the
   * stats of an empty grading.
   */
  lemma MakeGridErrors(st: Settings, counter: Counter, grading: Grading, outside: bool, stats: bool, barGraph: bool)
    ensures MakeGrid(st, counter, grading, outside, stats, barGraph).Ok? <==>
      && ((grading.groups != [] || outside) ==> st.columns > 0 && st.colors != map[])
      && (barGraph ==> Bar(st, counter, grading).Ok?)
      && (stats ==> grading.AllInGrading() != {})
  {
    GroupSectionsShape(st, counter, grading.groups);
    AdditionLayout(st, counter, grading);
    StatsLayout(st, counter, grading);
  }

  /** The grid is the section width plus a `kfont.size` margin each side, and the sections plus the bottom padding tall. */
  lemma MakeGridSize(st: Settings, counter: Counter, grading: Grading, outside: bool, stats: bool, barGraph: bool)
    requires MakeGrid(st, counter, grading, outside, stats, barGraph).Ok?
    ensures var img := MakeGrid(st, counter, grading, outside, stats, barGraph).value;
      var secs := Sections(st, counter, grading, outside, stats, barGraph).value;
      && img.width == st.kanjiFontSize * st.columns + 2 * st.kanjiFontSize
      && img.height == Heights(secs) + st.paddingUnderHeader
  {
    var secs := Sections(st, counter, grading, outside, stats, barGraph).value;
    StackDownSize(Blank(st.GridWidth(), 0), secs);
  }
}
