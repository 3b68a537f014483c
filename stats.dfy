/**
 * The stats section: one line per threshold with the number of kanji counted
 * in its tier, then the number of graded kanji that never occurred and the
 * share of the grading that did.
 */
module Stats {
  import opened Results
  import opened Imaging
  import opened Ordering
  import opened Counting
  import opened Grading
  import opened Layout
  import opened BarGraph
  import opened Arith

  /**
   * The kanji counted on the line of threshold `key`, over every observed
   * kanji, graded or not: the top threshold counts `key` or more occurrences,
   * every other threshold exactly `key`.
   */
  function StatSet(counter: Counter, keys: set<int>, key: int): (r: set<char>)
    ensures r <= counter.Keys
  {
    if IsTop(keys, key) then OrMore(counter, key) else Exactly(counter, key)
  }

  /** `key == max(keys)` */
  predicate IsTop(keys: set<int>, key: int)
  {
    keys != {} && key == MaxOf(keys)
  }

  /** The observed kanji counted `key` times or more. */
  function OrMore(counter: Counter, key: int): set<char>
  {
    set c | c in counter && counter[c] >= key
  }

  /** The observed kanji counted exactly `key` times. */
  function Exactly(counter: Counter, key: int): set<char>
  {
    set c | c in counter && counter[c] == key
  }

  /** One line of the stats list on its own `width` by `hfont.size` image, the text indented by `hfont.size`. */
  function StatLineImage(st: Settings, counter: Counter, keys: set<int>, key: int): (r: Image)
    ensures r.width == st.GridWidth() && r.height == st.headerFontSize
  {
    var line := Solid(st.GridWidth(), st.headerFontSize, st.backgroundColor);
    var caption := StatLine(key, IsTop(keys, key), |StatSet(counter, keys, key)|);
    DrawText(line, st.headerFontSize, 0, caption, st.headerFontColor)
  }

  /** The lines for the thresholds `ks`, in that order. */
  function StatLines(st: Settings, counter: Counter, keys: set<int>, ks: seq<int>): (r: seq<Image>)
    ensures |r| == |ks|
    ensures forall i :: 0 <= i < |ks| ==> r[i] == StatLineImage(st, counter, keys, ks[i])
  {
    seq(|ks|, i requires 0 <= i < |ks| => StatLineImage(st, counter, keys, ks[i]))
  }

  /** One pass of the threshold loop: the line it draws for `ks[i]` is the `i`-th of the lines. */
  lemma StatLineStep(st: Settings, counter: Counter, keys: set<int>, ks: seq<int>, i: nat, n: nat)
    requires i < |ks| && ks[i] in keys
    requires n == if ks[i] == MaxOf(keys) then |OrMore(counter, ks[i])| else |Exactly(counter, ks[i])|
    ensures DrawText(Solid(st.GridWidth(), st.headerFontSize, st.backgroundColor), st.headerFontSize, 0,
        StatLine(ks[i], ks[i] == MaxOf(keys), n), st.headerFontColor)
      == StatLines(st, counter, keys, ks)[i]
  {
  }

  /** `100 * (graded - zero) / graded`, the share of the grading that occurred, taken exactly. */
  function Percent(graded: nat, zero: nat): (r: real)
    requires zero <= graded && graded > 0
    ensures 0.0 <= r <= 100.0
    ensures r == 100.0 <==> zero == 0
    ensures r == 0.0 <==> zero == graded
  {
    var g, z := graded as real, zero as real;
    ShareBounds(g, z);
    100.0 * (g - z) / g
  }

  /** The share `100 * (g - z) / g` of a whole `g` that leaves out the part `z`. */
  lemma ShareBounds(g: real, z: real)
    requires 0.0 <= z <= g && 0.0 < g
    ensures 0.0 <= 100.0 * (g - z) / g <= 100.0
    ensures 100.0 * (g - z) / g == 100.0 <==> z == 0.0
    ensures 100.0 * (g - z) / g == 0.0 <==> z == g
  {
    var r := 100.0 * (g - z) / g;
    assert r * g == 100.0 * (g - z);
    assert (100.0 - r) * g == 100.0 * z;
  }

  /** The last line: graded kanji never seen, and the share of the grading seen. */
  function ZeroLineImage(st: Settings, zero: nat, percent: real): (r: Image)
    ensures r.width == st.GridWidth() && r.height == st.headerFontSize
  {
    var line := Solid(st.GridWidth(), st.headerFontSize, st.backgroundColor);
    DrawText(line, st.headerFontSize, 0, ZeroLine(zero, percent), st.headerFontColor)
  }

  /** The threshold lines, largest threshold first, stacked on an empty image of the section width. */
  function StatsBody(st: Settings, counter: Counter): Image
  {
    var keys := st.colors.Keys;
    StackDown(Blank(st.GridWidth(), 0), StatLines(st, counter, keys, SortedDesc(keys)))
  }

  /**
   * `_generate_stats`: the header, the threshold lines and the zero line. An
   * empty grading divides by zero in the percentage.
   */
  function StatsSection(st: Settings, counter: Counter, grading: Grading): Result<Image>
  {
    var top := VertCat(Header(st, "Kanji Stats:"), StatsBody(st, counter));
    var graded := grading.AllInGrading();
    if graded == {} then Err(DivisionByZero)
    else
      var zero := |Unseen(counter, graded)|;
      GradedParts(counter, graded);
      Ok(VertCat(top, ZeroLineImage(st, zero, Percent(|graded|, zero))))
  }

  /** The zero count and the observed graded kanji split the grading: `0 <= zero_occ <= |graded|`. */
  lemma ZeroOccurrences(counter: Counter, grading: Grading)
    ensures var graded := grading.AllInGrading();
      |Unseen(counter, graded)| + |graded * counter.Keys| == |graded|
    ensures |Unseen(counter, grading.AllInGrading())| <= |grading.AllInGrading()|
  {
    GradedParts(counter, grading.AllInGrading());
  }

  /** One line per threshold, each `hfont.size` tall. */
  lemma StatsBodySize(st: Settings, counter: Counter)
    ensures StatsBody(st, counter).width == st.GridWidth()
    ensures StatsBody(st, counter).height == |st.colors| * st.headerFontSize
  {
    var keys := st.colors.Keys;
    var lines := StatLines(st, counter, keys, SortedDesc(keys));
    HeightsUniform(lines, st.headerFontSize);
    StackDownSize(Blank(st.GridWidth(), 0), lines);
  }

  /**
   * The section fails exactly on an empty grading; otherwise it is a header,
   * one line per threshold and the zero line.
   */
  lemma StatsLayout(st: Settings, counter: Counter, grading: Grading)
    ensures StatsSection(st, counter, grading).Ok? <==> grading.AllInGrading() != {}
    ensures StatsSection(st, counter, grading).Ok? ==>
      var img := StatsSection(st, counter, grading).value;
      && img.width == st.kanjiFontSize * st.columns
      && img.height == HeaderHeight(st) + (|st.colors| + 1) * st.headerFontSize
  {
    StatsBodySize(st, counter);
    assert (|st.colors| + 1) * st.headerFontSize == |st.colors| * st.headerFontSize + st.headerFontSize;
  }

  /** The line of the threshold at position `i` counts the kanji of its tier. */
  lemma StatLineCounts(st: Settings, counter: Counter, i: nat)
    requires i < |st.colors|
    ensures var keys := st.colors.Keys;
      var key := SortedDesc(keys)[i];
      var w, h := st.GridWidth(), st.headerFontSize;
      && StatLines(st, counter, keys, SortedDesc(keys))[i]
           == Image(w, h, [Fill(0, 0, w, h, st.backgroundColor),
                           Write(h, 0, StatLine(key, i == 0, |StatSet(counter, keys, key)|), st.headerFontColor)])
      && (i == 0 ==> forall c :: c in StatSet(counter, keys, key) <==> c in counter && counter[c] >= key)
      && (i > 0 ==> forall c :: c in StatSet(counter, keys, key) <==> c in counter && counter[c] == key)
  {
    var keys := st.colors.Keys;
    var r := SortedDesc(keys);
    DecreasingEnds(r, keys);
    assert r[i] in r;
    assert i > 0 ==> r[0] > r[i];
    StatLineShape(st, counter, keys, r, i, i == 0);
  }

  /** Line `i` of the listing `ks` is a background line with its caption written at `(hfont.size, 0)`. */
  lemma StatLineShape(st: Settings, counter: Counter, keys: set<int>, ks: seq<int>, i: nat, top: bool)
    requires i < |ks| && top == IsTop(keys, ks[i])
    ensures var w, h := st.GridWidth(), st.headerFontSize;
      StatLines(st, counter, keys, ks)[i]
        == Image(w, h, [Fill(0, 0, w, h, st.backgroundColor),
                        Write(h, 0, StatLine(ks[i], top, |StatSet(counter, keys, ks[i])|), st.headerFontColor)])
  {
  }

  /**
   * The stats lines and the bar bands count differently: a line counts
   * ungraded kanji too, and a line below the top counts one exact value.
   * Restricted to the grading, the top line is the top band, every line lies
   * in its band, and the two agree when the next threshold is one higher.
   */
  lemma StatsVsBands(counter: Counter, graded: set<char>, keys: set<int>, key: int)
    requires key in keys
    ensures StatSet(counter, keys, key) * graded <= Band(counter, graded, keys, key)
    ensures key == MaxOf(keys) ==> Band(counter, graded, keys, key) == StatSet(counter, keys, key) * graded
    ensures key != MaxOf(keys) && Above(keys, key) != {} && NextAbove(keys, key) == key + 1 ==>
      Band(counter, graded, keys, key) == StatSet(counter, keys, key) * graded
  {
    if key != MaxOf(keys) {
      assert MaxOf(keys) in Above(keys, key);
    }
  }

  /** 500 unseen kanji of 2000 graded: 75% occurred. */
  lemma PercentExample()
    ensures Percent(2000, 500) == 75.0
  {
  }
}
