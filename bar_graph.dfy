/**
 * The proportion bar: how many graded kanji fall in each count band, and the
 * integer widths the bands get so that the segments fill the bar exactly.
 */
module BarGraph {
  import opened Results
  import opened Imaging
  import opened Ordering
  import opened Counting
  import opened Grading
  import opened Tiers
  import opened Layout
  import opened Arith

  /** The thresholds above `key`. */
  function Above(keys: set<int>, key: int): set<int>
  {
    set k | k in keys && k > key
  }

  /** `prev_key` of the band loop: the smallest threshold above `key`, the exclusive top of its band. */
  function NextAbove(keys: set<int>, key: int): (r: int)
    requires Above(keys, key) != {}
    ensures r in keys && key < r
    ensures forall k :: k in keys && key < k ==> r <= k
  {
    assert forall k :: k in keys && key < k ==> k in Above(keys, key);
    MinOf(Above(keys, key))
  }

  /** The observed graded kanji whose count is at least `v`. */
  function AtLeast(counter: Counter, graded: set<char>, v: int): set<char>
  {
    set c | c in counter && c in graded && counter[c] >= v
  }

  /** The observed graded kanji whose count is at least `lo` and below `hi`. */
  function Between(counter: Counter, graded: set<char>, lo: int, hi: int): set<char>
  {
    set c | c in counter && c in graded && lo <= counter[c] < hi
  }

  /**
   * The kanji counted in the band of threshold `key`: observed, graded, and
   * with a count from `key` up to (not including) the next threshold; the top
   * band has no upper end.
   */
  function Band(counter: Counter, graded: set<char>, keys: set<int>, key: int): (r: set<char>)
    requires key in keys
    ensures r <= counter.Keys * graded
    ensures forall c :: c in r ==> key <= counter[c]
    ensures key != MaxOf(keys) ==> forall c :: c in r ==> counter[c] < NextAbove(keys, key)
  {
    if key == MaxOf(keys) then AtLeast(counter, graded, key)
    else
      assert MaxOf(keys) in Above(keys, key);
      Between(counter, graded, key, NextAbove(keys, key))
  }

  /** Graded kanji that never occurred: the pseudo-band 0. */
  function Unseen(counter: Counter, graded: set<char>): set<char>
  {
    graded - counter.Keys
  }

  /** The size of every threshold's band. */
  function BandSizes(counter: Counter, graded: set<char>, keys: set<int>): map<int, nat>
  {
    map key | key in keys :: |Band(counter, graded, keys, key)|
  }

  /** The `splits` table after the band loop and the band-0 entry (which replaces a threshold 0). */
  function Splits(counter: Counter, graded: set<char>, keys: set<int>): (r: map<int, nat>)
    ensures r.Keys == keys + {0}
  {
    BandSizes(counter, graded, keys)[0 := |Unseen(counter, graded)|]
  }

  /** The sum of `m` over the keys `ks`. */
  function SumOver(m: map<int, nat>, ks: seq<int>): nat
    requires forall i :: 0 <= i < |ks| ==> ks[i] in m
  {
    if ks == [] then 0 else SumOver(m, ks[..|ks| - 1]) + m[ks[|ks| - 1]]
  }

  /** `sum(d.values())` */
  function MapSum(m: map<int, nat>): nat
  {
    SumOver(m, SortedDesc(m.Keys))
  }

  /** Two maps that agree on `ks` have the same sum over `ks`. */
  lemma {:induction false} SumOverAgree(m1: map<int, nat>, m2: map<int, nat>, ks: seq<int>)
    requires forall i :: 0 <= i < |ks| ==> ks[i] in m1 && ks[i] in m2 && m1[ks[i]] == m2[ks[i]]
    ensures SumOver(m1, ks) == SumOver(m2, ks)
  {
    if ks != [] {
      SumOverAgree(m1, m2, ks[..|ks| - 1]);
    }
  }

  /** Changing the entry of one key of a repetition-free key list changes the sum by the difference. */
  lemma {:induction false} SumOverUpdate(m: map<int, nat>, ks: seq<int>, k: int, v: nat)
    requires forall i :: 0 <= i < |ks| ==> ks[i] in m
    requires k in m && Decreasing(ks)
    ensures k !in ks ==> SumOver(m[k := v], ks) == SumOver(m, ks)
    ensures k in ks ==> SumOver(m[k := v], ks) + m[k] == SumOver(m, ks) + v
  {
    if ks != [] {
      var p, last := ks[..|ks| - 1], ks[|ks| - 1];
      assert Decreasing(p);
      assert forall x :: x in ks <==> x in p || x == last;
      assert last !in p;
      SumOverUpdate(m, p, k, v);
    }
  }

  /** `int(split * factor)` with `factor = width / total`, taken exactly. */
  function ScaleDown(split: nat, width: nat, total: nat): nat
    requires total > 0
  {
    MulMono(0, split, width);
    split * width / total
  }

  /** Every band scaled down to the bar width, before the remainder is added. */
  function Floors(splits: map<int, nat>, width: nat, total: nat): (r: map<int, nat>)
    requires total > 0
    ensures r.Keys == splits.Keys
  {
    map k | k in splits :: ScaleDown(splits[k], width, total)
  }

  /**
   * The width lost to rounding down: `split * width - floor * total` lies in
   * `[0, total - 1]` for each band.
   */
  lemma {:induction false} FloorsLoss(splits: map<int, nat>, width: nat, total: nat, ks: seq<int>)
    requires total > 0
    requires forall i :: 0 <= i < |ks| ==> ks[i] in splits
    ensures 0 <= SumOver(splits, ks) * width - SumOver(Floors(splits, width, total), ks) * total
    ensures SumOver(splits, ks) * width - SumOver(Floors(splits, width, total), ks) * total <= |ks| * (total - 1)
  {
    if ks != [] {
      var f := Floors(splits, width, total);
      var p, k := ks[..|ks| - 1], ks[|ks| - 1];
      FloorsLoss(splits, width, total, p);
      LossStep(SumOver(splits, p), SumOver(f, p), splits[k], f[k], width, total, |p|);
    }
  }

  /** Adding one band with `q = floor(s * w / t)` loses at most `t - 1` more. */
  lemma LossStep(sp: int, fp: int, s: nat, q: nat, w: nat, t: int, n: nat)
    requires t > 0 && q == s * w / t
    requires 0 <= sp * w - fp * t <= n * (t - 1)
    ensures 0 <= (sp + s) * w - (fp + q) * t <= (n + 1) * (t - 1)
  {
    var rem := s * w - q * t;
    assert s * w == q * t + (s * w) % t;
    assert (sp + s) * w - (fp + q) * t == (sp * w - fp * t) + rem;
    assert (n + 1) * (t - 1) == n * (t - 1) + (t - 1);
  }

  /** The rounded-down widths never exceed the bar, and miss it by less than one unit per band. */
  lemma FloorsShortfall(splits: map<int, nat>, width: nat)
    requires MapSum(splits) > 0
    ensures MapSum(Floors(splits, width, MapSum(splits))) <= width
    ensures width - MapSum(Floors(splits, width, MapSum(splits))) < |splits|
  {
    var total := MapSum(splits);
    var f := Floors(splits, width, total);
    var ks := SortedDesc(splits.Keys);
    FloorsLoss(splits, width, total, ks);
    assert SortedDesc(f.Keys) == ks;
    assert |ks| > 0;
    ShortfallBound(total, width, MapSum(f), |ks|);
  }

  /** `0 <= (w - s) * t <= n * (t - 1)` with `t, n > 0` forces `0 <= w - s < n`. */
  lemma ShortfallBound(t: int, w: int, s: int, n: int)
    requires t > 0 && n > 0
    requires 0 <= t * w - s * t <= n * (t - 1)
    ensures s <= w && w - s < n
  {
    assert t * w - s * t == (w - s) * t;
    assert n * (t - 1) == n * t - n;
    MulMono(w - s, -1, t);
    MulMono(n, w - s, t);
  }

  /** The lowest key of the table: the band that receives the rounding remainder. */
  function Lowest(splits: map<int, nat>): (r: int)
    requires MapSum(splits) > 0
    ensures r in splits && forall k :: k in splits ==> r <= k
  {
    assert |SortedDesc(splits.Keys)| > 0;
    MinOf(splits.Keys)
  }

  /** Replacing one entry of a table changes its sum by the difference. */
  lemma ReplaceSum(m: map<int, nat>, k: int, v: nat)
    requires k in m
    ensures MapSum(m[k := v]) + m[k] == MapSum(m) + v
  {
    var ks := SortedDesc(m.Keys);
    assert m[k := v].Keys == m.Keys;
    assert k in ks;
    SumOverUpdate(m, ks, k, v);
  }

  /** The table with `width` minus its sum added at key `lo`, so that it sums to exactly `width`. */
  function AddRemainder(f: map<int, nat>, lo: int, width: nat): (r: map<int, nat>)
    requires lo in f && MapSum(f) <= width
    ensures r.Keys == f.Keys
    ensures MapSum(r) == width
  {
    var v: nat := f[lo] + (width - MapSum(f));
    ReplaceSum(f, lo, v);
    f[lo := v]
  }

  /**
   * The split-rewriting loop: each band becomes `floor(split * width / total)`
   * and the lowest band also takes `width` minus the sum of those floors, so
   * the widths add up to exactly `width`.
   */
  function ScaledWidths(splits: map<int, nat>, width: nat): (r: map<int, nat>)
    requires MapSum(splits) > 0
    ensures r.Keys == splits.Keys
    ensures MapSum(r) == width
  {
    FloorsShortfall(splits, width);
    AddRemainder(Floors(splits, width, MapSum(splits)), Lowest(splits), width)
  }

  /** Every band other than the lowest is its rounded-down share; the lowest takes less than one unit per band on top. */
  lemma ScaledWidthsShares(splits: map<int, nat>, width: nat, k: int)
    requires MapSum(splits) > 0 && k in splits
    ensures var total := MapSum(splits);
      var r := ScaledWidths(splits, width);
      && (k != Lowest(splits) ==> r[k] == splits[k] * width / total)
      && (k == Lowest(splits) ==> splits[k] * width / total <= r[k] < splits[k] * width / total + |splits|)
  {
    FloorsShortfall(splits, width);
  }

  /**
   * With positive thresholds the lowest key of the table is the band `0` of
   * never-seen graded kanji, so that band takes the remainder and every
   * threshold band gets exactly its rounded-down share.
   */
  lemma RemainderToBandZero(counter: Counter, graded: set<char>, keys: set<int>, width: nat, k: int)
    requires forall j :: j in keys ==> j > 0
    requires MapSum(Splits(counter, graded, keys)) > 0 && k in keys
    ensures var splits := Splits(counter, graded, keys);
      var total := MapSum(splits);
      var r := ScaledWidths(splits, width);
      && Lowest(splits) == 0
      && r[k] == splits[k] * width / total
      && splits[0] * width / total <= r[0] < splits[0] * width / total + |splits|
  {
    var splits := Splits(counter, graded, keys);
    ScaledWidthsShares(splits, width, k);
    ScaledWidthsShares(splits, width, 0);
  }

  /** `kfont.size * columns - 2 * bar_vert_border`, the width shared by the segments. */
  function BarWidth(st: Settings): int
  {
    st.GridWidth() - 2 * st.barVertBorder
  }

  /** The running `bar` of the drawing loop: one segment per key of `ks`, left to right. */
  function Strip(st: Settings, widths: map<int, nat>, ks: seq<int>): (r: Image)
    requires forall i :: 0 <= i < |ks| ==> ks[i] in widths
    ensures r.width == SumOver(widths, ks) && r.height == st.kanjiFontSize
  {
    if ks == [] then Blank(0, st.kanjiFontSize)
    else
      var k := ks[|ks| - 1];
      HoriCat(Strip(st, widths, ks[..|ks| - 1]),
              Solid(widths[k], st.kanjiFontSize, GetOr(st.colors, k, st.backgroundColor)))
  }

  /** The strip inside its vertical borders, between two horizontal borders, under the top padding. */
  function Framed(st: Settings, strip: Image): Image
  {
    var full := st.GridWidth();
    var pad := Solid(full, st.barPadding, st.backgroundColor);
    var horz := Solid(full, st.barHoriBorder, st.headerFontColor);
    var vert := Solid(st.barVertBorder, st.kanjiFontSize, st.headerFontColor);
    VertCat(pad, VertCat(VertCat(horz, HoriCat(HoriCat(vert, strip), vert)), horz))
  }

  /**
   * `_generate_bar_graph`. No band at all divides by zero; a bar narrower than
   * its two borders gets a segment of negative width, which the imaging
   * library refuses.
   */
  function Bar(st: Settings, counter: Counter, grading: Grading): Result<Image>
  {
    var splits := Splits(counter, grading.AllInGrading(), st.colors.Keys);
    var w := BarWidth(st);
    if MapSum(splits) == 0 then Err(DivisionByZero)
    else if w < 0 then Err(NegativeSize)
    else
      var widths := ScaledWidths(splits, w);
      Ok(Framed(st, Strip(st, widths, SortedDesc(widths.Keys))))
  }

  /** The bar fails exactly as described, and otherwise has the section's fixed size with segments filling it. */
  lemma BarLayout(st: Settings, counter: Counter, grading: Grading)
    ensures var splits := Splits(counter, grading.AllInGrading(), st.colors.Keys);
      && (MapSum(splits) == 0 ==> Bar(st, counter, grading) == Err(DivisionByZero))
      && (MapSum(splits) > 0 && BarWidth(st) < 0 ==> Bar(st, counter, grading) == Err(NegativeSize))
      && (MapSum(splits) > 0 && BarWidth(st) >= 0 ==> Bar(st, counter, grading).Ok?)
    ensures Bar(st, counter, grading).Ok? ==>
      var img := Bar(st, counter, grading).value;
      && img.width == st.kanjiFontSize * st.columns
      && img.height == st.barPadding + 2 * st.barHoriBorder + st.kanjiFontSize
  {
  }

  /** The segments of a drawn bar: `vert + strip + vert` is the full section width. */
  lemma StripFillsBar(st: Settings, counter: Counter, grading: Grading)
    requires Bar(st, counter, grading).Ok?
    ensures var splits := Splits(counter, grading.AllInGrading(), st.colors.Keys);
      var widths := ScaledWidths(splits, BarWidth(st));
      st.barVertBorder + Strip(st, widths, SortedDesc(widths.Keys)).width + st.barVertBorder
        == st.kanjiFontSize * st.columns
  {
  }

  /** `key < k`: band `key` stops below `k`, band `k` starts at `k`. */
  lemma BandsDisjointBelow(counter: Counter, graded: set<char>, keys: set<int>, key: int, k: int)
    requires key in keys && k in keys && key < k
    ensures Band(counter, graded, keys, key) * Band(counter, graded, keys, k) == {}
  {
    assert key != MaxOf(keys);
    assert k in Above(keys, key);
    assert NextAbove(keys, key) <= k;
  }

  /** No kanji is counted in two bands, nor in a band and in band 0. */
  lemma BandsDisjoint(counter: Counter, graded: set<char>, keys: set<int>, k1: int, k2: int)
    requires k1 in keys && k2 in keys
    ensures k1 != k2 ==> Band(counter, graded, keys, k1) * Band(counter, graded, keys, k2) == {}
    ensures Band(counter, graded, keys, k1) * Unseen(counter, graded) == {}
  {
    if k1 < k2 {
      BandsDisjointBelow(counter, graded, keys, k1, k2);
    } else if k2 < k1 {
      BandsDisjointBelow(counter, graded, keys, k2, k1);
    }
  }

  /** Lowering the bound from the next threshold `hi` to `lo` adds exactly the band of `lo`. */
  lemma BandStep(counter: Counter, graded: set<char>, keys: set<int>, lo: int, hi: int)
    requires lo in keys && lo != MaxOf(keys)
    requires Above(keys, lo) != {} && NextAbove(keys, lo) == hi
    ensures |AtLeast(counter, graded, lo)| == |AtLeast(counter, graded, hi)| + |Band(counter, graded, keys, lo)|
  {
    var band := Band(counter, graded, keys, lo);
    var upper := AtLeast(counter, graded, hi);
    assert AtLeast(counter, graded, lo) == upper + band;
    assert upper * band == {};
  }

  /** The top band is everything counted at least the top threshold. */
  lemma BandsPrefixTop(counter: Counter, graded: set<char>, keys: set<int>, r: seq<int>)
    requires Decreasing(r) && r != [] && forall x :: x in r <==> x in keys
    ensures forall j :: 0 <= j < |r[..1]| ==> r[..1][j] in BandSizes(counter, graded, keys)
    ensures SumOver(BandSizes(counter, graded, keys), r[..1]) == |AtLeast(counter, graded, r[0])|
  {
    var sizes := BandSizes(counter, graded, keys);
    assert r[..1][..0] == [];
    assert r[0] in r;
    assert SumOver(sizes, r[..1]) == sizes[r[0]];
    DecreasingEnds(r, keys);
    assert Band(counter, graded, keys, r[0]) == AtLeast(counter, graded, r[0]);
  }

  /** One more band, the next threshold `r[i - 1]` down, extends the prefix sum to that threshold. */
  lemma BandsPrefixNext(counter: Counter, graded: set<char>, keys: set<int>, r: seq<int>, i: nat)
    requires 1 < i <= |r| && forall j :: 0 <= j < |r| ==> r[j] in keys
    requires r[i - 1] != MaxOf(keys) && Above(keys, r[i - 1]) != {} && NextAbove(keys, r[i - 1]) == r[i - 2]
    requires SumOver(BandSizes(counter, graded, keys), r[..i - 1]) == |AtLeast(counter, graded, r[i - 2])|
    ensures SumOver(BandSizes(counter, graded, keys), r[..i]) == |AtLeast(counter, graded, r[i - 1])|
  {
    var sizes := BandSizes(counter, graded, keys);
    assert r[..i][..i - 1] == r[..i - 1];
    assert SumOver(sizes, r[..i]) == SumOver(sizes, r[..i - 1]) + sizes[r[i - 1]];
    BandStep(counter, graded, keys, r[i - 1], r[i - 2]);
  }

  /** The first `i` bands, from the top, hold exactly the observed graded kanji counted at least the `i`-th threshold. */
  lemma {:induction false} BandsPrefix(counter: Counter, graded: set<char>, keys: set<int>, r: seq<int>, i: nat)
    requires Decreasing(r) && forall x :: x in r <==> x in keys
    requires 0 < i <= |r|
    ensures forall j :: 0 <= j < i ==> r[j] in BandSizes(counter, graded, keys)
    ensures SumOver(BandSizes(counter, graded, keys), r[..i]) == |AtLeast(counter, graded, r[i - 1])|
  {
    assert forall j :: 0 <= j < |r| ==> r[j] in keys by {
      forall j | 0 <= j < |r| ensures r[j] in keys { assert r[j] in r; }
    }
    if i == 1 {
      BandsPrefixTop(counter, graded, keys, r);
    } else {
      BandsPrefix(counter, graded, keys, r, i - 1);
      DecreasingPrevious(r, keys, i - 1);
      DecreasingEnds(r, keys);
      assert Above(keys, r[i - 1]) == set k | k in keys && k > r[i - 1];
      assert r[0] > r[i - 1];
      BandsPrefixNext(counter, graded, keys, r, i);
    }
  }

  /** Summing over one more key adds its entry. */
  lemma SumOverSnoc(m: map<int, nat>, ks: seq<int>, k: int)
    requires forall i :: 0 <= i < |ks| ==> ks[i] in m
    requires k in m
    ensures SumOver(m, ks + [k]) == SumOver(m, ks) + m[k]
  {
    assert (ks + [k])[..|ks|] == ks;
  }

  /** With positive keys, a new entry 0 is listed last and adds its value to the sum. */
  lemma SumWithZero(m: map<int, nat>, z: nat)
    requires forall k :: k in m ==> k > 0
    ensures MapSum(m[0 := z]) == MapSum(m) + z
  {
    var r := SortedDesc(m.Keys);
    var m0 := m[0 := z];
    assert m0.Keys == m.Keys + {0};
    SortedDescAddLowest(m.Keys, 0);
    var r0 := r + [0];
    assert SortedDesc(m0.Keys) == r0;
    forall i | 0 <= i < |r|
      ensures r[i] in m && r[i] in m0 && m[r[i]] == m0[r[i]]
    {
      assert r[i] in r;
    }
    SumOverSnoc(m0, r, 0);
    SumOverAgree(m0, m, r);
  }

  /** A graded kanji either occurred or is in band 0. */
  lemma GradedParts(counter: Counter, graded: set<char>)
    ensures |graded| == |graded * counter.Keys| + |Unseen(counter, graded)|
  {
    assert graded == (graded * counter.Keys) + Unseen(counter, graded);
    assert (graded * counter.Keys) * Unseen(counter, graded) == {};
  }

  /** With thresholds starting at 1 and a counter of occurrences, the splits add up to the number of graded kanji. */
  lemma SplitsCover(counter: Counter, graded: set<char>, keys: set<int>)
    requires Positive(counter)
    requires keys != {} && MinOf(keys) == 1
    ensures MapSum(Splits(counter, graded, keys)) == |graded|
  {
    BandsSeen(counter, graded, keys);
    BandKeysPositive(counter, graded, keys);
    GradedParts(counter, graded);
    CoverSum(BandSizes(counter, graded, keys), |Unseen(counter, graded)|, |graded * counter.Keys|, |graded|);
  }

  /** With every observed count at least 1 and a lowest key of 1, the bands hold exactly the observed graded kanji. */
  lemma BandsSeen(counter: Counter, graded: set<char>, keys: set<int>)
    requires Positive(counter)
    requires keys != {} && MinOf(keys) == 1
    ensures MapSum(BandSizes(counter, graded, keys)) == |graded * counter.Keys|
  {
    BandsAll(counter, graded, keys);
    ObservedAtLeastOne(counter, graded);
  }

  /** With a lowest key of 1, the band table has positive keys only. */
  lemma BandKeysPositive(counter: Counter, graded: set<char>, keys: set<int>)
    requires keys != {} && MinOf(keys) == 1
    ensures forall k :: k in BandSizes(counter, graded, keys) ==> k > 0
  {
    var sizes := BandSizes(counter, graded, keys);
    forall k | k in sizes ensures k > 0 {
      assert k in keys;
    }
  }

  /** The band sizes plus the band-0 entry add up to the total. */
  lemma CoverSum(sizes: map<int, nat>, z: nat, seen: nat, total: nat)
    requires forall k :: k in sizes ==> k > 0
    requires MapSum(sizes) == seen && total == seen + z
    ensures MapSum(sizes[0 := z]) == total
  {
    SumWithZero(sizes, z);
  }

  /** Every observed kanji has count at least 1. */
  lemma ObservedAtLeastOne(counter: Counter, graded: set<char>)
    requires Positive(counter)
    ensures AtLeast(counter, graded, 1) == graded * counter.Keys
  {
  }

  /** All the bands together hold the observed graded kanji counted at least the lowest threshold. */
  lemma BandsAll(counter: Counter, graded: set<char>, keys: set<int>)
    requires keys != {}
    ensures MapSum(BandSizes(counter, graded, keys)) == |AtLeast(counter, graded, MinOf(keys))|
  {
    var sizes := BandSizes(counter, graded, keys);
    assert sizes.Keys == keys;
    var r := SortedDesc(keys);
    assert |r| > 0;
    BandsAllListed(counter, graded, keys, r);
  }

  /** `BandsAll` over a decreasing listing `r` of the thresholds. */
  lemma BandsAllListed(counter: Counter, graded: set<char>, keys: set<int>, r: seq<int>)
    requires Decreasing(r) && keys != {} && r != [] && forall x :: x in r <==> x in keys
    ensures forall j :: 0 <= j < |r| ==> r[j] in BandSizes(counter, graded, keys)
    ensures SumOver(BandSizes(counter, graded, keys), r) == |AtLeast(counter, graded, MinOf(keys))|
  {
    assert r[..|r|] == r;
    BandsPrefix(counter, graded, keys, r, |r|);
    DecreasingEnds(r, keys);
  }

  /**
   * In the band loop over the thresholds from the largest down, the top
   * threshold's band is everything at or above it, and any other threshold
   * comes after the one above it, which `prev_key` then holds.
   */
  lemma BandLoopStep(counter: Counter, graded: set<char>, keys: set<int>, r: seq<int>, i: nat)
    requires Decreasing(r) && forall x :: x in r <==> x in keys
    requires i < |r|
    ensures r[i] in keys
    ensures r[i] == MaxOf(keys) ==> Band(counter, graded, keys, r[i]) == AtLeast(counter, graded, r[i])
    ensures r[i] != MaxOf(keys) ==> 0 < i && Band(counter, graded, keys, r[i]) == Between(counter, graded, r[i], r[i - 1])
  {
    assert r[i] in r;
    DecreasingEnds(r, keys);
    if r[i] != MaxOf(keys) {
      assert i != 0;
      DecreasingPrevious(r, keys, i);
      assert Above(keys, r[i]) == set k | k in keys && k > r[i];
    }
  }

  /** The band table filled in for the keys listed in `r`, in list order, as the band loop fills it. */
  function BandsListed(counter: Counter, graded: set<char>, keys: set<int>, r: seq<int>): map<int, nat>
    requires forall i :: 0 <= i < |r| ==> r[i] in keys
  {
    if r == [] then map[]
    else BandsListed(counter, graded, keys, r[..|r| - 1])[r[|r| - 1] := |Band(counter, graded, keys, r[|r| - 1])|]
  }

  /** The filled-in table has exactly the listed keys, each with its band size. */
  lemma {:induction false} BandsListedEntries(counter: Counter, graded: set<char>, keys: set<int>, r: seq<int>)
    requires forall i :: 0 <= i < |r| ==> r[i] in keys
    ensures forall k :: k in BandsListed(counter, graded, keys, r) <==> k in r
    ensures forall k :: k in BandsListed(counter, graded, keys, r) ==>
      k in keys && BandsListed(counter, graded, keys, r)[k] == |Band(counter, graded, keys, k)|
  {
    if r != [] {
      var p := r[..|r| - 1];
      BandsListedEntries(counter, graded, keys, p);
      assert r == p + [r[|r| - 1]];
    }
  }

  /** Listing every key fills in the whole band table. */
  lemma BandsListedAll(counter: Counter, graded: set<char>, keys: set<int>, r: seq<int>)
    requires forall x :: x in r <==> x in keys
    requires forall i :: 0 <= i < |r| ==> r[i] in keys
    ensures BandsListed(counter, graded, keys, r) == BandSizes(counter, graded, keys)
  {
    var listed := BandsListed(counter, graded, keys, r);
    var sizes := BandSizes(counter, graded, keys);
    BandsListedEntries(counter, graded, keys, r);
    forall k ensures k in listed <==> k in sizes {
      assert k in listed <==> k in r;
      assert k in sizes <==> k in keys;
    }
    forall k | k in listed ensures listed[k] == sizes[k] { }
  }

  /** One more key of the band loop. */
  lemma BandsListedNext(counter: Counter, graded: set<char>, keys: set<int>, r: seq<int>, i: nat)
    requires forall j :: 0 <= j < |r| ==> r[j] in keys
    requires i < |r|
    ensures BandsListed(counter, graded, keys, r[..i + 1])
      == BandsListed(counter, graded, keys, r[..i])[r[i] := |Band(counter, graded, keys, r[i])|]
  {
    assert r[..i + 1][..i] == r[..i];
  }

  /**
   * The table during the rewriting loop, before the `j`-th key from the top
   * is rewritten: keys above it hold their rounded-down share, the others
   * their band size.
   */
  function Rewritten(splits: map<int, nat>, width: nat, j: nat): map<int, nat>
    requires MapSum(splits) > 0 && j < |splits|
  {
    var ks := SortedDesc(splits.Keys);
    var f := Floors(splits, width, MapSum(splits));
    map k | k in splits :: if k > ks[j] then f[k] else splits[k]
  }

  /**
   * One step of the rewriting loop: key `k = ks[j]` takes its rounded-down
   * share; only the lowest key, which comes last, then finds every key
   * rounded down and the remainder still to place.
   */
  lemma RewriteStep(splits: map<int, nat>, width: nat, j: nat)
    requires MapSum(splits) > 0 && j < |splits|
    ensures var ks := SortedDesc(splits.Keys);
      var total := MapSum(splits);
      var m := Rewritten(splits, width, j);
      var k := ks[j];
      && k in m && m[k] == splits[k]
      && (k != MinOf(splits.Keys) ==> j + 1 < |ks| && Rewritten(splits, width, j + 1) == m[k := ScaleDown(m[k], width, total)])
      && (k == MinOf(splits.Keys) ==> j + 1 == |ks| && m[k := ScaleDown(m[k], width, total)] == Floors(splits, width, total))
  {
    var ks := SortedDesc(splits.Keys);
    var total := MapSum(splits);
    var f := Floors(splits, width, total);
    var k := ks[j];
    assert k in ks;
    DecreasingEnds(ks, splits.Keys);
    if k != MinOf(splits.Keys) {
      assert j + 1 < |ks|;
      MixStep(splits, f, ks, j);
    } else {
      assert j + 1 == |ks|;
      MixStep(splits, f, ks, j);
    }
  }

  /** Before the rewriting loop no key lies above the first, so the table is the band sizes. */
  lemma RewriteStart(splits: map<int, nat>, width: nat)
    requires MapSum(splits) > 0
    ensures 0 < |splits| && Rewriting(splits, width, 0) == splits
  {
    var ks := SortedDesc(splits.Keys);
    assert 0 < |ks|;
    DecreasingEnds(ks, splits.Keys);
  }

  /** The widths are the rounded-down shares with the remainder added at the lowest key. */
  lemma LowestTakesRemainder(splits: map<int, nat>, width: nat, f: map<int, nat>, lo: int)
    requires MapSum(splits) > 0
    requires f == Floors(splits, width, MapSum(splits)) && lo == Lowest(splits)
    ensures lo in f && MapSum(f) <= width
    ensures ScaledWidths(splits, width) == AddRemainder(f, lo, width)
  {
    FloorsShortfall(splits, width);
  }

  /** The table after the first `j` keys from the top were rewritten; once all are, the widths. */
  function Rewriting(splits: map<int, nat>, width: nat, j: nat): map<int, nat>
    requires MapSum(splits) > 0 && j <= |splits|
  {
    if j < |splits| then Rewritten(splits, width, j) else ScaledWidths(splits, width)
  }

  /**
   * One pass of the rewriting loop's body, as the loop does it: key `k`, the
   * `j`-th from the top, is rounded down (giving `m1`) and, at the lowest key,
   * takes the remainder.
   */
  lemma RewriteLoopStep(splits: map<int, nat>, width: nat, j: nat, m: map<int, nat>, k: int, m1: map<int, nat>)
    requires MapSum(splits) > 0 && j < |splits| && m == Rewriting(splits, width, j)
    requires k == SortedDesc(splits.Keys)[j]
    requires k in m ==> m1 == m[k := ScaleDown(m[k], width, MapSum(splits))]
    ensures k in m && m1.Keys == splits.Keys
    ensures k != MinOf(m1.Keys) ==> m1 == Rewriting(splits, width, j + 1)
    ensures k == MinOf(m1.Keys) ==> MapSum(m1) <= width && AddRemainder(m1, k, width) == Rewriting(splits, width, j + 1)
  {
    RewriteStep(splits, width, j);
    assert m.Keys == splits.Keys;
    assert m1.Keys == splits.Keys;
    if k == MinOf(m1.Keys) {
      RewriteLast(splits, width, j, k, m1);
    }
  }

  /** The last pass of the rewriting loop: the lowest key's rounded-down table plus the remainder is the widths. */
  lemma RewriteLast(splits: map<int, nat>, width: nat, j: nat, k: int, m1: map<int, nat>)
    requires MapSum(splits) > 0 && j + 1 == |splits| && k == Lowest(splits)
    requires m1 == Floors(splits, width, MapSum(splits))
    ensures k in m1 && MapSum(m1) <= width && AddRemainder(m1, k, width) == Rewriting(splits, width, j + 1)
  {
    LowestTakesRemainder(splits, width, m1, k);
  }

  /** Rewriting key `r[j]` moves the boundary of the rounded-down keys one key down the listing `r`. */
  lemma MixStep(splits: map<int, nat>, f: map<int, nat>, r: seq<int>, j: nat)
    requires Decreasing(r) && (forall x :: x in r <==> x in splits) && f.Keys == splits.Keys
    requires j < |r| && r[j] in splits
    ensures j + 1 < |r| ==>
      (map x | x in splits :: if x > r[j + 1] then f[x] else splits[x])
        == (map x | x in splits :: if x > r[j] then f[x] else splits[x])[r[j] := f[r[j]]]
    ensures j + 1 == |r| ==>
      (map x | x in splits :: if x > r[j] then f[x] else splits[x])[r[j] := f[r[j]]] == f
  {
    assert r[j] in r;
    forall x | x in splits
      ensures j + 1 < |r| ==> (x > r[j + 1]) == (x > r[j] || x == r[j])
      ensures j + 1 == |r| ==> x > r[j] || x == r[j]
    {
      var t :| 0 <= t < |r| && r[t] == x;
      if t < j { assert x > r[j]; }
      if t > j + 1 { assert x < r[j + 1]; }
    }
  }

  /** The drawing loop: one more segment, right of the strip so far. */
  lemma StripNext(st: Settings, widths: map<int, nat>, ks: seq<int>, t: nat, bar: Image)
    requires forall i :: 0 <= i < |ks| ==> ks[i] in widths
    requires t < |ks| && bar == Strip(st, widths, ks[..t])
    ensures HoriCat(bar, Solid(widths[ks[t]], st.kanjiFontSize, GetOr(st.colors, ks[t], st.backgroundColor)))
      == Strip(st, widths, ks[..t + 1])
  {
    assert ks[..t + 1][..t] == ks[..t];
  }
}
