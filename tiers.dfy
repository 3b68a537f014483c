/** The colour of a kanji cell, chosen by its count from the threshold table. */
module Tiers {
  import opened Imaging
  import opened Ordering

  /** The table used when none is given: red through green for 1 to 5 occurrences. */
  const DefaultColors: map<int, Color> :=
    map[1 := "#cc3232", 2 := "#db7b2b", 3 := "#e7b416", 4 := "#99c140", 5 := "#2dc937"]

  /** `table.get(k, default)` */
  function GetOr(m: map<int, Color>, k: int, default: Color): Color
  {
    if k in m then m[k] else default
  }

  /** `list(filter(lambda x: x <= n, ks))` */
  function AtMost(ks: seq<int>, n: int): (r: seq<int>)
    ensures forall x :: x in r <==> x in ks && x <= n
    ensures Decreasing(ks) ==> Decreasing(r)
  {
    if ks == [] then []
    else
      var rest := AtMost(ks[1..], n);
      assert forall x :: x in rest ==> x in ks[1..];
      assert Decreasing(ks) ==> forall x :: x in rest ==> x < ks[0] by {
        if Decreasing(ks) {
          forall x | x in rest ensures x < ks[0] {
            var i :| 1 <= i < |ks| && ks[i] == x;
          }
        }
      }
      assert Decreasing(ks) ==> Decreasing(ks[1..]);
      if ks[0] <= n then
        assert Decreasing(ks) ==> Decreasing([ks[0]] + rest) by {
          if Decreasing(ks) { PrependDecreasing(ks[0], rest); }
        }
        [ks[0]] + rest
      else rest
  }

  lemma PrependDecreasing(h: int, t: seq<int>)
    requires Decreasing(t) && forall x :: x in t ==> x < h
    ensures Decreasing([h] + t)
  {
    var r := [h] + t;
    forall i, j | 0 <= i < j < |r| ensures r[i] > r[j] {
      assert r[j] == t[j - 1];
      if i > 0 { assert r[i] == t[i - 1]; } else { assert t[j - 1] in t; }
    }
  }

  /** `t` is the greatest threshold of `keys` not above `n`. */
  ghost predicate GreatestAtMost(t: int, keys: set<int>, n: int)
  {
    t in keys && t <= n && forall u :: u in keys && u <= n ==> u <= t
  }

  /**
   * The inline tier rule of the subgrid: the top threshold saturates; below
   * it, the greatest threshold not above the count; with none, the kanji
   * background colour.
   */
  function TierColor(colors: map<int, Color>, kanjiBackground: Color, count: int): (r: Color)
    requires colors != map[]
    ensures forall t :: GreatestAtMost(t, colors.Keys, count) ==> r == colors[t]
    ensures (forall t :: t in colors ==> count < t) ==> r == kanjiBackground
    ensures count >= MaxOf(colors.Keys) ==>
      r == colors[MaxOf(colors.Keys)] && GreatestAtMost(MaxOf(colors.Keys), colors.Keys, count)
  {
    assert colors.Keys != {} by { var k :| k in colors; }
    var top := MaxOf(colors.Keys);
    if count >= top then colors[top]
    else
      var res := AtMost(SortedDesc(colors.Keys), count);
      if res != [] then
        assert forall x :: x in res ==> x <= res[0] by {
          forall x | x in res ensures x <= res[0] {
            var i :| 0 <= i < |res| && res[i] == x;
          }
        }
        GetOr(colors, res[0], kanjiBackground)
      else kanjiBackground
  }

  /**
   * With the default table: a count below 1 gives the background, a count
   * from 1 to 5 the colour of that count, and any count of 5 or more dark green.
   */
  lemma DefaultTiers(background: Color, count: int)
    ensures DefaultColors.Keys == {1, 2, 3, 4, 5}
    ensures count < 1 ==> TierColor(DefaultColors, background, count) == background
    ensures 1 <= count <= 5 ==> TierColor(DefaultColors, background, count) == DefaultColors[count]
    ensures count >= 5 ==> TierColor(DefaultColors, background, count) == "#2dc937"
  {
    var keys := DefaultColors.Keys;
    assert keys == {1, 2, 3, 4, 5};
    if count < 1 {
      assert forall t :: t in DefaultColors ==> count < t;
    } else if count <= 5 {
      assert count in keys;
      assert GreatestAtMost(count, keys, count);
    } else {
      assert GreatestAtMost(5, keys, count);
    }
  }
}
