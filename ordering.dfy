/**
 * The ordering primitives the grid builder borrows from its host language:
 * `max`, `min` and `sorted` over sets of thresholds, and `sorted` over a set
 * of characters (code-point order).
 */
module Ordering {

  lemma HasElement<T>(s: set<T>)
    requires s != {}
    ensures exists y :: y in s
  {
    if forall y :: y !in s { assert false; }
  }

  lemma Pick<T>(s: set<T>) returns (y: T)
    requires s != {}
    ensures y in s
  {
    HasElement(s);
    y :| y in s;
  }

  predicate IsMax(m: int, s: set<int>) { m in s && forall x :: x in s ==> x <= m }
  predicate IsMin(m: int, s: set<int>) { m in s && forall x :: x in s ==> m <= x }
  predicate IsMinChar(m: char, s: set<char>) { m in s && forall x :: x in s ==> m <= x }

  lemma MaxExists(s: set<int>)
    requires s != {}
    ensures exists m :: IsMax(m, s)
  {
    var y := Pick(s);
    var t := s - {y};
    if t == {} {
      assert s == {y};
      assert IsMax(y, s);
    } else {
      MaxExists(t);
      var m :| IsMax(m, t);
      assert forall x :: x in s ==> x == y || x in t;
      if y > m { assert IsMax(y, s); } else { assert IsMax(m, s); }
    }
  }

  lemma MinExists(s: set<int>)
    requires s != {}
    ensures exists m :: IsMin(m, s)
  {
    var y := Pick(s);
    var t := s - {y};
    if t == {} {
      assert s == {y};
      assert IsMin(y, s);
    } else {
      MinExists(t);
      var m :| IsMin(m, t);
      assert forall x :: x in s ==> x == y || x in t;
      if y < m { assert IsMin(y, s); } else { assert IsMin(m, s); }
    }
  }

  lemma MinCharExists(s: set<char>)
    requires s != {}
    ensures exists m :: IsMinChar(m, s)
  {
    var y := Pick(s);
    var t := s - {y};
    if t == {} {
      assert s == {y};
      assert IsMinChar(y, s);
    } else {
      MinCharExists(t);
      var m :| IsMinChar(m, t);
      assert forall x :: x in s ==> x == y || x in t;
      if y < m { assert IsMinChar(y, s); } else { assert IsMinChar(m, s); }
    }
  }

  /** `max(s)`: the largest element. */
  function MaxOf(s: set<int>): (m: int)
    requires s != {}
    ensures m in s && forall x :: x in s ==> x <= m
  {
    MaxExists(s);
    var m :| IsMax(m, s);
    m
  }

  /** `min(s)`: the smallest element. */
  function MinOf(s: set<int>): (m: int)
    requires s != {}
    ensures m in s && forall x :: x in s ==> m <= x
  {
    MinExists(s);
    var m :| IsMin(m, s);
    m
  }

  function MinChar(s: set<char>): (m: char)
    requires s != {}
    ensures m in s && forall x :: x in s ==> m <= x
  {
    MinCharExists(s);
    var m :| IsMinChar(m, s);
    m
  }

  predicate Decreasing(r: seq<int>) { forall i, j :: 0 <= i < j < |r| ==> r[i] > r[j] }
  predicate Increasing(r: seq<char>) { forall i, j :: 0 <= i < j < |r| ==> r[i] < r[j] }

  /** `sorted(s, reverse=True)`: the elements of `s`, largest first. */
  function SortedDesc(s: set<int>): (r: seq<int>)
    ensures |r| == |s|
    ensures forall x :: x in r <==> x in s
    ensures Decreasing(r)
  {
    if s == {} then [] else
    var m := MaxOf(s);
    var rest := SortedDesc(s - {m});
    PrependMax(m, rest, s);
    [m] + rest
  }

  /** Every position of a listing of `s` holds an element of `s`. */
  lemma ListedIn(r: seq<int>, s: set<int>)
    requires forall x :: x in r <==> x in s
    ensures forall i :: 0 <= i < |r| ==> r[i] in s
  {
    forall i | 0 <= i < |r| ensures r[i] in s { var x := r[i]; assert x in r; assert x in s; }
  }

  lemma PrependMax(m: int, t: seq<int>, s: set<int>)
    requires m in s && forall x :: x in s ==> x <= m
    requires |t| == |s - {m}| && Decreasing(t)
    requires forall x :: x in t <==> x in s - {m}
    ensures |[m] + t| == |s| && Decreasing([m] + t)
    ensures forall x :: x in [m] + t <==> x in s
  {
    var r := [m] + t;
    forall i, j | 0 <= i < j < |r| ensures r[i] > r[j] {
      assert r[j] == t[j - 1] && t[j - 1] in t;
      if i > 0 { assert r[i] == t[i - 1]; }
    }
  }

  /** `sorted(s)` on characters: code-point order, smallest first. */
  function SortedChars(s: set<char>): (r: seq<char>)
    ensures |r| == |s|
    ensures forall x :: x in r <==> x in s
    ensures Increasing(r)
  {
    if s == {} then [] else
    var m := MinChar(s);
    var rest := SortedChars(s - {m});
    PrependMin(m, rest, s);
    [m] + rest
  }

  lemma PrependMin(m: char, t: seq<char>, s: set<char>)
    requires m in s && forall x :: x in s ==> m <= x
    requires |t| == |s - {m}| && Increasing(t)
    requires forall x :: x in t <==> x in s - {m}
    ensures |[m] + t| == |s| && Increasing([m] + t)
    ensures forall x :: x in [m] + t <==> x in s
  {
    var r := [m] + t;
    forall i, j | 0 <= i < j < |r| ensures r[i] < r[j] {
      assert r[j] == t[j - 1] && t[j - 1] in t;
      if i > 0 { assert r[i] == t[i - 1]; }
    }
  }

  /** A sequence is empty exactly when nothing is in it. */
  lemma EmptyIff(a: seq<int>)
    ensures a == [] <==> forall x :: x !in a
  {
    if a != [] { var x := a[0]; assert x in a; }
  }

  /** A set has exactly one listing in decreasing order. */
  lemma {:induction false} DecreasingUnique(a: seq<int>, b: seq<int>)
    requires Decreasing(a) && Decreasing(b)
    requires forall x :: x in a <==> x in b
    ensures a == b
    decreases |a|
  {
    if a != [] && b != [] {
      DecreasingHead(a, b[0]);
      DecreasingHead(b, a[0]);
      assert a[0] == b[0];
      forall x ensures x in a[1..] <==> x in b[1..] {
        DecreasingTail(a, x);
        DecreasingTail(b, x);
      }
      DecreasingUnique(a[1..], b[1..]);
      assert a == [a[0]] + a[1..];
      assert b == [b[0]] + b[1..];
    } else {
      EmptyIff(a);
      EmptyIff(b);
    }
  }

  /** The head of a decreasing sequence is above every other element. */
  lemma DecreasingHead(a: seq<int>, x: int)
    requires Decreasing(a) && a != []
    ensures x in a ==> x <= a[0]
    ensures a[0] in a
  {
    if x in a {
      var i :| 0 <= i < |a| && a[i] == x;
      assert i > 0 ==> a[0] > a[i];
    }
  }

  /** The tail of a decreasing sequence is everything but its head. */
  lemma DecreasingTail(a: seq<int>, x: int)
    requires Decreasing(a) && a != []
    ensures x in a[1..] <==> x in a && x != a[0]
  {
    if x in a[1..] {
      var i :| 1 <= i < |a| && a[i] == x;
      assert a[0] > a[i];
    }
    if x in a && x != a[0] {
      var i :| 0 <= i < |a| && a[i] == x;
      assert a[1..][i - 1] == x;
    }
  }

  /** Adding an element below every other one appends it to the decreasing listing. */
  lemma SortedDescAddLowest(s: set<int>, z: int)
    requires forall x :: x in s ==> z < x
    ensures SortedDesc(s + {z}) == SortedDesc(s) + [z]
  {
    var r := SortedDesc(s) + [z];
    assert Decreasing(r) by {
      forall i, j | 0 <= i < j < |r| ensures r[i] > r[j] {
        if j == |r| - 1 { assert r[i] in s; }
      }
    }
    DecreasingUnique(SortedDesc(s + {z}), r);
  }

  /** In a decreasing listing of `s`, the first element is the maximum and the last the minimum. */
  lemma DecreasingEnds(r: seq<int>, s: set<int>)
    requires Decreasing(r) && r != []
    requires forall x :: x in r <==> x in s
    ensures s != {} && r[0] == MaxOf(s) && r[|r| - 1] == MinOf(s)
  {
    assert r[0] in r && r[|r| - 1] in r;
    assert r[0] in s;
    forall x | x in s ensures r[|r| - 1] <= x <= r[0] {
      var i :| 0 <= i < |r| && r[i] == x;
    }
  }

  /** In a decreasing listing of `s`, the element before position `i` is the smallest element of `s` above `r[i]`. */
  lemma DecreasingPrevious(r: seq<int>, s: set<int>, i: int)
    requires Decreasing(r) && 0 < i < |r|
    requires forall x :: x in r <==> x in s
    ensures (set k | k in s && k > r[i]) != {}
    ensures r[i - 1] == MinOf(set k | k in s && k > r[i])
  {
    var above := set k | k in s && k > r[i];
    assert r[i - 1] in r;
    assert r[i - 1] in above;
    forall k | k in above ensures r[i - 1] <= k {
      var j :| 0 <= j < |r| && r[j] == k;
      assert j < i;
      assert j < i - 1 ==> r[j] > r[i - 1];
    }
    var m := MinOf(above);
    assert m <= r[i - 1];
  }
}
