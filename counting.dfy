/** The frequency counter (`collections.Counter`) fed by the text filter. */
module Counting {
  import opened TextFilter

  /** Character to number of occurrences; a missing key counts 0. */
  type Counter = map<char, nat>

  /** `counter.get(c, 0)` */
  function Count(m: Counter, c: char): nat { if c in m then m[c] else 0 }

  /** Only characters that occurred are keys. */
  predicate Positive(m: Counter) { forall c :: c in m ==> m[c] >= 1 }

  /** `counter.update(s)`: one more occurrence per character of `s`, front to back. */
  function Tally(m: Counter, s: string): Counter
    decreases |s|
  {
    if s == [] then m
    else Tally(m[s[0] := Count(m, s[0]) + 1], s[1..])
  }

  /** The counted characters are the old ones and those of `s`. */
  lemma {:induction false} TallyKeys(m: Counter, s: string)
    ensures forall c :: c in Tally(m, s) <==> c in m || c in s
    decreases |s|
  {
    if s != [] {
      TallyKeys(m[s[0] := Count(m, s[0]) + 1], s[1..]);
      assert forall c :: c in s <==> c == s[0] || c in s[1..];
    }
  }

  /** Each count rises by the number of occurrences in `s`; no other count changes. */
  lemma {:induction false} TallyCount(m: Counter, s: string, c: char)
    ensures Count(Tally(m, s), c) == Count(m, c) + multiset(s)[c]
    decreases |s|
  {
    if s != [] {
      TallyCount(m[s[0] := Count(m, s[0]) + 1], s[1..], c);
      assert s == [s[0]] + s[1..];
      assert multiset(s) == multiset([s[0]]) + multiset(s[1..]);
    }
  }

  lemma {:induction false} TallyPositive(m: Counter, s: string)
    requires Positive(m)
    ensures Positive(Tally(m, s))
    decreases |s|
  {
    if s != [] {
      TallyPositive(m[s[0] := Count(m, s[0]) + 1], s[1..]);
    }
  }

  lemma TallyAppend(m: Counter, a: string, b: string)
    ensures Tally(m, a + b) == Tally(Tally(m, a), b)
  {
    var whole, parts := Tally(m, a + b), Tally(Tally(m, a), b);
    assert multiset(a + b) == multiset(a) + multiset(b);
    forall c ensures Count(whole, c) == Count(parts, c) {
      TallyCount(m, a + b, c);
      TallyCount(m, a, c);
      TallyCount(Tally(m, a), b, c);
    }
    TallyKeys(m, a + b);
    TallyKeys(m, a);
    TallyKeys(Tally(m, a), b);
    assert forall c :: c in a + b <==> c in a || c in b;
    SameCounter(whole, parts);
  }

  /** Counting one more character after `s` raises the count of just that character by one. */
  lemma TallySnoc(m: Counter, s: string, c: char)
    ensures Tally(m, s + [c]) == Tally(m, s)[c := Count(Tally(m, s), c) + 1]
  {
    TallyAppend(m, s, [c]);
    var t := Tally(m, s);
    assert [c][1..] == [];
    assert Tally(t, [c]) == Tally(t[c := Count(t, c) + 1], []);
  }

  /** Counters with the same keys and the same counts are equal. */
  lemma SameCounter(p: Counter, q: Counter)
    requires p.Keys == q.Keys
    requires forall c :: Count(p, c) == Count(q, c)
    ensures p == q
  {
    assert forall c :: c in p ==> p[c] == Count(p, c);
  }

  /** The order in which two texts are counted does not matter. */
  lemma TallyCommutes(m: Counter, a: string, b: string)
    ensures Tally(Tally(m, a), b) == Tally(Tally(m, b), a)
  {
    var ab, ba := Tally(Tally(m, a), b), Tally(Tally(m, b), a);
    TallyKeys(m, a);
    TallyKeys(m, b);
    TallyKeys(Tally(m, a), b);
    TallyKeys(Tally(m, b), a);
    forall c | c in ab ensures c in ba && ab[c] == ba[c] {
      TallyCount(Tally(m, a), b, c);
      TallyCount(m, a, c);
      TallyCount(Tally(m, b), a, c);
      TallyCount(m, b, c);
    }
    assert ab.Keys == ba.Keys;
  }

  /** Feeding `a` and then `b` gives the same counter as feeding `a + b` once. */
  lemma FeedTwice(ks: KanjiSet, m: Counter, a: string, b: string)
    ensures Tally(Tally(m, Clean(ks, a)), Clean(ks, b)) == Tally(m, Clean(ks, a + b))
  {
    CleanAppend(ks, a, b);
    TallyAppend(m, Clean(ks, a), Clean(ks, b));
  }

  /** After feeding `s`, a kanji counts its occurrences in `s` more and anything else is as before. */
  lemma FeedCount(ks: KanjiSet, m: Counter, s: string, c: char)
    ensures Count(Tally(m, Clean(ks, s)), c) == Count(m, c) + if ks.Contains(c) then multiset(s)[c] else 0
  {
    TallyCount(m, Clean(ks, s), c);
    CleanCounts(ks, s, c);
  }
}
