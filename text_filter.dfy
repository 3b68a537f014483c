/** The kanji character set and the text filter in front of the counter. */
module TextFilter {

  /**
   * The characters the grid knows: one contiguous range of code points plus
   * a few extra characters. The concrete bounds are a parameter.
   */
  datatype KanjiSet = KanjiSet(first: char, last: char, extras: set<char>) {
    predicate Contains(c: char) { first <= c <= last || c in extras }
  }

  /** `_clean_text`: keep the characters of `s` that belong to the set, in order. */
  function Clean(ks: KanjiSet, s: string): (r: string)
    ensures |r| <= |s|
    ensures forall i :: 0 <= i < |r| ==> ks.Contains(r[i])
  {
    if s == [] then []
    else (if ks.Contains(s[0]) then [s[0]] else []) + Clean(ks, s[1..])
  }

  /** `t` is obtained from `s` by deleting characters. */
  predicate IsSubsequence(t: string, s: string)
    decreases |s|
  {
    if t == [] then true
    else if s == [] then false
    else (t[0] == s[0] && IsSubsequence(t[1..], s[1..])) || IsSubsequence(t, s[1..])
  }

  lemma {:induction false} CleanIsSubsequence(ks: KanjiSet, s: string)
    ensures IsSubsequence(Clean(ks, s), s)
  {
    if s != [] {
      CleanIsSubsequence(ks, s[1..]);
      if ks.Contains(s[0]) {
        assert Clean(ks, s) == [s[0]] + Clean(ks, s[1..]);
        assert Clean(ks, s)[1..] == Clean(ks, s[1..]);
      } else {
        assert Clean(ks, s) == Clean(ks, s[1..]);
        if Clean(ks, s) != [] {
          assert IsSubsequence(Clean(ks, s), s[1..]);
        }
      }
    }
  }

  /** Every member of the set is kept as often as it occurs; everything else is dropped. */
  lemma {:induction false} CleanCounts(ks: KanjiSet, s: string, c: char)
    ensures multiset(Clean(ks, s))[c] == if ks.Contains(c) then multiset(s)[c] else 0
  {
    if s != [] {
      CleanCounts(ks, s[1..], c);
      assert s == [s[0]] + s[1..];
      assert multiset(s) == multiset([s[0]]) + multiset(s[1..]);
    }
  }

  lemma {:induction false} CleanAppend(ks: KanjiSet, a: string, b: string)
    ensures Clean(ks, a + b) == Clean(ks, a) + Clean(ks, b)
  {
    if a != [] {
      assert (a + b)[0] == a[0];
      assert (a + b)[1..] == a[1..] + b;
      CleanAppend(ks, a[1..], b);
    } else {
      assert a + b == b;
    }
  }

  /** Text made only of kanji passes the filter unchanged. */
  lemma {:induction false} CleanKeepsKanji(ks: KanjiSet, s: string)
    requires forall i :: 0 <= i < |s| ==> ks.Contains(s[i])
    ensures Clean(ks, s) == s
  {
    if s != [] {
      CleanKeepsKanji(ks, s[1..]);
      assert s == [s[0]] + s[1..];
    }
  }

  lemma CleanIdempotent(ks: KanjiSet, s: string)
    ensures Clean(ks, Clean(ks, s)) == Clean(ks, s)
  {
    CleanKeepsKanji(ks, Clean(ks, s));
  }
}
