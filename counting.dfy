/**
 * Counting with a Java `Map<K, Integer>`: `getOrDefault`, the
 * `put(k, getOrDefault(k, 0) + 1)` update, and what a run of such updates adds
 * up to.
 */
module Counting {

  /** `m.getOrDefault(k, d)`. */
  function GetOrDefault<K, V>(m: map<K, V>, k: K, d: V): (v: V)
    ensures k in m ==> v == m[k]
    ensures k !in m ==> v == d
  {
    if k in m then m[k] else d
  }

  /** `m.put(k, m.getOrDefault(k, 0) + 1)`: the count of `k` goes up by exactly one,
      starting from zero when `k` was absent, and no other entry changes. */
  function Increment<K>(m: map<K, int>, k: K): (r: map<K, int>)
    ensures r.Keys == m.Keys + {k}
    ensures r[k] == GetOrDefault(m, k, 0) + 1
    ensures forall k' :: k' in m && k' != k ==> r[k'] == m[k']
  {
    m[k := GetOrDefault(m, k, 0) + 1]
  }

  /** The counts reached from an empty map by one increment per element of `ks`,
      in order. */
  function Tally<K>(ks: seq<K>): map<K, int> {
    if ks == [] then map[] else Increment(Tally(ks[..|ks| - 1]), ks[|ks| - 1])
  }

  /** The sum of all values of `m`. */
  ghost function SumValues<K>(m: map<K, int>): int
    decreases |m|
  {
    if |m| == 0 then 0
    else
      var k := PickKey(m);
      m[k] + SumValues(m - {k})
  }

  ghost function PickKey<K>(m: map<K, int>): (k: K)
    requires |m| > 0
    ensures k in m
  {
    assert m.Keys != {};
    var k :| k in m.Keys; k
  }

  /** The count of every key is its number of occurrences in `ks`; the keys are
      exactly the elements of `ks`, each counted at least once. */
  lemma {:induction false} TallyIsMultiplicity<K>(ks: seq<K>)
    ensures forall k :: GetOrDefault(Tally(ks), k, 0) == multiset(ks)[k]
    ensures Tally(ks).Keys == set k | k in ks
    ensures forall k :: k in Tally(ks) ==> Tally(ks)[k] >= 1
    decreases |ks|
  {
    if ks != [] {
      var init, last := ks[..|ks| - 1], ks[|ks| - 1];
      TallyIsMultiplicity(init);
      assert ks == init + [last];
      assert multiset(ks) == multiset(init) + multiset{last};
    }
  }

  /** The counts depend only on how often each element occurs, not on the order. */
  lemma TallyPermutation<K>(ks: seq<K>, ks': seq<K>)
    requires multiset(ks) == multiset(ks')
    ensures Tally(ks) == Tally(ks')
  {
    TallyIsMultiplicity(ks);
    TallyIsMultiplicity(ks');
    assert Tally(ks).Keys == Tally(ks').Keys by {
      forall k ensures k in Tally(ks) <==> k in Tally(ks') {
        assert k in ks <==> k in multiset(ks);
        assert k in ks' <==> k in multiset(ks');
      }
    }
    forall k | k in Tally(ks) ensures Tally(ks)[k] == Tally(ks')[k] {
      assert GetOrDefault(Tally(ks), k, 0) == GetOrDefault(Tally(ks'), k, 0);
    }
  }

  /** Removing one key takes its value off the sum, whichever key it is. */
  lemma {:induction false} SumValuesRemove<K>(m: map<K, int>, k: K)
    requires k in m
    ensures SumValues(m) == m[k] + SumValues(m - {k})
    decreases |m|
  {
    var k' := PickKey(m);
    if k' != k {
      assert |m - {k'}| == |m| - 1;
      SumValuesRemove(m - {k'}, k);
      assert |m - {k}| == |m| - 1;
      SumValuesRemove(m - {k}, k');
      assert m - {k'} - {k} == m - {k} - {k'};
    }
  }

  /** One increment adds exactly one to the sum of the counts. */
  lemma SumIncrement<K>(m: map<K, int>, k: K)
    ensures SumValues(Increment(m, k)) == SumValues(m) + 1
  {
    var r := Increment(m, k);
    SumValuesRemove(r, k);
    if k in m {
      SumValuesRemove(m, k);
      assert r - {k} == m - {k};
    } else {
      assert r - {k} == m;
    }
  }

  /** The counts add up to the number of increments. */
  lemma {:induction false} TallySum<K>(ks: seq<K>)
    ensures SumValues(Tally(ks)) == |ks|
    decreases |ks|
  {
    if ks != [] {
      TallySum(ks[..|ks| - 1]);
      SumIncrement(Tally(ks[..|ks| - 1]), ks[|ks| - 1]);
    }
  }

  /** `f` applied to every element of `s`, in order. */
  function MapSeq<A, B>(f: A -> B, s: seq<A>): (r: seq<B>)
    ensures |r| == |s|
    ensures forall i :: 0 <= i < |s| ==> r[i] == f(s[i])
  {
    seq(|s|, i requires 0 <= i < |s| => f(s[i]))
  }

  lemma MapSeqAppend<A, B>(f: A -> B, a: seq<A>, b: seq<A>)
    ensures MapSeq(f, a + b) == MapSeq(f, a) + MapSeq(f, b)
  {
  }

  /** Taking out the element at `j` takes one occurrence of it out of the multiset. */
  lemma MultisetRemoveAt<A>(t: seq<A>, j: nat)
    requires j < |t|
    ensures multiset(t[..j] + t[j + 1..]) == multiset(t) - multiset{t[j]}
  {
    assert t == t[..j] + [t[j]] + t[j + 1..];
  }

  /** Mapping commutes with taking out the element at `j`. */
  lemma MapSeqRemoveAt<A, B>(f: A -> B, t: seq<A>, j: nat)
    requires j < |t|
    ensures multiset(MapSeq(f, t)) == multiset(MapSeq(f, t[..j] + t[j + 1..])) + multiset{f(t[j])}
  {
    var a, b := t[..j], t[j + 1..];
    assert t == a + [t[j]] + b;
    MapSeqAppend(f, a + [t[j]], b);
    MapSeqAppend(f, a, [t[j]]);
    MapSeqAppend(f, a, b);
  }

  /** Applying `f` to a rearrangement of `s` rearranges the images the same way. */
  lemma {:induction false} MapSeqPermutation<A, B>(f: A -> B, s: seq<A>, t: seq<A>)
    requires multiset(s) == multiset(t)
    ensures multiset(MapSeq(f, s)) == multiset(MapSeq(f, t))
    decreases |s|
  {
    if s == [] {
      assert |t| == |multiset(t)| == 0;
    } else {
      var x := s[|s| - 1];
      assert x in multiset(t);
      var j :| 0 <= j < |t| && t[j] == x;
      MultisetRemoveAt(s, |s| - 1);
      MultisetRemoveAt(t, j);
      assert s[..|s| - 1] + s[|s|..] == s[..|s| - 1];
      MapSeqPermutation(f, s[..|s| - 1], t[..j] + t[j + 1..]);
      MapSeqRemoveAt(f, s, |s| - 1);
      MapSeqRemoveAt(f, t, j);
    }
  }
}
