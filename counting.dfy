/** The counting dictionary that `getData` builds twice: a `reduce` over the
    response rows that adds one to the count of each row's key, starting a
    missing key from zero, read back with `Object.entries`, which lists string
    keys in the order they were first inserted. */
module Counting {

  /** One `[key, count]` pair returned by `Object.entries`. */
  datatype Entry = Entry(key: string, count: nat)

  /** How many times `k` occurs in `s`. */
  function Occurrences(s: seq<string>, k: string): nat
  {
    multiset(s)[k]
  }

  /** The distinct elements of `s`, each placed where it first occurs. */
  function Distinct(s: seq<string>): seq<string>
  {
    if s == [] then []
    else
      var d := Distinct(s[..|s| - 1]);
      if s[|s| - 1] in d then d else d + [s[|s| - 1]]
  }

  /** `Object.entries` of `counts`, whose keys were inserted in the order `order`. */
  function Entries(order: seq<string>, counts: map<string, nat>): seq<Entry>
    requires forall k :: k in order ==> k in counts
  {
    seq(|order|, i requires 0 <= i < |order| => Entry(order[i], counts[order[i]]))
  }

  /** The entries of the dictionary built over the keys `s`: the distinct keys
      in first-seen order, each with its number of occurrences. */
  function Tally(s: seq<string>): seq<Entry>
  {
    var d := Distinct(s);
    seq(|d|, i requires 0 <= i < |d| => Entry(d[i], Occurrences(s, d[i])))
  }

  function Keys(t: seq<Entry>): seq<string>
  {
    seq(|t|, i requires 0 <= i < |t| => t[i].key)
  }

  /** The sum of the counts of `t`. */
  function TotalCount(t: seq<Entry>): nat
  {
    if t == [] then 0 else TotalCount(t[..|t| - 1]) + t[|t| - 1].count
  }

  predicate NoDuplicates(d: seq<string>)
  {
    forall i, j :: 0 <= i < j < |d| ==> d[i] != d[j]
  }

  /** The members of `d` occur in `s`, and `d` lists them in the order of their
      first occurrence in `s`. */
  predicate InFirstSeenOrder(s: seq<string>, d: seq<string>)
  {
    forall i, j :: 0 <= i < j < |d| ==> d[i] in s && d[j] in s && FirstIndex(s, d[i]) < FirstIndex(s, d[j])
  }

  /** The position where `k` first occurs in `s`. */
  function FirstIndex(s: seq<string>, k: string): (r: nat)
    requires k in s
    ensures r < |s| && s[r] == k
    ensures k !in s[..r]
  {
    var init := s[..|s| - 1];
    if k in init then
      var r := FirstIndex(init, k);
      assert s[..r] == init[..r];
      r
    else
      assert s[..|s| - 1] == init;
      |s| - 1
  }

  /** The keys of the tallying `reduce`, counted one by one into a dictionary
      and an insertion-order list, then read back as `Object.entries` does. */
  method CountBy(keys: seq<string>) returns (entries: seq<Entry>)
    ensures entries == Tally(keys)
  {
    var counts: map<string, nat> := map[];
    var order: seq<string> := [];
    var i := 0;
    while i < |keys|
      invariant 0 <= i <= |keys|
      invariant order == Distinct(keys[..i])
      invariant forall k :: k in counts <==> k in keys[..i]
      invariant forall k :: k in counts ==> counts[k] == Occurrences(keys[..i], k)
    {
      var k := keys[i];
      assert keys[..i + 1] == keys[..i] + [k];
      assert keys[..i + 1][..i] == keys[..i];
      DistinctElements(keys[..i]);
      if k in counts {
        counts := counts[k := counts[k] + 1];
      } else {
        counts := counts[k := 1];
        order := order + [k];
      }
      i := i + 1;
    }
    assert keys[..i] == keys;
    DistinctElements(keys);
    entries := Entries(order, counts);
  }

  /** A key is listed exactly when it was seen. */
  lemma {:induction false} DistinctElements(s: seq<string>)
    ensures forall k :: k in Distinct(s) <==> k in s
  {
    if s != [] {
      var init := s[..|s| - 1];
      DistinctElements(init);
      assert s == init + [s[|s| - 1]];
    }
  }

  /** No key is listed twice. */
  lemma {:induction false} DistinctNoDuplicates(s: seq<string>)
    ensures NoDuplicates(Distinct(s))
  {
    if s != [] {
      DistinctNoDuplicates(s[..|s| - 1]);
    }
  }

  /** Keys are listed in the order of their first occurrence. */
  lemma {:induction false} DistinctFirstSeenOrder(s: seq<string>)
    ensures InFirstSeenOrder(s, Distinct(s))
  {
    DistinctElements(s);
    if s != [] {
      var init := s[..|s| - 1];
      DistinctFirstSeenOrder(init);
      DistinctElements(init);
      var d := Distinct(s);
      forall i, j | 0 <= i < j < |d|
        ensures FirstIndex(s, d[i]) < FirstIndex(s, d[j])
      {
        assert d[i] in init;
        if d[j] in init {
          assert Distinct(init)[i] == d[i] && Distinct(init)[j] == d[j];
        }
      }
    }
  }

  /** A list without duplicates is its own list of distinct keys. */
  lemma {:induction false} DistinctOfNoDuplicates(s: seq<string>)
    requires NoDuplicates(s)
    ensures Distinct(s) == s
  {
    if s != [] {
      var init := s[..|s| - 1];
      DistinctOfNoDuplicates(init);
      assert s == init + [s[|s| - 1]];
    }
  }

  /** A list without duplicates has as many elements as it has distinct members. */
  lemma {:induction false} NoDuplicatesCardinality(d: seq<string>)
    requires NoDuplicates(d)
    ensures |set k | k in d| == |d|
  {
    if d != [] {
      var init := d[..|d| - 1];
      NoDuplicatesCardinality(init);
      assert d == init + [d[|d| - 1]];
      assert (set k | k in d) == (set k | k in init) + {d[|d| - 1]};
    }
  }

  lemma SubsetCardinality(a: set<string>, b: set<string>)
    requires a <= b
    ensures |a| <= |b|
  {
    if a != {} {
      var x :| x in a;
      SubsetCardinality(a - {x}, b - {x});
    }
  }

  /** A key without duplicates in `d` is counted once. */
  lemma {:induction false} OnceInNoDuplicates(d: seq<string>, x: string)
    requires NoDuplicates(d)
    requires x in d
    ensures multiset(d)[x] == 1
  {
    var init := d[..|d| - 1];
    assert d == init + [d[|d| - 1]];
    if d[|d| - 1] == x {
      assert x !in init;
    } else {
      OnceInNoDuplicates(init, x);
    }
  }

  /** The sum of the occurrences in `s` of the keys `d`. */
  function OccurrenceSum(d: seq<string>, s: seq<string>): nat
  {
    if d == [] then 0 else OccurrenceSum(d[..|d| - 1], s) + Occurrences(s, d[|d| - 1])
  }

  lemma {:induction false} TallyOccurrenceSum(d: seq<string>, s: seq<string>)
    ensures TotalCount(seq(|d|, i requires 0 <= i < |d| => Entry(d[i], Occurrences(s, d[i]))))
         == OccurrenceSum(d, s)
  {
    if d != [] {
      var init := d[..|d| - 1];
      TallyOccurrenceSum(init, s);
      assert seq(|d|, i requires 0 <= i < |d| => Entry(d[i], Occurrences(s, d[i])))[..|d| - 1]
          == seq(|init|, i requires 0 <= i < |init| => Entry(init[i], Occurrences(s, init[i])));
    }
  }

  /** Counting one more key `x` adds to the sum as often as `x` is among `d`. */
  lemma {:induction false} OccurrenceSumStep(d: seq<string>, s: seq<string>, x: string)
    ensures OccurrenceSum(d, s + [x]) == OccurrenceSum(d, s) + multiset(d)[x]
  {
    if d != [] {
      var init := d[..|d| - 1];
      OccurrenceSumStep(init, s, x);
      assert d == init + [d[|d| - 1]];
    }
  }

  lemma {:induction false} DistinctOccurrenceSum(s: seq<string>)
    ensures OccurrenceSum(Distinct(s), s) == |s|
  {
    if s != [] {
      var init, x := s[..|s| - 1], s[|s| - 1];
      var d := Distinct(init);
      assert s == init + [x];
      DistinctOccurrenceSum(init);
      DistinctElements(init);
      OccurrenceSumStep(d, init, x);
      if x in d {
        DistinctNoDuplicates(init);
        OnceInNoDuplicates(d, x);
      } else {
        assert (d + [x])[..|d|] == d;
        assert x !in init;
      }
    }
  }

  /** The counts add up to the number of keys tallied. */
  lemma TallyTotal(s: seq<string>)
    ensures TotalCount(Tally(s)) == |s|
  {
    TallyOccurrenceSum(Distinct(s), s);
    DistinctOccurrenceSum(s);
  }

  /** One entry per distinct key, none twice, each with the number of times
      it occurs, which is at least 1. */
  lemma TallyEntries(s: seq<string>)
    ensures forall k :: k in Keys(Tally(s)) <==> k in s
    ensures NoDuplicates(Keys(Tally(s)))
    ensures forall i :: 0 <= i < |Tally(s)| ==>
      Tally(s)[i].count == Occurrences(s, Tally(s)[i].key) && Tally(s)[i].count >= 1
  {
    assert Keys(Tally(s)) == Distinct(s);
    DistinctElements(s);
    DistinctNoDuplicates(s);
    forall i | 0 <= i < |Tally(s)|
      ensures Tally(s)[i].count >= 1
    {
      assert Distinct(s)[i] in s;
    }
  }

  /** Entries come out in the order their keys were first seen. */
  lemma TallyFirstSeenOrder(s: seq<string>)
    ensures InFirstSeenOrder(s, Keys(Tally(s)))
  {
    assert Keys(Tally(s)) == Distinct(s);
    DistinctFirstSeenOrder(s);
  }

  /** Two occurrences of the same key give one entry for it, counting both. */
  lemma TallySameKeyCollapses(s: seq<string>, i: nat, j: nat)
    requires i < j < |s| && s[i] == s[j]
    ensures s[i] in Keys(Tally(s))
    ensures forall e :: 0 <= e < |Tally(s)| && Tally(s)[e].key == s[i] ==> Tally(s)[e].count >= 2
    ensures forall e, f ::
      0 <= e < |Tally(s)| && 0 <= f < |Tally(s)| && Tally(s)[e].key == s[i] && Tally(s)[f].key == s[i]
      ==> e == f
  {
    TallyEntries(s);
    assert s == s[..i] + [s[i]] + s[i + 1..j] + [s[j]] + s[j + 1..];
    assert Occurrences(s, s[i]) >= 2;
    forall e, f | 0 <= e < |Tally(s)| && 0 <= f < |Tally(s)| && Tally(s)[e].key == s[i] && Tally(s)[f].key == s[i]
      ensures e == f
    {
      assert Keys(Tally(s))[e] == Keys(Tally(s))[f];
    }
  }

  /** Keys that are all different are each counted once, in their own order. */
  lemma TallyOfNoDuplicates(s: seq<string>)
    requires NoDuplicates(s)
    ensures Tally(s) == seq(|s|, i requires 0 <= i < |s| => Entry(s[i], 1))
  {
    DistinctOfNoDuplicates(s);
    forall i | 0 <= i < |s|
      ensures Occurrences(s, s[i]) == 1
    {
      OnceInNoDuplicates(s, s[i]);
    }
  }
}
