/**
 * Measurement counts as the scripts handle them: a Python dict from bit-strings to shot
 * counts, kept as its list of entries in insertion order, and the ways the scripts merge
 * two such dicts.
 */
module Counts {
  import opened Wrappers
  import opened Products

  /** A dict `{state: count}` as its entries in insertion order. */
  type Counts = seq<(string, int)>

  /** The keys of the dict. */
  function KeySet(d: Counts): set<string>
  {
    if d == [] then {} else {d[0].0} + KeySet(d[1..])
  }

  /** No key occurs twice: true of every Python dict. */
  predicate DistinctKeys(d: Counts)
  {
    d == [] || (d[0].0 !in KeySet(d[1..]) && DistinctKeys(d[1..]))
  }

  /** `d.get(k, 0)` */
  function Get(d: Counts, k: string): int
  {
    if d == [] then 0 else if d[0].0 == k then d[0].1 else Get(d[1..], k)
  }

  /** `sum(d.values())`: the number of shots the dict records. */
  function Total(d: Counts): int
  {
    if d == [] then 0 else d[0].1 + Total(d[1..])
  }

  /** The sum of every value the list pairs with k (a list of entries may repeat a key). */
  function SumFor(e: Counts, k: string): int
  {
    if e == [] then 0 else (if e[0].0 == k then e[0].1 else 0) + SumFor(e[1..], k)
  }

  /** `d[k] = v`: an existing key keeps its place and takes the new value; a new key goes last. */
  function Put(d: Counts, k: string, v: int): Counts
  {
    if d == [] then [(k, v)]
    else if d[0].0 == k then [(k, v)] + d[1..]
    else [d[0]] + Put(d[1..], k, v)
  }

  /** `d[k] += v` on a defaultdict(int), and `d[k] = d.get(k, 0) + v`. */
  function Add(d: Counts, k: string, v: int): Counts
  {
    Put(d, k, Get(d, k) + v)
  }

  // ---------------------------------------------------------------- lookups

  lemma {:induction false} KeySetAppend(a: Counts, b: Counts)
    ensures KeySet(a + b) == KeySet(a) + KeySet(b)
    decreases |a|
  {
    if a != [] {
      assert (a + b)[1..] == a[1..] + b;
      KeySetAppend(a[1..], b);
    } else {
      assert a + b == b;
    }
  }

  /** A key the dict does not hold reads as 0 and adds nothing to a sum. */
  lemma {:induction false} Absent(d: Counts, k: string)
    requires k !in KeySet(d)
    ensures Get(d, k) == 0 && SumFor(d, k) == 0
    decreases |d|
  {
    if d != [] {
      Absent(d[1..], k);
    }
  }

  /** Entry i of a dict is found by its key, and its key is not among the earlier ones. */
  lemma {:induction false} GetAt(d: Counts, i: nat)
    requires DistinctKeys(d) && i < |d|
    ensures d[i].0 in KeySet(d)
    ensures Get(d, d[i].0) == d[i].1
    ensures d[i].0 !in KeySet(d[..i])
    decreases i
  {
    if 0 < i {
      GetAt(d[1..], i - 1);
      assert d[1..][i - 1] == d[i];
      assert d[..i] == [d[0]] + d[1..][..i - 1];
    } else {
      assert d[..i] == [];
    }
  }

  /** For a dict, summing the values paired with k is looking k up. */
  lemma {:induction false} SumForDistinct(d: Counts, k: string)
    requires DistinctKeys(d)
    ensures SumFor(d, k) == Get(d, k)
    decreases |d|
  {
    if d != [] {
      SumForDistinct(d[1..], k);
      if d[0].0 == k {
        Absent(d[1..], k);
      }
    }
  }

  lemma {:induction false} TotalAppend(a: Counts, b: Counts)
    ensures Total(a + b) == Total(a) + Total(b)
    decreases |a|
  {
    if a != [] {
      assert (a + b)[1..] == a[1..] + b;
      TotalAppend(a[1..], b);
    } else {
      assert a + b == b;
    }
  }

  lemma {:induction false} SumForAppend(a: Counts, b: Counts, k: string)
    ensures SumFor(a + b, k) == SumFor(a, k) + SumFor(b, k)
    decreases |a|
  {
    if a != [] {
      assert (a + b)[1..] == a[1..] + b;
      SumForAppend(a[1..], b, k);
    } else {
      assert a + b == b;
    }
  }

  // ---------------------------------------------------------------- assignment

  /**
   * `d[k] = v` reads back v at k and changes no other key; the key set gains k; the total
   * changes by v minus the old value; no key is repeated and every existing key keeps its
   * place; a new key is appended at the end.
   */
  lemma {:induction false} PutSpec(d: Counts, k: string, v: int)
    ensures Get(Put(d, k, v), k) == v
    ensures forall k' :: k' != k ==> Get(Put(d, k, v), k') == Get(d, k')
    ensures KeySet(Put(d, k, v)) == KeySet(d) + {k}
    ensures Total(Put(d, k, v)) == Total(d) - Get(d, k) + v
    ensures DistinctKeys(d) ==> DistinctKeys(Put(d, k, v))
    ensures k in KeySet(d) ==> |Put(d, k, v)| == |d|
    ensures k !in KeySet(d) ==> Put(d, k, v) == d + [(k, v)]
    ensures |d| <= |Put(d, k, v)| && forall i :: 0 <= i < |d| ==> Put(d, k, v)[i].0 == d[i].0
    decreases |d|
  {
    if d != [] && d[0].0 != k {
      var r := Put(d, k, v);
      PutSpec(d[1..], k, v);
      assert r[1..] == Put(d[1..], k, v);
      forall i | 0 <= i < |d| ensures r[i].0 == d[i].0 {
        if 0 < i {
          assert r[i] == Put(d[1..], k, v)[i - 1];
        }
      }
    }
  }

  /** Adding to a key raises it by v, leaves every other key alone and raises the total by v. */
  lemma {:induction false} AddSpec(d: Counts, k: string, v: int)
    ensures forall k' :: Get(Add(d, k, v), k') == Get(d, k') + (if k' == k then v else 0)
    ensures KeySet(Add(d, k, v)) == KeySet(d) + {k}
    ensures Total(Add(d, k, v)) == Total(d) + v
    ensures DistinctKeys(d) ==> DistinctKeys(Add(d, k, v))
    ensures |d| <= |Add(d, k, v)| <= |d| + 1
    ensures forall i :: 0 <= i < |d| ==> Add(d, k, v)[i].0 == d[i].0
  {
    PutSpec(d, k, Get(d, k) + v);
  }

  // ---------------------------------------------------------------- accumulation

  /** Adding the value of each entry of e, in order, to the dict d. */
  function Accumulate(d: Counts, e: Counts): Counts
    decreases |e|
  {
    if e == [] then d else Accumulate(Add(d, e[0].0, e[0].1), e[1..])
  }

  /**
   * Accumulating e into d: every key reads its old value plus all the values e pairs with
   * it; the keys are those of d and of e; the total grows by the total of e; no key is
   * repeated; the keys of d keep their places and at most |e| new ones follow.
   */
  lemma {:induction false} AccumulateSpec(d: Counts, e: Counts)
    ensures forall k :: Get(Accumulate(d, e), k) == Get(d, k) + SumFor(e, k)
    ensures KeySet(Accumulate(d, e)) == KeySet(d) + KeySet(e)
    ensures Total(Accumulate(d, e)) == Total(d) + Total(e)
    ensures DistinctKeys(d) ==> DistinctKeys(Accumulate(d, e))
    ensures |d| <= |Accumulate(d, e)| <= |d| + |e|
    ensures forall i :: 0 <= i < |d| ==> Accumulate(d, e)[i].0 == d[i].0
    decreases |e|
  {
    if e != [] {
      var d' := Add(d, e[0].0, e[0].1);
      AddSpec(d, e[0].0, e[0].1);
      AccumulateSpec(d', e[1..]);
      forall i | 0 <= i < |d| ensures Accumulate(d, e)[i].0 == d[i].0 {
        assert Accumulate(d, e)[i].0 == d'[i].0;
      }
    }
  }

  lemma {:induction false} AccumulateAppend(d: Counts, a: Counts, b: Counts)
    ensures Accumulate(d, a + b) == Accumulate(Accumulate(d, a), b)
    decreases |a|
  {
    if a != [] {
      assert (a + b)[0] == a[0] && (a + b)[1..] == a[1..] + b;
      AccumulateAppend(Add(d, a[0].0, a[0].1), a[1..], b);
    } else {
      assert a + b == b;
    }
  }

  /** One step of a loop that adds entry j of e: the remaining work shrinks by that entry. */
  lemma {:induction false} AccumulateStep(d: Counts, e: Counts, j: nat)
    requires j < |e|
    ensures Accumulate(d, e[j..]) == Accumulate(Add(d, e[j].0, e[j].1), e[j + 1..])
  {
    assert e[j..][0] == e[j] && e[j..][1..] == e[j + 1..];
  }

  /**
   * Merging two dicts by key (sixty-part6.py, sixty-part7.py, partition-sixty.py,
   * five-partion2.py): the keys are the union, each reads the sum of its two lookups,
   * the total is the sum of the totals, and the first dict's keys keep their places.
   */
  lemma {:induction false} MergeSpec(c1: Counts, c2: Counts)
    requires DistinctKeys(c1) && DistinctKeys(c2)
    ensures DistinctKeys(Accumulate(c1, c2))
    ensures KeySet(Accumulate(c1, c2)) == KeySet(c1) + KeySet(c2)
    ensures forall k :: Get(Accumulate(c1, c2), k) == Get(c1, k) + Get(c2, k)
    ensures Total(Accumulate(c1, c2)) == Total(c1) + Total(c2)
    ensures |c1| <= |Accumulate(c1, c2)| && forall i :: 0 <= i < |c1| ==> Accumulate(c1, c2)[i].0 == c1[i].0
  {
    AccumulateSpec(c1, c2);
    forall k ensures SumFor(c2, k) == Get(c2, k) {
      SumForDistinct(c2, k);
    }
  }

  /**
   * Merging does not depend on the order of the arguments: both orders give the same
   * keys with the same counts (the entries may come in another order).
   */
  lemma {:induction false} MergeSymmetric(c1: Counts, c2: Counts)
    requires DistinctKeys(c1) && DistinctKeys(c2)
    ensures KeySet(Accumulate(c1, c2)) == KeySet(Accumulate(c2, c1))
    ensures forall k :: Get(Accumulate(c1, c2), k) == Get(Accumulate(c2, c1), k)
  {
    MergeSpec(c1, c2);
    MergeSpec(c2, c1);
  }

  /** Keys that all have w characters keep w characters after a merge: 30-bit keys stay 30 bits. */
  lemma {:induction false} MergeKeepsWidth(c1: Counts, c2: Counts, w: nat)
    requires DistinctKeys(c1) && DistinctKeys(c2)
    requires forall s :: s in KeySet(c1) + KeySet(c2) ==> |s| == w
    ensures forall s :: s in KeySet(Accumulate(c1, c2)) ==> |s| == w
  {
    MergeSpec(c1, c2);
  }

  /** `combine_counts` of sixty-part6.py and sixty-part7.py: a fresh dict filled in two loops. */
  method CombineCounts(counts1: Counts, counts2: Counts) returns (combined: Counts)
    requires DistinctKeys(counts1) && DistinctKeys(counts2)
    ensures combined == Accumulate(counts1, counts2)
    ensures DistinctKeys(combined) && KeySet(combined) == KeySet(counts1) + KeySet(counts2)
    ensures forall k :: Get(combined, k) == Get(counts1, k) + Get(counts2, k)
    ensures Total(combined) == Total(counts1) + Total(counts2)
  {
    combined := [];
    for i := 0 to |counts1|
      invariant combined == counts1[..i]
    {
      var key := counts1[i].0;
      GetAt(counts1, i);
      PutSpec(combined, key, Get(counts1, key));
      combined := Put(combined, key, Get(counts1, key));
      assert counts1[..i + 1] == counts1[..i] + [counts1[i]];
    }
    assert counts1[..|counts1|] == counts1;
    for j := 0 to |counts2|
      invariant Accumulate(combined, counts2[j..]) == Accumulate(counts1, counts2)
    {
      var key := counts2[j].0;
      GetAt(counts2, j);
      AccumulateStep(combined, counts2, j);
      combined := Put(combined, key, Get(combined, key) + Get(counts2, key));
    }
    MergeSpec(counts1, counts2);
  }

  /**
   * `merge_counts` of partition-sixty.py and `combine_results` of five-partion2.py: a copy
   * of the first dict, then each entry of the second either added to its key or inserted.
   */
  method MergeCounts(counts1: Counts, counts2: Counts) returns (merged: Counts)
    requires DistinctKeys(counts1) && DistinctKeys(counts2)
    ensures merged == Accumulate(counts1, counts2)
    ensures DistinctKeys(merged) && KeySet(merged) == KeySet(counts1) + KeySet(counts2)
    ensures forall k :: Get(merged, k) == Get(counts1, k) + Get(counts2, k)
    ensures Total(merged) == Total(counts1) + Total(counts2)
  {
    merged := counts1;
    for j := 0 to |counts2|
      invariant Accumulate(merged, counts2[j..]) == Accumulate(counts1, counts2)
    {
      var (key, value) := counts2[j];
      AccumulateStep(merged, counts2, j);
      if key in KeySet(merged) {
        merged := Put(merged, key, Get(merged, key) + value);
      } else {
        Absent(merged, key);
        merged := Put(merged, key, value);
      }
    }
    MergeSpec(counts1, counts2);
  }

  /** The merge of partition-sixty.py, on {"00": 3, "01": 2} and {"00": 5}. */
  lemma MergeExample()
    ensures Accumulate([("00", 3), ("01", 2)], [("00", 5)]) == [("00", 8), ("01", 2)]
  {
  }

  /**
   * The main block of partition-sixty.py merges only when both partition results are
   * truthy: present (not None) and not empty.
   */
  method MergeIfBothPresent(counts1: Option<Counts>, counts2: Option<Counts>) returns (merged: Option<Counts>)
    requires counts1.Some? ==> DistinctKeys(counts1.value)
    requires counts2.Some? ==> DistinctKeys(counts2.value)
    ensures merged.Some? <==> counts1.Some? && counts1.value != [] && counts2.Some? && counts2.value != []
    ensures merged.Some? ==> merged.value == Accumulate(counts1.value, counts2.value)
  {
    if counts1.Some? && counts1.value != [] && counts2.Some? && counts2.value != [] {
      var m := MergeCounts(counts1.value, counts2.value);
      merged := Some(m);
    } else {
      merged := None;
    }
  }

  /**
   * The main blocks of sixty-part6.py and sixty-part7.py call combine_counts on the two
   * results of run_simulation without a check, and run_simulation gives None when Qiskit
   * raises: iterating over None raises a TypeError.
   */
  method CombineUnguarded(counts1: Option<Counts>, counts2: Option<Counts>) returns (r: Result<Counts, string>)
    requires counts1.Some? ==> DistinctKeys(counts1.value)
    requires counts2.Some? ==> DistinctKeys(counts2.value)
    ensures r.Failure? <==> counts1.None? || counts2.None?
    ensures r.Success? ==> r.value == Accumulate(counts1.value, counts2.value)
  {
    if counts1.None? || counts2.None? {
      return Failure("TypeError: 'NoneType' object is not iterable");
    }
    var c := CombineCounts(counts1.value, counts2.value);
    r := Success(c);
  }

  // ---------------------------------------------------------------- combine.py

  /** The combined entry of combine.py: the two states concatenated, the two counts added. */
  function Join(x: (string, int), y: (string, int)): (string, int)
  {
    (x.0 + y.0, x.1 + y.1)
  }

  /** Every pair of entries, partition 1's entry first, in the order of the two loops. */
  function Pairings(counts1: Counts, counts2: Counts): Counts
  {
    Outer(counts1, counts2, Join)
  }

  /** `combine_counts` of combine.py: a defaultdict(int) filled by two nested loops. */
  method CombineCartesian(counts1: Counts, counts2: Counts) returns (combined: Counts)
    ensures combined == Accumulate([], Pairings(counts1, counts2))
    ensures DistinctKeys(combined)
    ensures KeySet(combined) == KeySet(Pairings(counts1, counts2))
    ensures forall k :: Get(combined, k) == SumFor(Pairings(counts1, counts2), k)
    ensures |combined| <= |counts1| * |counts2|
  {
    combined := [];
    var target := Accumulate([], Pairings(counts1, counts2));
    for i := 0 to |counts1|
      invariant Accumulate(combined, Pairings(counts1[i..], counts2)) == target
    {
      CartesianOuterStep(combined, counts1, counts2, i);
      for j := 0 to |counts2|
        invariant Accumulate(Accumulate(combined, Row(counts1[i], counts2[j..], Join)), Pairings(counts1[i + 1..], counts2)) == target
      {
        var (state1, count1) := counts1[i];
        var (state2, count2) := counts2[j];
        CartesianInnerStep(combined, counts1[i], counts2, j);
        combined := Put(combined, state1 + state2, Get(combined, state1 + state2) + (count1 + count2));
      }
      assert counts2[|counts2|..] == [];
    }
    assert counts1[|counts1|..] == [];
    CartesianAccumulated(counts1, counts2);
  }

  lemma CartesianAccumulated(counts1: Counts, counts2: Counts)
    ensures DistinctKeys(Accumulate([], Pairings(counts1, counts2)))
    ensures KeySet(Accumulate([], Pairings(counts1, counts2))) == KeySet(Pairings(counts1, counts2))
    ensures forall k :: Get(Accumulate([], Pairings(counts1, counts2)), k) == SumFor(Pairings(counts1, counts2), k)
    ensures |Accumulate([], Pairings(counts1, counts2))| <= |counts1| * |counts2|
  {
    AccumulateSpec([], Pairings(counts1, counts2));
    OuterLength(counts1, counts2, Join);
  }

  /** The outer loop's step: the pairings of the remaining rows are the current row's, then the rest. */
  lemma CartesianOuterStep(d: Counts, counts1: Counts, counts2: Counts, i: nat)
    requires i < |counts1|
    ensures Accumulate(d, Pairings(counts1[i..], counts2))
            == Accumulate(Accumulate(d, Row(counts1[i], counts2, Join)), Pairings(counts1[i + 1..], counts2))
  {
    assert counts1[i..][0] == counts1[i] && counts1[i..][1..] == counts1[i + 1..];
    AccumulateAppend(d, Row(counts1[i], counts2, Join), Pairings(counts1[i + 1..], counts2));
  }

  /** The inner loop's step: the next pairing is added to its concatenated key. */
  lemma CartesianInnerStep(d: Counts, x: (string, int), counts2: Counts, j: nat)
    requires j < |counts2|
    ensures Accumulate(d, Row(x, counts2[j..], Join))
            == Accumulate(Add(d, x.0 + counts2[j].0, x.1 + counts2[j].1), Row(x, counts2[j + 1..], Join))
  {
    var r := Row(x, counts2[j..], Join);
    assert r[0] == (x.0 + counts2[j].0, x.1 + counts2[j].1);
    assert r[1..] == Row(x, counts2[j + 1..], Join);
  }

  /** The keys produced are exactly the concatenations s1 + s2 of a key of each dict. */
  lemma {:induction false} PairingsKeys(counts1: Counts, counts2: Counts)
    ensures forall s :: s in KeySet(Pairings(counts1, counts2)) <==>
              exists s1, s2 :: s1 in KeySet(counts1) && s2 in KeySet(counts2) && s == s1 + s2
    decreases |counts1|
  {
    if counts1 != [] {
      var row, rest := Row(counts1[0], counts2, Join), Pairings(counts1[1..], counts2);
      PairingsKeys(counts1[1..], counts2);
      KeySetAppend(row, rest);
      RowKeys(counts1[0], counts2);
    }
  }

  lemma {:induction false} RowKeys(x: (string, int), counts2: Counts)
    ensures forall s :: s in KeySet(Row(x, counts2, Join)) <==> exists s2 :: s2 in KeySet(counts2) && s == x.0 + s2
    decreases |counts2|
  {
    if counts2 != [] {
      assert Row(x, counts2, Join)[1..] == Row(x, counts2[1..], Join);
      RowKeys(x, counts2[1..]);
    }
  }

  /**
   * Each count of the first dict is added once per entry of the second and each count of
   * the second once per entry of the first: the combined total is
   * |counts2|·Total(counts1) + |counts1|·Total(counts2), not the number of shots.
   */
  lemma {:induction false} PairingsTotal(counts1: Counts, counts2: Counts)
    ensures Total(Pairings(counts1, counts2)) == |counts2| * Total(counts1) + |counts1| * Total(counts2)
    decreases |counts1|
  {
    if counts1 != [] {
      var row := Row(counts1[0], counts2, Join);
      PairingsTotal(counts1[1..], counts2);
      TotalAppend(row, Pairings(counts1[1..], counts2));
      RowTotal(counts1[0], counts2);
      assert |counts2| * Total(counts1) == |counts2| * counts1[0].1 + |counts2| * Total(counts1[1..]);
      assert |counts1| * Total(counts2) == Total(counts2) + (|counts1| - 1) * Total(counts2);
    }
  }

  lemma {:induction false} RowTotal(x: (string, int), counts2: Counts)
    ensures Total(Row(x, counts2, Join)) == |counts2| * x.1 + Total(counts2)
    decreases |counts2|
  {
    if counts2 != [] {
      assert Row(x, counts2, Join)[1..] == Row(x, counts2[1..], Join);
      RowTotal(x, counts2[1..]);
    }
  }

  /**
   * When every key of the first dict has the same length, s1 + s2 can only come from s1
   * and s2, so the combined count of s1 + s2 is exactly counts1[s1] + counts2[s2].
   */
  lemma {:induction false} CartesianInjective(counts1: Counts, counts2: Counts, w: nat, s1: string, s2: string)
    requires DistinctKeys(counts1) && DistinctKeys(counts2)
    requires forall s :: s in KeySet(counts1) ==> |s| == w
    requires s1 in KeySet(counts1) && s2 in KeySet(counts2)
    ensures SumFor(Pairings(counts1, counts2), s1 + s2) == Get(counts1, s1) + Get(counts2, s2)
    decreases |counts1|
  {
    var x := counts1[0];
    var rest := Pairings(counts1[1..], counts2);
    SumForAppend(Row(x, counts2, Join), rest, s1 + s2);
    if x.0 == s1 {
      RowSumMatch(x, counts2, s2);
      PairingsSumOther(counts1[1..], counts2, w, s1, s2);
    } else {
      RowSumOther(x, counts2, s1, s2);
      CartesianInjective(counts1[1..], counts2, w, s1, s2);
    }
  }

  /** Two concatenations whose first parts have one length are equal only part by part. */
  lemma {:induction false} ConcatDiffers(a: string, b: string, c: string, d: string)
    requires |a| == |c| && (a != c || b != d)
    ensures a + b != c + d
  {
    assert (a + b)[..|a|] == a && (a + b)[|a|..] == b;
    assert (c + d)[..|c|] == c && (c + d)[|c|..] == d;
  }

  /** In the row of s1, only s2 gives s1 + s2. */
  lemma {:induction false} RowSumMatch(x: (string, int), counts2: Counts, s2: string)
    requires DistinctKeys(counts2) && s2 in KeySet(counts2)
    ensures SumFor(Row(x, counts2, Join), x.0 + s2) == x.1 + Get(counts2, s2)
    decreases |counts2|
  {
    var y := counts2[0];
    assert Row(x, counts2, Join)[1..] == Row(x, counts2[1..], Join);
    if y.0 == s2 {
      RowSumOtherSecond(x, counts2[1..], s2);
    } else {
      ConcatDiffers(x.0, y.0, x.0, s2);
      RowSumMatch(x, counts2[1..], s2);
    }
  }

  /** A row whose second keys all differ from s2 gives nothing to x.0 + s2. */
  lemma {:induction false} RowSumOtherSecond(x: (string, int), counts2: Counts, s2: string)
    requires s2 !in KeySet(counts2)
    ensures SumFor(Row(x, counts2, Join), x.0 + s2) == 0
    decreases |counts2|
  {
    if counts2 != [] {
      var y := counts2[0];
      assert Row(x, counts2, Join)[1..] == Row(x, counts2[1..], Join);
      ConcatDiffers(x.0, y.0, x.0, s2);
      RowSumOtherSecond(x, counts2[1..], s2);
    }
  }

  /** A row of a first key other than s1, of the same length, gives nothing to s1 + s2. */
  lemma {:induction false} RowSumOther(x: (string, int), counts2: Counts, s1: string, s2: string)
    requires x.0 != s1 && |x.0| == |s1|
    ensures SumFor(Row(x, counts2, Join), s1 + s2) == 0
    decreases |counts2|
  {
    if counts2 != [] {
      var y := counts2[0];
      assert Row(x, counts2, Join)[1..] == Row(x, counts2[1..], Join);
      ConcatDiffers(x.0, y.0, s1, s2);
      RowSumOther(x, counts2[1..], s1, s2);
    }
  }

  /** Rows of first keys other than s1 give nothing to s1 + s2. */
  lemma {:induction false} PairingsSumOther(counts1: Counts, counts2: Counts, w: nat, s1: string, s2: string)
    requires forall s :: s in KeySet(counts1) ==> |s| == w
    requires s1 !in KeySet(counts1) && |s1| == w
    ensures SumFor(Pairings(counts1, counts2), s1 + s2) == 0
    decreases |counts1|
  {
    if counts1 != [] {
      SumForAppend(Row(counts1[0], counts2, Join), Pairings(counts1[1..], counts2), s1 + s2);
      RowSumOther(counts1[0], counts2, s1, s2);
      PairingsSumOther(counts1[1..], counts2, w, s1, s2);
    }
  }

  /** combine.py on {"0": 1} and {"1": 1}: one key, "01", with the two counts added. */
  lemma CartesianExample()
    ensures Accumulate([], Pairings([("0", 1)], [("1", 1)])) == [("01", 2)]
  {
    assert "0" + "1" == "01";
    assert Row(("0", 1), [("1", 1)], Join) == [("01", 2)];
    assert Pairings([("0", 1)], [("1", 1)]) == Row(("0", 1), [("1", 1)], Join) + [];
  }

  lemma {:induction false} DistinctAppend(a: Counts, b: Counts)
    requires DistinctKeys(a) && DistinctKeys(b) && KeySet(a) !! KeySet(b)
    ensures DistinctKeys(a + b)
    decreases |a|
  {
    if a != [] {
      assert (a + b)[0] == a[0] && (a + b)[1..] == a[1..] + b;
      DistinctAppend(a[1..], b);
      KeySetAppend(a[1..], b);
    } else {
      assert a + b == b;
    }
  }

  /** Accumulating entries whose keys are all new just appends them. */
  lemma {:induction false} AccumulateFresh(d: Counts, e: Counts)
    requires DistinctKeys(e) && KeySet(d) !! KeySet(e)
    ensures Accumulate(d, e) == d + e
    decreases |e|
  {
    if e != [] {
      Absent(d, e[0].0);
      PutSpec(d, e[0].0, e[0].1);
      KeySetAppend(d, [e[0]]);
      AccumulateFresh(d + [e[0]], e[1..]);
      assert d + [e[0]] + e[1..] == d + e;
    } else {
      assert d + e == d;
    }
  }

  lemma {:induction false} RowDistinct(x: (string, int), counts2: Counts)
    requires DistinctKeys(counts2)
    ensures DistinctKeys(Row(x, counts2, Join))
    decreases |counts2|
  {
    if counts2 != [] {
      var row := Row(x, counts2, Join);
      assert row[1..] == Row(x, counts2[1..], Join);
      RowDistinct(x, counts2[1..]);
      RowKeys(x, counts2[1..]);
      if row[0].0 in KeySet(row[1..]) {
        var s2 :| s2 in KeySet(counts2[1..]) && row[0].0 == x.0 + s2;
        ConcatDiffers(x.0, counts2[0].0, x.0, s2);
        assert false;
      }
    }
  }

  /** When the first dict's keys all have one length, the pairings repeat no key. */
  lemma {:induction false} PairingsDistinct(counts1: Counts, counts2: Counts, w: nat)
    requires DistinctKeys(counts1) && DistinctKeys(counts2)
    requires forall s :: s in KeySet(counts1) ==> |s| == w
    ensures DistinctKeys(Pairings(counts1, counts2))
    decreases |counts1|
  {
    if counts1 != [] {
      var x := counts1[0];
      var row, rest := Row(x, counts2, Join), Pairings(counts1[1..], counts2);
      RowDistinct(x, counts2);
      PairingsDistinct(counts1[1..], counts2, w);
      RowKeys(x, counts2);
      PairingsKeys(counts1[1..], counts2);
      forall s | s in KeySet(row) ensures s !in KeySet(rest) {
        var s2 :| s2 in KeySet(counts2) && s == x.0 + s2;
        forall s1, s2' | s1 in KeySet(counts1[1..]) && s2' in KeySet(counts2) ensures s != s1 + s2' {
          ConcatDiffers(x.0, s2, s1, s2');
        }
      }
      DistinctAppend(row, rest);
    }
  }

  /**
   * When the first dict's keys all have one length, the combined dict of combine.py is
   * the table of pairings itself: |counts1|·|counts2| keys, one per pair, in loop order.
   */
  lemma {:induction false} CartesianTable(counts1: Counts, counts2: Counts, w: nat)
    requires DistinctKeys(counts1) && DistinctKeys(counts2)
    requires forall s :: s in KeySet(counts1) ==> |s| == w
    ensures Accumulate([], Pairings(counts1, counts2)) == Pairings(counts1, counts2)
    ensures |Accumulate([], Pairings(counts1, counts2))| == |counts1| * |counts2|
  {
    PairingsDistinct(counts1, counts2, w);
    AccumulateFresh([], Pairings(counts1, counts2));
    assert [] + Pairings(counts1, counts2) == Pairings(counts1, counts2);
    OuterLength(counts1, counts2, Join);
  }

  // ---------------------------------------------------------------- load_counts of combine.py

  /** Why `load_counts` raises: no header row (StopIteration), a row that is not two fields, a count that is not an integer. */
  datatype LoadError = MissingHeader | Unpack(row: nat) | NotAnInteger(row: nat)

  predicate IsDigits(s: string)
  {
    |s| > 0 && forall i :: 0 <= i < |s| ==> '0' <= s[i] <= '9'
  }

  /** The value of a string of decimal digits, most significant first. */
  function DigitsValue(s: string): nat
    requires forall i :: 0 <= i < |s| ==> '0' <= s[i] <= '9'
    decreases |s|
  {
    if s == [] then 0 else DigitsValue(s[..|s| - 1]) * 10 + (s[|s| - 1] as int - '0' as int)
  }

  /** `int(text)` on an optional sign followed by decimal digits; None where Python raises ValueError. */
  function ParseInt(s: string): Option<int>
  {
    if IsDigits(s) then Some(DigitsValue(s))
    else if |s| > 1 && s[0] == '-' && IsDigits(s[1..]) then Some(-(DigitsValue(s[1..]) as int))
    else if |s| > 1 && s[0] == '+' && IsDigits(s[1..]) then Some(DigitsValue(s[1..]))
    else None
  }

  /** `str(n)` for n >= 0. */
  function ShowNat(n: nat): (s: string)
    ensures IsDigits(s)
    decreases n
  {
    if n < 10 then [('0' as int + n) as char] else ShowNat(n / 10) + [('0' as int + n % 10) as char]
  }

  /** `str(n)`: what `csv.writer` writes for a count. */
  function ShowInt(n: int): string
  {
    if n < 0 then "-" + ShowNat(-n) else ShowNat(n)
  }

  lemma {:induction false} DigitsOfShow(n: nat)
    ensures DigitsValue(ShowNat(n)) == n
    decreases n
  {
    if 10 <= n {
      var s := ShowNat(n);
      assert s[..|s| - 1] == ShowNat(n / 10);
      DigitsOfShow(n / 10);
    }
  }

  /** A minus sign before decimal digits reads as the negated value. */
  lemma ParseNegative(s: string)
    requires |s| > 1 && s[0] == '-' && IsDigits(s[1..])
    ensures ParseInt(s) == Some(-(DigitsValue(s[1..]) as int))
  {
    assert !IsDigits(s);
  }

  /** `str(n)` of a negative n is a minus sign before `str(-n)`. */
  lemma ShowNegative(n: int)
    requires n < 0
    ensures |ShowInt(n)| > 1 && ShowInt(n)[0] == '-' && ShowInt(n)[1..] == ShowNat(-n)
  {
    var t := ShowNat(-n);
    assert |t| > 0;
    assert ("-" + t)[1..] == t;
  }

  /** A count written as text reads back as the same integer. */
  lemma {:induction false} ParseShow(n: int)
    ensures ParseInt(ShowInt(n)) == Some(n)
  {
    if n < 0 {
      DigitsOfShow(-n);
      ShowNegative(n);
      ParseNegative(ShowInt(n));
    } else {
      DigitsOfShow(n);
    }
  }

  /** A data row `state, count = row` unpacks and its count parses. */
  predicate RowOk(row: seq<string>)
  {
    |row| == 2 && ParseInt(row[1]).Some?
  }

  predicate AllRowsOk(rows: seq<seq<string>>)
  {
    forall i :: 0 <= i < |rows| ==> RowOk(rows[i])
  }

  /** The states named by the rows. */
  function States(rows: seq<seq<string>>): set<string>
    requires AllRowsOk(rows)
  {
    if rows == [] then {} else States(rows[..|rows| - 1]) + {rows[|rows| - 1][0]}
  }

  /** The count of the last row naming the state, 0 if none does: a later row overwrites an earlier one. */
  function LastCount(rows: seq<seq<string>>, state: string): int
    requires AllRowsOk(rows)
  {
    if rows == [] then 0
    else if rows[|rows| - 1][0] == state then ParseInt(rows[|rows| - 1][1]).value
    else LastCount(rows[..|rows| - 1], state)
  }

  /**
   * `load_counts` of combine.py, on the rows the CSV reader yields: it skips the header,
   * unpacks each further row into a state and a count, and assigns `counts[state] =
   * int(count)`. It fails exactly when there is no header or a data row is malformed,
   * and then names the first bad row; otherwise each state holds its last row's count.
   */
  method LoadCounts(rows: seq<seq<string>>) returns (r: Result<Counts, LoadError>)
    ensures r.Success? <==> |rows| > 0 && AllRowsOk(rows[1..])
    ensures r.Failure? && r.error.MissingHeader? ==> rows == []
    ensures r.Failure? && !r.error.MissingHeader? ==>
              1 <= r.error.row < |rows| && !RowOk(rows[r.error.row]) && AllRowsOk(rows[1..r.error.row])
    ensures r.Failure? && r.error.Unpack? ==> |rows[r.error.row]| != 2
    ensures r.Success? ==> DistinctKeys(r.value) && KeySet(r.value) == States(rows[1..])
    ensures r.Success? ==> forall s :: Get(r.value, s) == LastCount(rows[1..], s)
  {
    if |rows| == 0 {
      return Failure(MissingHeader);
    }
    var counts: Counts := [];
    for i := 1 to |rows|
      invariant AllRowsOk(rows[1..i])
      invariant DistinctKeys(counts) && KeySet(counts) == States(rows[1..i])
      invariant forall s :: Get(counts, s) == LastCount(rows[1..i], s)
    {
      var row := rows[i];
      if |row| != 2 {
        assert rows[1..][i - 1] == row;
        return Failure(Unpack(i));
      }
      var state, count := row[0], row[1];
      var n := ParseInt(count);
      if n.None? {
        assert rows[1..][i - 1] == row;
        return Failure(NotAnInteger(i));
      }
      LoadStep(rows, i, counts);
      counts := Put(counts, state, n.value);
    }
    assert rows[1..|rows|] == rows[1..];
    return Success(counts);
  }

  /** One more well-formed data row: its state now holds its count, every other state keeps its own. */
  lemma LoadStep(rows: seq<seq<string>>, i: nat, counts: Counts)
    requires 1 <= i < |rows| && RowOk(rows[i]) && AllRowsOk(rows[1..i])
    requires DistinctKeys(counts) && KeySet(counts) == States(rows[1..i])
    requires forall s :: Get(counts, s) == LastCount(rows[1..i], s)
    ensures AllRowsOk(rows[1..i + 1])
    ensures DistinctKeys(Put(counts, rows[i][0], ParseInt(rows[i][1]).value))
    ensures KeySet(Put(counts, rows[i][0], ParseInt(rows[i][1]).value)) == States(rows[1..i + 1])
    ensures forall s :: Get(Put(counts, rows[i][0], ParseInt(rows[i][1]).value), s) == LastCount(rows[1..i + 1], s)
  {
    var pre, cur := rows[1..i], rows[1..i + 1];
    assert cur[..i - 1] == pre && cur[i - 1] == rows[i];
    assert AllRowsOk(cur) by {
      forall k | 0 <= k < |cur| ensures RowOk(cur[k]) {
        if k < i - 1 {
          assert cur[k] == pre[k];
        }
      }
    }
    PutSpec(counts, rows[i][0], ParseInt(rows[i][1]).value);
  }

  /** The rows `save_combined_counts` writes for a dict: a header, then one `[state, str(count)]` per entry. */
  function CountRows(d: Counts): (rows: seq<seq<string>>)
    ensures |rows| == |d| + 1
  {
    [["State", "Counts"]] + seq(|d|, i requires 0 <= i < |d| => [d[i].0, ShowInt(d[i].1)])
  }

  lemma {:induction false} GetSnoc(a: Counts, x: (string, int), s: string)
    ensures Get(a + [x], s) == if s in KeySet(a) then Get(a, s) else if x.0 == s then x.1 else 0
    decreases |a|
  {
    if a != [] {
      assert (a + [x])[1..] == a[1..] + [x];
      GetSnoc(a[1..], x, s);
    } else {
      assert a + [x] == [x];
    }
  }

  /**
   * Writing a dict as save_combined_counts does and loading it back with load_counts
   * gives every state its count again, and no other state.
   */
  lemma {:induction false} LoadSavedCounts(d: Counts)
    requires DistinctKeys(d)
    ensures AllRowsOk(CountRows(d)[1..])
    ensures States(CountRows(d)[1..]) == KeySet(d)
    ensures forall s :: LastCount(CountRows(d)[1..], s) == Get(d, s)
    decreases |d|
  {
    var rows := CountRows(d)[1..];
    forall i | 0 <= i < |rows| ensures RowOk(rows[i]) {
      ParseShow(d[i].1);
    }
    if d != [] {
      var a, x := d[..|d| - 1], d[|d| - 1];
      assert d == a + [x];
      DistinctPrefix(d);
      LoadSavedCounts(a);
      assert rows[..|rows| - 1] == CountRows(a)[1..];
      ParseShow(x.1);
      KeySetAppend(a, [x]);
      assert rows[|rows| - 1] == [x.0, ShowInt(x.1)];
      forall s ensures LastCount(rows, s) == Get(d, s) {
        GetSnoc(a, x, s);
        if s !in KeySet(a) {
          Absent(a, s);
        }
      }
    }
  }

  /** Dropping the last entry of a dict leaves a dict, which does not hold the dropped key. */
  lemma {:induction false} DistinctPrefix(d: Counts)
    requires DistinctKeys(d) && d != []
    ensures DistinctKeys(d[..|d| - 1]) && d[|d| - 1].0 !in KeySet(d[..|d| - 1])
    decreases |d|
  {
    if 1 < |d| {
      DistinctPrefix(d[1..]);
      assert d[1..][..|d| - 2] == d[..|d| - 1][1..];
      assert d[..|d| - 1][0] == d[0];
      KeySetAppend(d[..|d| - 1][1..], [d[|d| - 1]]);
      assert d[1..] == d[..|d| - 1][1..] + [d[|d| - 1]];
    }
  }
}
