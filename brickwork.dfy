/**
 * The brickwork generators: every layer appends a block of single-qubit gates and
 * then the two-qubit pairs that the layer's parity selects; some scripts end with a
 * measure step. The op sequence each generator produces is described by `Layers`.
 */
module Brickwork {
  import opened Wrappers
  import opened Circuits
  import opened Pairs
  import opened Schedules

  /** The pair block of layer l: `even` when l % 2 == 0, `odd` otherwise. */
  function Pick(even: seq<Op>, odd: seq<Op>, l: nat): seq<Op>
  {
    if l % 2 == 0 then even else odd
  }

  /** The ops of `layers` layers, each `single` followed by the block its parity picks. */
  function Layers(single: seq<Op>, even: seq<Op>, odd: seq<Op>, layers: nat): seq<Op>
  {
    if layers == 0 then []
    else if layers == 1 then single + even
    else Layers(single, even, odd, layers - 1) + single + Pick(even, odd, layers - 1)
  }

  /** One more layer appends the single-qubit block and the pair block of its parity. */
  lemma LayersStep(single: seq<Op>, even: seq<Op>, odd: seq<Op>, layers: nat)
    requires layers > 0
    ensures Layers(single, even, odd, layers) == Layers(single, even, odd, layers - 1) + single + Pick(even, odd, layers - 1)
  {
    if layers == 1 {
      assert [] + single == single;
    }
  }

  /** Even layers 0, 2, ... number (layers + 1) / 2 and odd layers layers / 2. */
  lemma {:induction false} LayersLength(single: seq<Op>, even: seq<Op>, odd: seq<Op>, layers: nat)
    ensures |Layers(single, even, odd, layers)| ==
              layers * |single| + ((layers + 1) / 2) * |even| + (layers / 2) * |odd|
  {
    if layers > 0 {
      LayersLength(single, even, odd, layers - 1);
      LayerArithmetic(layers, |single|, |even|, |odd|,
                      |Layers(single, even, odd, layers - 1)|, |Layers(single, even, odd, layers)|);
    }
  }

  /** The arithmetic step of the two lemmas above: one more layer adds one block and one parity block. */
  lemma LayerArithmetic(layers: nat, s: int, e: int, o: int, prev: int, total: int)
    requires layers > 0
    requires prev == (layers - 1) * s + ((layers - 1 + 1) / 2) * e + ((layers - 1) / 2) * o
    requires total == prev + s + (if (layers - 1) % 2 == 0 then e else o)
    ensures total == layers * s + ((layers + 1) / 2) * e + (layers / 2) * o
  {
    var l := layers - 1;
    assert layers * s == l * s + s;
    if l % 2 == 0 {
      assert (layers + 1) / 2 == layers / 2 + 1;
      assert layers / 2 == l / 2;
      assert (layers / 2 + 1) * e == (layers / 2) * e + e;
    } else {
      assert (layers + 1) / 2 == layers / 2;
      assert layers / 2 == l / 2 + 1;
      assert (l / 2 + 1) * o == (l / 2) * o + o;
    }
  }

  lemma {:induction false} LayersCount(single: seq<Op>, even: seq<Op>, odd: seq<Op>, layers: nat, k: Kind)
    ensures Count(Layers(single, even, odd, layers), k) ==
              layers * Count(single, k) + ((layers + 1) / 2) * Count(even, k) + (layers / 2) * Count(odd, k)
  {
    if layers > 0 {
      LayersCount(single, even, odd, layers - 1, k);
      LayersCountStep(single, even, odd, layers, k);
      LayerArithmetic(layers, Count(single, k), Count(even, k), Count(odd, k),
                      Count(Layers(single, even, odd, layers - 1), k), Count(Layers(single, even, odd, layers), k));
    }
  }

  /** One more layer adds the count of the single-qubit block and of the pair block of its parity. */
  lemma LayersCountStep(single: seq<Op>, even: seq<Op>, odd: seq<Op>, layers: nat, k: Kind)
    requires layers > 0
    ensures Count(Layers(single, even, odd, layers), k) ==
              Count(Layers(single, even, odd, layers - 1), k) + Count(single, k) +
              (if (layers - 1) % 2 == 0 then Count(even, k) else Count(odd, k))
  {
    var prev := Layers(single, even, odd, layers - 1);
    LayersStep(single, even, odd, layers);
    CountAppend(prev + single, Pick(even, odd, layers - 1), k);
    CountAppend(prev, single, k);
  }

  lemma {:induction false} LayersInRange(single: seq<Op>, even: seq<Op>, odd: seq<Op>, layers: nat, n: nat)
    requires AllInRange(single, n) && AllInRange(even, n) && AllInRange(odd, n)
    ensures AllInRange(Layers(single, even, odd, layers), n)
  {
    if layers > 0 {
      LayersInRange(single, even, odd, layers - 1, n);
      LayersStep(single, even, odd, layers);
      var prev, block := Layers(single, even, odd, layers - 1), Pick(even, odd, layers - 1);
      assert AllInRange(block, n);
      var r := prev + single + block;
      forall k | 0 <= k < |r| ensures InRange(r[k], n) {
        if k < |prev| {
          assert r[k] == prev[k];
        } else if k < |prev| + |single| {
          assert r[k] == single[k - |prev|];
        } else {
          assert r[k] == block[k - |prev| - |single|];
        }
      }
    }
  }

  /** The first l layers of a longer run are a prefix of it. */
  lemma {:induction false} LayersPrefix(single: seq<Op>, even: seq<Op>, odd: seq<Op>, l: nat, layers: nat)
    requires l <= layers
    ensures |Layers(single, even, odd, l)| <= |Layers(single, even, odd, layers)|
    ensures Layers(single, even, odd, layers)[..|Layers(single, even, odd, l)|] == Layers(single, even, odd, l)
    decreases layers - l
  {
    if l < layers {
      LayersPrefix(single, even, odd, l, layers - 1);
      LayersStep(single, even, odd, layers);
      var a, b := Layers(single, even, odd, l), Layers(single, even, odd, layers - 1);
      var c := Layers(single, even, odd, layers);
      assert c[..|b|] == b;
      assert c[..|a|] == b[..|a|];
    }
  }

  /** Layer l occupies its own stretch of the output: the single-qubit block, then the pairs of its parity. */
  lemma LayerBlock(single: seq<Op>, even: seq<Op>, odd: seq<Op>, l: nat, layers: nat)
    requires l < layers
    ensures |Layers(single, even, odd, l)| <= |Layers(single, even, odd, l + 1)| <= |Layers(single, even, odd, layers)|
    ensures Layers(single, even, odd, layers)[|Layers(single, even, odd, l)|..|Layers(single, even, odd, l + 1)|]
            == single + Pick(even, odd, l)
  {
    LayersPrefix(single, even, odd, l + 1, layers);
    var a, b := Layers(single, even, odd, l), Layers(single, even, odd, l + 1);
    var c := Layers(single, even, odd, layers);
    assert c[|a|..|b|] == b[|a|..];
  }

  /** Every layer starts with the same single-qubit block: the schedule is read once and replayed. */
  lemma LayersRepeat(single: seq<Op>, even: seq<Op>, odd: seq<Op>, l: nat, layers: nat)
    requires l < layers
    ensures |Layers(single, even, odd, l)| + |single| <= |Layers(single, even, odd, layers)|
    ensures Layers(single, even, odd, layers)[|Layers(single, even, odd, l)|..|Layers(single, even, odd, l)| + |single|]
            == single
  {
    LayerBlock(single, even, odd, l, layers);
    SliceHead(Layers(single, even, odd, layers), |Layers(single, even, odd, l)|, |Layers(single, even, odd, l + 1)|,
              single, Pick(even, odd, l));
  }

  /** A stretch that holds x then y begins with x. */
  lemma SliceHead<T>(c: seq<T>, a: nat, b: nat, x: seq<T>, y: seq<T>)
    requires a <= b <= |c| && c[a..b] == x + y
    ensures a + |x| <= |c| && c[a..a + |x|] == x
  {
    assert c[a..a + |x|] == c[a..b][..|x|];
    assert (x + y)[..|x|] == x;
  }

  /** Every op of the output comes from one of the three blocks. */
  lemma {:induction false} LayersMembers(single: seq<Op>, even: seq<Op>, odd: seq<Op>, layers: nat)
    ensures forall op :: op in Layers(single, even, odd, layers) ==> op in single || op in even || op in odd
  {
    if layers > 0 {
      LayersMembers(single, even, odd, layers - 1);
      LayersStep(single, even, odd, layers);
    }
  }

  /** `qc.h(range(n))` followed by `qc.cx(i, i + 1)` for i in range(p, n - 1, 2), by layer parity. */
  function HBrickwork(n: nat, layers: nat): seq<Op>
  {
    Layers(HRange(0, n), CXOps(StaggeredPairs(0, n - 1)), CXOps(StaggeredPairs(1, n - 1)), layers)
  }

  lemma StaggeredCXInRange(start: nat, n: nat)
    ensures AllInRange(CXOps(StaggeredPairs(start, n - 1)), n)
  {
    StaggeredPairsInRange(start, n - 1, n);
  }

  /**
   * The H/CX brickwork on n qubits: n H gates per layer, StepCount(0, n - 1) CX on even
   * layers and StepCount(1, n - 1) on odd layers, nothing else.
   */
  lemma HBrickworkCount(n: nat, layers: nat, k: Kind)
    ensures Count(HBrickwork(n, layers), k) ==
              if k == HGate then layers * n
              else if k == CXGate then ((layers + 1) / 2) * StepCount(0, n - 1) + (layers / 2) * StepCount(1, n - 1)
              else 0
  {
    CountHRange(0, n, k);
    CountCXOps(StaggeredPairs(0, n - 1), k);
    CountCXOps(StaggeredPairs(1, n - 1), k);
    LayersCount(HRange(0, n), CXOps(StaggeredPairs(0, n - 1)), CXOps(StaggeredPairs(1, n - 1)), layers, k);
  }

  lemma HBrickworkLength(n: nat, layers: nat)
    ensures |HBrickwork(n, layers)| ==
              layers * n + ((layers + 1) / 2) * StepCount(0, n - 1) + (layers / 2) * StepCount(1, n - 1)
  {
    LayersLength(HRange(0, n), CXOps(StaggeredPairs(0, n - 1)), CXOps(StaggeredPairs(1, n - 1)), layers);
  }

  /** Every index the brickwork uses is below n. */
  lemma HBrickworkInRange(n: nat, layers: nat)
    ensures AllInRange(HBrickwork(n, layers), n)
  {
    StaggeredCXInRange(0, n);
    StaggeredCXInRange(1, n);
    LayersInRange(HRange(0, n), CXOps(StaggeredPairs(0, n - 1)), CXOps(StaggeredPairs(1, n - 1)), layers, n);
  }

  /** The measure step some generators end with. */
  function MeasureSuffix(n: nat, measure: bool): seq<Op>
  {
    if measure then [MeasureAll(n)] else []
  }

  /** `qc.h(range(n))`: one H per qubit, in index order. */
  method ApplyHAll(qc: Circuit)
    requires qc.Valid()
    modifies qc
    ensures qc.Valid() && qc.ops == old(qc.ops) + HRange(0, qc.n)
  {
    var q := 0;
    while q < qc.n
      invariant 0 <= q <= qc.n
      invariant qc.Valid() && qc.ops == old(qc.ops) + HRange(0, q)
    {
      assert HRange(0, q + 1) == HRange(0, q) + [H(q)];
      qc.Append(H(q));
      q := q + 1;
    }
  }

  /** `for i in range(start, n - 1, 2): qc.cx(i, i + 1)` */
  method ApplyStaggered(qc: Circuit, start: nat)
    requires qc.Valid()
    modifies qc
    ensures qc.Valid() && qc.ops == old(qc.ops) + CXOps(StaggeredPairs(start, qc.n - 1))
  {
    var i := start;
    while i < qc.n - 1
      invariant start <= i && (i - start) % 2 == 0
      invariant i <= qc.n || i == start
      invariant qc.Valid() && qc.ops == old(qc.ops) + CXOps(StaggeredPairs(start, i))
      decreases qc.n - i
    {
      StaggeredPairsSnoc(start, i);
      assert CXOps(StaggeredPairs(start, i + 2)) == CXOps(StaggeredPairs(start, i)) + [CX(i, i + 1)];
      qc.Append(CX(i, i + 1));
      i := i + 2;
    }
    StaggeredPairsStop(start, i, qc.n - 1);
  }

  /** `for (q1, q2) in pairs: qc.cx(q1, q2)` */
  method ApplyPairs(qc: Circuit, pairs: seq<(nat, nat)>)
    requires qc.Valid() && PairsInRange(pairs, qc.n)
    modifies qc
    ensures qc.Valid() && qc.ops == old(qc.ops) + CXOps(pairs)
  {
    for k := 0 to |pairs|
      invariant qc.Valid() && qc.ops == old(qc.ops) + CXOps(pairs[..k])
    {
      assert CXOps(pairs[..k + 1]) == CXOps(pairs[..k]) + [CX(pairs[k].0, pairs[k].1)];
      qc.Append(CX(pairs[k].0, pairs[k].1));
    }
    assert pairs[..|pairs|] == pairs;
  }

  /** `for i in range(start, len(pairs), 2): qc.cx(pairs[i][0], pairs[i][1])` */
  method ApplyStride(qc: Circuit, pairs: seq<(nat, nat)>, start: nat)
    requires qc.Valid() && PairsInRange(pairs, qc.n)
    modifies qc
    ensures qc.Valid() && qc.ops == old(qc.ops) + CXOps(Stride(pairs, start))
  {
    var i := start;
    while i < |pairs|
      invariant start <= i
      invariant qc.Valid() && old(qc.ops) + CXOps(Stride(pairs, start)) == qc.ops + CXOps(Stride(pairs, i))
      decreases |pairs| - i
    {
      assert CXOps(Stride(pairs, i)) == [CX(pairs[i].0, pairs[i].1)] + CXOps(Stride(pairs, i + 2));
      qc.Append(CX(pairs[i].0, pairs[i].1));
      i := i + 2;
    }
  }

  /** The call `qc.cx(l[0], l[1])` on a list of pairs: Qiskit receives two pairs of qubits. */
  function BroadcastOp(l: seq<(nat, nat)>): Op
    requires |l| >= 2
  {
    CXBroadcast(2, [l[0].0, l[0].1, l[1].0, l[1].1])
  }

  /** Every selected element is a list of at least two pairs of qubits below n. */
  predicate ListsFit(lists: seq<seq<(nat, nat)>>, n: nat)
  {
    forall i :: 0 <= i < |lists| ==> |lists[i]| >= 2 && PairsInRange(lists[i], n)
  }

  /** `[cx(lists[i][0], lists[i][1]) for i in range(start, len(lists), 2)]` */
  function StrideBroadcast(lists: seq<seq<(nat, nat)>>, start: nat): (r: seq<Op>)
    requires forall i :: 0 <= i < |lists| ==> |lists[i]| >= 2
    decreases |lists| - start
  {
    if |lists| <= start then [] else [BroadcastOp(lists[start])] + StrideBroadcast(lists, start + 2)
  }

  /** One broadcast call per selected list: StepCount(start, |lists|) calls, call k on list start + 2k. */
  lemma {:induction false} StrideBroadcastAt(lists: seq<seq<(nat, nat)>>, start: nat, n: nat)
    requires ListsFit(lists, n)
    ensures |StrideBroadcast(lists, start)| == StepCount(start, |lists|)
    ensures forall k :: 0 <= k < |StrideBroadcast(lists, start)| ==>
              StrideBroadcast(lists, start)[k] == BroadcastOp(lists[start + 2 * k])
    ensures AllInRange(StrideBroadcast(lists, start), n)
    decreases |lists| - start
  {
    if start < |lists| {
      StrideBroadcastAt(lists, start + 2, n);
      var r := StrideBroadcast(lists, start);
      forall k | 0 < k < |r|
        ensures r[k] == BroadcastOp(lists[start + 2 * k])
      {
        assert r[k] == StrideBroadcast(lists, start + 2)[k - 1];
      }
      assert InRange(r[0], n);
    }
  }

  /** `for i in range(start, len(lists), 2): qc.cx(lists[i][0], lists[i][1])` with lists of pairs. */
  method ApplyStrideBroadcast(qc: Circuit, lists: seq<seq<(nat, nat)>>, start: nat)
    requires qc.Valid() && ListsFit(lists, qc.n)
    modifies qc
    ensures qc.Valid() && qc.ops == old(qc.ops) + StrideBroadcast(lists, start)
  {
    var i := start;
    while i < |lists|
      invariant start <= i
      invariant qc.Valid() && old(qc.ops) + StrideBroadcast(lists, start) == qc.ops + StrideBroadcast(lists, i)
      decreases |lists| - i
    {
      assert InRange(BroadcastOp(lists[i]), qc.n);
      qc.Append(BroadcastOp(lists[i]));
      i := i + 2;
    }
  }

  /**
   * The schedule loop: each entry goes through the if/elif chain and appends its
   * gate. An entry Python or Qiskit rejects raises, which ends the generator.
   */
  method ApplySchedule(qc: Circuit, entries: seq<Entry>, order: FieldOrder) returns (ok: bool)
    requires qc.Valid()
    modifies qc
    ensures qc.Valid()
    ensures ok <==> DecodeSchedule(entries, order, qc.n).Success?
    ensures ok ==> qc.ops == old(qc.ops) + DecodeSchedule(entries, order, qc.n).value
  {
    for k := 0 to |entries|
      invariant qc.Valid()
      invariant DecodeSchedule(entries[..k], order, qc.n).Success?
      invariant qc.ops == old(qc.ops) + DecodeSchedule(entries[..k], order, qc.n).value
    {
      var r := DecodeEntry(entries[k], order, qc.n);
      DecodePrefixStep(entries, k, order, qc.n);
      if r.Failure? {
        FailurePropagates(entries[..k + 1], entries[k + 1..], order, qc.n);
        assert entries[..k + 1] + entries[k + 1..] == entries;
        return false;
      }
      ghost var done := DecodeSchedule(entries[..k], order, qc.n).value;
      if r.value != [] {
        assert r.value == [r.value[0]];
        qc.Append(r.value[0]);
        SeqAssoc(old(qc.ops), done, r.value);
      } else {
        assert done + r.value == done;
      }
    }
    assert entries[..|entries|] == entries;
    return true;
  }

  /**
   * `generate_brickwork_circuit(n, L)` of sixty-part4.py, sixty-part6.py, sixty-part7.py
   * and the fixed-size generators of sixty-part9.py and five-partion2.py.
   */
  method GenerateHBrickwork(n: nat, layers: nat, measure: bool) returns (qc: Circuit)
    ensures fresh(qc) && qc.Valid() && qc.n == n
    ensures qc.ops == HBrickwork(n, layers) + MeasureSuffix(n, measure)
  {
    qc := new Circuit(n);
    var s, e, o := HRange(0, n), CXOps(StaggeredPairs(0, n - 1)), CXOps(StaggeredPairs(1, n - 1));
    for layer := 0 to layers
      invariant qc.Valid() && qc.n == n
      invariant qc.ops == Layers(s, e, o, layer)
    {
      ApplyHAll(qc);
      if layer % 2 == 0 {
        ApplyStaggered(qc, 0);
      } else {
        ApplyStaggered(qc, 1);
      }
      LayersStep(s, e, o, layer + 1);
    }
    if measure {
      qc.MeasureAllQubits();
    }
  }

  /**
   * The schedule-driven generators: per layer the decoded schedule, then `even` or `odd`
   * by parity, then optionally one measure step. With no layers nothing is decoded.
   */
  method GenerateScheduled(n: nat, layers: nat, entries: seq<Entry>, order: FieldOrder,
                           even: seq<(nat, nat)>, odd: seq<(nat, nat)>, measure: bool)
    returns (qc: Circuit, ok: bool)
    requires PairsInRange(even, n) && PairsInRange(odd, n)
    ensures fresh(qc) && qc.Valid() && qc.n == n
    ensures ok <==> layers == 0 || DecodeSchedule(entries, order, n).Success?
    ensures ok && layers == 0 ==> qc.ops == MeasureSuffix(n, measure)
    ensures DecodeSchedule(entries, order, n).Success? ==>
              qc.ops == Layers(DecodeSchedule(entries, order, n).value, CXOps(even), CXOps(odd), layers)
                        + MeasureSuffix(n, measure)
  {
    qc := new Circuit(n);
    var decoded := DecodeSchedule(entries, order, n);
    for layer := 0 to layers
      invariant qc.Valid() && qc.n == n
      invariant layer > 0 ==> decoded.Success?
      invariant layer == 0 ==> qc.ops == []
      invariant decoded.Success? ==> qc.ops == Layers(decoded.value, CXOps(even), CXOps(odd), layer)
    {
      ok := ApplySchedule(qc, entries, order);
      if !ok {
        return qc, false;
      }
      if layer % 2 == 0 {
        ApplyPairs(qc, even);
      } else {
        ApplyPairs(qc, odd);
      }
      LayersStep(decoded.value, CXOps(even), CXOps(odd), layer + 1);
    }
    if measure {
      qc.MeasureAllQubits();
    }
    ok := true;
  }

  /** The flat pair list variant: even layers take pairs 0, 2, ..., odd layers pairs 1, 3, ... */
  method GenerateStrided(n: nat, layers: nat, entries: seq<Entry>, order: FieldOrder,
                         pairs: seq<(nat, nat)>, measure: bool)
    returns (qc: Circuit, ok: bool)
    requires PairsInRange(pairs, n)
    ensures fresh(qc) && qc.Valid() && qc.n == n
    ensures ok <==> layers == 0 || DecodeSchedule(entries, order, n).Success?
    ensures ok && layers == 0 ==> qc.ops == MeasureSuffix(n, measure)
    ensures DecodeSchedule(entries, order, n).Success? ==>
              qc.ops == Layers(DecodeSchedule(entries, order, n).value,
                               CXOps(Stride(pairs, 0)), CXOps(Stride(pairs, 1)), layers)
                        + MeasureSuffix(n, measure)
  {
    qc := new Circuit(n);
    var decoded := DecodeSchedule(entries, order, n);
    for layer := 0 to layers
      invariant qc.Valid() && qc.n == n
      invariant layer > 0 ==> decoded.Success?
      invariant layer == 0 ==> qc.ops == []
      invariant decoded.Success? ==>
        qc.ops == Layers(decoded.value, CXOps(Stride(pairs, 0)), CXOps(Stride(pairs, 1)), layer)
    {
      ok := ApplySchedule(qc, entries, order);
      if !ok {
        return qc, false;
      }
      if layer % 2 == 0 {
        ApplyStride(qc, pairs, 0);
      } else {
        ApplyStride(qc, pairs, 1);
      }
      LayersStep(decoded.value, CXOps(Stride(pairs, 0)), CXOps(Stride(pairs, 1)), layer + 1);
    }
    if measure {
      qc.MeasureAllQubits();
    }
    ok := true;
  }

  /** The same stride loops over a list of pair lists, so each call receives two whole pairs. */
  method GenerateStridedBroadcast(n: nat, layers: nat, entries: seq<Entry>, order: FieldOrder,
                                  lists: seq<seq<(nat, nat)>>, measure: bool)
    returns (qc: Circuit, ok: bool)
    requires ListsFit(lists, n)
    ensures fresh(qc) && qc.Valid() && qc.n == n
    ensures ok <==> layers == 0 || DecodeSchedule(entries, order, n).Success?
    ensures ok && layers == 0 ==> qc.ops == MeasureSuffix(n, measure)
    ensures DecodeSchedule(entries, order, n).Success? ==>
              qc.ops == Layers(DecodeSchedule(entries, order, n).value,
                               StrideBroadcast(lists, 0), StrideBroadcast(lists, 1), layers)
                        + MeasureSuffix(n, measure)
  {
    qc := new Circuit(n);
    var decoded := DecodeSchedule(entries, order, n);
    for layer := 0 to layers
      invariant qc.Valid() && qc.n == n
      invariant layer > 0 ==> decoded.Success?
      invariant layer == 0 ==> qc.ops == []
      invariant decoded.Success? ==>
        qc.ops == Layers(decoded.value, StrideBroadcast(lists, 0), StrideBroadcast(lists, 1), layer)
    {
      ok := ApplySchedule(qc, entries, order);
      if !ok {
        return qc, false;
      }
      if layer % 2 == 0 {
        ApplyStrideBroadcast(qc, lists, 0);
      } else {
        ApplyStrideBroadcast(qc, lists, 1);
      }
      LayersStep(decoded.value, StrideBroadcast(lists, 0), StrideBroadcast(lists, 1), layer + 1);
    }
    if measure {
      qc.MeasureAllQubits();
    }
    ok := true;
  }
}
