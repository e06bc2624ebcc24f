/**
 * The partition scripts: the circuits they cut, and what each cut keeps.
 *
 * The general facts are stated for a circuit of 2m qubits cut into [0, m) and [m, 2m);
 * the scripts use m = 30.
 *
 * Lemmas about a script's fixed sizes take those sizes as parameters fixed by `requires`
 * rather than as literals: on literal arguments the solver unfolds the recursive
 * definitions (Layers, Count) step by step, which costs far more than the proof itself.
 */
module PartitionScripts {
  import opened Wrappers
  import opened Circuits
  import opened Pairs
  import opened Brickwork
  import opened Partition
  import BrickworkInstances

  // ---------------------------------------------------------------- cutting blocks of gates

  lemma {:induction false} HRangeSplit(lo: nat, mid: nat, hi: nat)
    requires lo <= mid <= hi
    ensures HRange(lo, hi) == HRange(lo, mid) + HRange(mid, hi)
  {
  }

  lemma {:induction false} CXOpsAppend(a: seq<(nat, nat)>, b: seq<(nat, nat)>)
    ensures CXOps(a + b) == CXOps(a) + CXOps(b)
  {
  }

  /** H gates on qubits inside [start, end) are all kept and moved down by start. */
  lemma {:induction false} RestrictHInside(lo: nat, hi: nat, start: nat, end: nat, lo0: nat, hi0: nat)
    requires start <= lo <= hi <= end && lo0 + start == lo && hi0 + start == hi
    ensures Restrict(HRange(lo, hi), ByRange(start, end)) == HRange(lo0, hi0)
  {
    var ops, sel := HRange(lo, hi), ByRange(start, end);
    forall k | 0 <= k < |ops| ensures Project(sel, ops[k]) == Some(H(lo0 + k)) {
      assert Qubits(ops[k]) == [lo + k];
    }
    RestrictAllKept(ops, sel);
  }

  /** H gates on qubits outside [start, end) are all dropped. */
  lemma {:induction false} RestrictHOutside(lo: nat, hi: nat, start: nat, end: nat)
    requires hi <= start || end <= lo
    ensures Restrict(HRange(lo, hi), ByRange(start, end)) == []
  {
    var ops, sel := HRange(lo, hi), ByRange(start, end);
    forall k | 0 <= k < |ops| ensures Project(sel, ops[k]).None? {
      assert Qubits(ops[k])[0] == lo + k;
    }
    RestrictAllDropped(ops, sel);
  }

  /** Staggered pairs lying inside [start, end) are all kept, moved down by start to start from s0. */
  lemma {:induction false} RestrictStaggeredInside(s: nat, t: int, start: nat, end: nat, s0: nat, t0: int)
    requires start <= s && t < end && s0 + start == s && t0 + start == t
    ensures Restrict(CXOps(StaggeredPairs(s, t)), ByRange(start, end)) == CXOps(StaggeredPairs(s0, t0))
  {
    var ops, sel := CXOps(StaggeredPairs(s, t)), ByRange(start, end);
    var low := CXOps(StaggeredPairs(s0, t0));
    assert StepCount(s, t) == StepCount(s0, t0);
    forall k | 0 <= k < |ops| ensures Project(sel, ops[k]) == Some(low[k]) {
      assert ops[k] == CX(s + 2 * k, s + 2 * k + 1);
      assert Qubits(ops[k]) == [s + 2 * k, s + 2 * k + 1];
    }
    RestrictAllKept(ops, sel);
  }

  /** Staggered pairs lying wholly below start, or wholly at or above end, are all dropped. */
  lemma {:induction false} RestrictStaggeredOutside(s: nat, t: int, start: nat, end: nat)
    requires t <= start || end <= s
    ensures Restrict(CXOps(StaggeredPairs(s, t)), ByRange(start, end)) == []
  {
    var ops, sel := CXOps(StaggeredPairs(s, t)), ByRange(start, end);
    forall k | 0 <= k < |ops| ensures Project(sel, ops[k]).None? {
      assert Qubits(ops[k])[0] == s + 2 * k;
    }
    RestrictAllDropped(ops, sel);
  }

  /** A measure step over n > 0 qubits is dropped by any range that misses one of them. */
  lemma {:induction false} MeasureAllDropped(n: nat, start: nat, end: nat)
    requires n > 0 && (0 < start || end < n)
    ensures Restrict([MeasureAll(n)], ByRange(start, end)) == []
  {
    var qs := Qubits(MeasureAll(n));
    if 0 < start {
      assert !MapQubit(ByRange(start, end), qs[0]).Some?;
    } else {
      assert !MapQubit(ByRange(start, end), qs[n - 1]).Some?;
    }
    RestrictAllDropped([MeasureAll(n)], ByRange(start, end));
  }

  /** Per-qubit measurements inside [start, end) are all kept and moved down by start. */
  lemma {:induction false} MeasureEachInside(lo: nat, hi: nat, start: nat, end: nat, lo0: nat, hi0: nat)
    requires start <= lo <= hi <= end && lo0 + start == lo && hi0 + start == hi
    ensures Restrict(MeasureEach(lo, hi), ByRange(start, end)) == MeasureEach(lo0, hi0)
  {
    var ops, sel := MeasureEach(lo, hi), ByRange(start, end);
    forall k | 0 <= k < |ops| ensures Project(sel, ops[k]) == Some(Measure([lo0 + k])) {
      assert Qubits(ops[k]) == [lo + k];
      assert MapQubits(sel, [lo + k]) == [lo0 + k];
    }
    RestrictAllKept(ops, sel);
  }

  /** Per-qubit measurements outside [start, end) are all dropped. */
  lemma {:induction false} MeasureEachOutside(lo: nat, hi: nat, start: nat, end: nat)
    requires hi <= start || end <= lo
    ensures Restrict(MeasureEach(lo, hi), ByRange(start, end)) == []
  {
    var ops, sel := MeasureEach(lo, hi), ByRange(start, end);
    forall k | 0 <= k < |ops| ensures Project(sel, ops[k]).None? {
      assert Qubits(ops[k])[0] == lo + k;
    }
    RestrictAllDropped(ops, sel);
  }

  /**
   * Where the marker is dropped whole (MeasureAllDropped), the per-qubit measurements
   * `measure_all()` stands for are not: a cut to [start, end) keeps the measurements of its
   * own qubits, moved down by start, with no classical bit to write to.
   */
  lemma {:induction false} MeasureEachKept(n: nat, start: nat, end: nat)
    requires start <= end <= n
    ensures Restrict(MeasureEach(0, n), ByRange(start, end)) == MeasureEach(0, end - start)
  {
    var sel := ByRange(start, end);
    var a, b, c := MeasureEach(0, start), MeasureEach(start, end), MeasureEach(end, n);
    assert MeasureEach(0, n) == a + b + c;
    RestrictAppend3(a, b, c, sel);
    MeasureEachOutside(0, start, start, end);
    MeasureEachInside(start, end, start, end, 0, end - start);
    MeasureEachOutside(end, n, start, end);
  }

  lemma {:induction false} RestrictAppend3(a: seq<Op>, b: seq<Op>, c: seq<Op>, sel: Selector)
    ensures Restrict(a + b + c, sel) == Restrict(a, sel) + Restrict(b, sel) + Restrict(c, sel)
  {
    RestrictAppend(a + b, c, sel);
    RestrictAppend(a, b, sel);
  }

  /**
   * Cutting distributes over the layers: when the cut turns the three blocks into rs, re
   * and ro, it turns the layered circuit into the same layering of rs, re and ro.
   */
  lemma {:induction false} RestrictLayers(single: seq<Op>, even: seq<Op>, odd: seq<Op>,
                                          rs: seq<Op>, re: seq<Op>, ro: seq<Op>, layers: nat, sel: Selector)
    requires Restrict(single, sel) == rs && Restrict(even, sel) == re && Restrict(odd, sel) == ro
    ensures Restrict(Layers(single, even, odd, layers), sel) == Layers(rs, re, ro, layers)
    decreases layers
  {
    if layers > 0 {
      RestrictLayers(single, even, odd, rs, re, ro, layers - 1, sel);
      RestrictLayerStep(single, even, odd, rs, re, ro, layers, sel);
    }
  }

  /** The step of the lemma above: the cut of one more layer is one more layer of the cut blocks. */
  lemma RestrictLayerStep(single: seq<Op>, even: seq<Op>, odd: seq<Op>,
                          rs: seq<Op>, re: seq<Op>, ro: seq<Op>, layers: nat, sel: Selector)
    requires layers > 0
    requires Restrict(single, sel) == rs && Restrict(even, sel) == re && Restrict(odd, sel) == ro
    requires Restrict(Layers(single, even, odd, layers - 1), sel) == Layers(rs, re, ro, layers - 1)
    ensures Restrict(Layers(single, even, odd, layers), sel) == Layers(rs, re, ro, layers)
  {
    RestrictPick(even, odd, re, ro, layers - 1, sel);
    LayersStep(single, even, odd, layers);
    LayersStep(rs, re, ro, layers);
    RestrictJoin3(Layers(single, even, odd, layers - 1), single, Pick(even, odd, layers - 1), sel,
                  Layers(rs, re, ro, layers - 1), rs, Pick(re, ro, layers - 1));
  }

  lemma RestrictPick(even: seq<Op>, odd: seq<Op>, re: seq<Op>, ro: seq<Op>, l: nat, sel: Selector)
    requires Restrict(even, sel) == re && Restrict(odd, sel) == ro
    ensures Restrict(Pick(even, odd, l), sel) == Pick(re, ro, l)
  {
  }

  // ---------------------------------------------------------------- the brickwork cut in half

  /** Even-layer pairs of 2m qubits (m even): the pairs of [0, m), then those of [m, 2m). */
  lemma {:induction false} EvenPairsHalves(m: nat)
    requires m > 0 && m % 2 == 0
    ensures StaggeredPairs(0, 2 * m - 1) == StaggeredPairs(0, m - 1) + StaggeredPairs(m, 2 * m - 1)
  {
    StaggeredPairsSplit(0, m, 2 * m - 1);
    StaggeredPairsStop(0, m, m - 1);
  }

  /** Odd-layer pairs of 2m qubits (m even): the pairs of [0, m), the pair (m - 1, m), then those of [m, 2m). */
  lemma {:induction false} OddPairsHalves(m: nat)
    requires m > 0 && m % 2 == 0
    ensures StaggeredPairs(1, 2 * m - 1) == StaggeredPairs(1, m - 1) + [(m - 1, m)] + StaggeredPairs(m + 1, 2 * m - 1)
  {
    StaggeredPairsSplit(1, m - 1, 2 * m - 1);
  }

  /** Cutting a concatenation whose two parts are known to cut to ra and rb. */
  lemma {:induction false} RestrictJoin(a: seq<Op>, b: seq<Op>, sel: Selector, ra: seq<Op>, rb: seq<Op>)
    requires Restrict(a, sel) == ra && Restrict(b, sel) == rb
    ensures Restrict(a + b, sel) == ra + rb
  {
    RestrictAppend(a, b, sel);
  }

  lemma {:induction false} HalfHLow(m: nat)
    ensures Restrict(HRange(0, 2 * m), ByRange(0, m)) == HRange(0, m)
  {
    var lo, hi := HRange(0, m), HRange(m, 2 * m);
    HRangeSplit(0, m, 2 * m);
    RestrictHInside(0, m, 0, m, 0, m);
    RestrictHOutside(m, 2 * m, 0, m);
    RestrictJoin(lo, hi, ByRange(0, m), lo, []);
    assert lo + [] == lo;
  }

  lemma {:induction false} HalfHHigh(m: nat)
    ensures Restrict(HRange(0, 2 * m), ByRange(m, 2 * m)) == HRange(0, m)
  {
    var lo, hi := HRange(0, m), HRange(m, 2 * m);
    HRangeSplit(0, m, 2 * m);
    RestrictHOutside(0, m, m, 2 * m);
    RestrictHInside(m, 2 * m, m, 2 * m, 0, m);
    RestrictJoin(lo, hi, ByRange(m, 2 * m), [], lo);
    assert [] + lo == lo;
  }

  /** On even layers no pair crosses the middle (m even): the lower half keeps its own pairs... */
  lemma {:induction false} HalfEvenLow(m: nat)
    requires m > 0 && m % 2 == 0
    ensures Restrict(CXOps(StaggeredPairs(0, 2 * m - 1)), ByRange(0, m)) == CXOps(StaggeredPairs(0, m - 1))
  {
    var lo, hi, sel := CXOps(StaggeredPairs(0, m - 1)), CXOps(StaggeredPairs(m, 2 * m - 1)), ByRange(0, m);
    EvenBlockHalves(m);
    LowPairsKept(0, m);
    HighPairsDropped(m, m);
    RestrictJoin(lo, hi, sel, lo, []);
    assert lo + [] == lo;
  }

  /** ... and the upper half keeps its own, moved down by m. */
  lemma {:induction false} HalfEvenHigh(m: nat)
    requires m > 0 && m % 2 == 0
    ensures Restrict(CXOps(StaggeredPairs(0, 2 * m - 1)), ByRange(m, 2 * m)) == CXOps(StaggeredPairs(0, m - 1))
  {
    var lo, hi := CXOps(StaggeredPairs(0, m - 1)), CXOps(StaggeredPairs(m, 2 * m - 1));
    EvenBlockHalves(m);
    RestrictStaggeredOutside(0, m - 1, m, 2 * m);
    RestrictStaggeredInside(m, 2 * m - 1, m, 2 * m, 0, m - 1);
    RestrictJoin(lo, hi, ByRange(m, 2 * m), [], lo);
    assert [] + lo == lo;
  }

  lemma {:induction false} LowPairsKept(s: nat, m: nat)
    ensures Restrict(CXOps(StaggeredPairs(s, m - 1)), ByRange(0, m)) == CXOps(StaggeredPairs(s, m - 1))
  {
    RestrictStaggeredInside(s, m - 1, 0, m, s, m - 1);
  }

  lemma {:induction false} HighPairsDropped(s: nat, m: nat)
    requires m <= s
    ensures Restrict(CXOps(StaggeredPairs(s, 2 * m - 1)), ByRange(0, m)) == []
  {
    RestrictStaggeredOutside(s, 2 * m - 1, 0, m);
  }

  lemma {:induction false} EvenBlockHalves(m: nat)
    requires m > 0 && m % 2 == 0
    ensures CXOps(StaggeredPairs(0, 2 * m - 1)) == CXOps(StaggeredPairs(0, m - 1)) + CXOps(StaggeredPairs(m, 2 * m - 1))
  {
    EvenPairsHalves(m);
    CXOpsAppend(StaggeredPairs(0, m - 1), StaggeredPairs(m, 2 * m - 1));
  }

  lemma {:induction false} OddBlockHalves(m: nat)
    requires m > 0 && m % 2 == 0
    ensures CXOps(StaggeredPairs(1, 2 * m - 1)) ==
              CXOps(StaggeredPairs(1, m - 1)) + CXOps([(m - 1, m)]) + CXOps(StaggeredPairs(m + 1, 2 * m - 1))
  {
    var lowPairs, highPairs := StaggeredPairs(1, m - 1), StaggeredPairs(m + 1, 2 * m - 1);
    OddPairsHalves(m);
    CXOpsAppend(lowPairs + [(m - 1, m)], highPairs);
    CXOpsAppend(lowPairs, [(m - 1, m)]);
  }

  /** The single crossing pair of an odd layer. */
  lemma {:induction false} CrossingDropped(m: nat)
    requires m > 0
    ensures Restrict(CXOps([(m - 1, m)]), ByRange(0, m)) == []
    ensures Restrict(CXOps([(m - 1, m)]), ByRange(m, 2 * m)) == []
  {
    var crossing := CXOps([(m - 1, m)]);
    assert crossing == [CX(m - 1, m)];
    assert !MapQubit(ByRange(0, m), Qubits(crossing[0])[1]).Some?;
    assert !MapQubit(ByRange(m, 2 * m), Qubits(crossing[0])[0]).Some?;
    RestrictAllDropped(crossing, ByRange(0, m));
    RestrictAllDropped(crossing, ByRange(m, 2 * m));
  }

  /** On odd layers the one crossing pair (m - 1, m) is dropped: the lower half keeps its own pairs... */
  lemma {:induction false} HalfOddLow(m: nat)
    requires m > 0 && m % 2 == 0
    ensures Restrict(CXOps(StaggeredPairs(1, 2 * m - 1)), ByRange(0, m)) == CXOps(StaggeredPairs(1, m - 1))
  {
    var lo, cr, hi := CXOps(StaggeredPairs(1, m - 1)), CXOps([(m - 1, m)]), CXOps(StaggeredPairs(m + 1, 2 * m - 1));
    var sel := ByRange(0, m);
    OddBlockHalves(m);
    CrossingDropped(m);
    LowPairsKept(1, m);
    HighPairsDropped(m + 1, m);
    RestrictJoin3(lo, cr, hi, sel, lo, [], []);
    assert lo + [] + [] == lo;
  }

  /** ... and the upper half keeps its own, moved down by m. */
  lemma {:induction false} HalfOddHigh(m: nat)
    requires m > 0 && m % 2 == 0
    ensures Restrict(CXOps(StaggeredPairs(1, 2 * m - 1)), ByRange(m, 2 * m)) == CXOps(StaggeredPairs(1, m - 1))
  {
    var lo, cr, hi := CXOps(StaggeredPairs(1, m - 1)), CXOps([(m - 1, m)]), CXOps(StaggeredPairs(m + 1, 2 * m - 1));
    OddBlockHalves(m);
    CrossingDropped(m);
    RestrictStaggeredOutside(1, m - 1, m, 2 * m);
    RestrictStaggeredInside(m + 1, 2 * m - 1, m, 2 * m, 1, m - 1);
    RestrictJoin3(lo, cr, hi, ByRange(m, 2 * m), [], [], lo);
    assert [] + [] + lo == lo;
  }

  lemma {:induction false} RestrictJoin3(a: seq<Op>, b: seq<Op>, c: seq<Op>, sel: Selector, ra: seq<Op>, rb: seq<Op>, rc: seq<Op>)
    requires Restrict(a, sel) == ra && Restrict(b, sel) == rb && Restrict(c, sel) == rc
    ensures Restrict(a + b + c, sel) == ra + rb + rc
  {
    RestrictAppend3(a, b, c, sel);
  }

  /**
   * Cutting the H/CX brickwork of 2m qubits (m even) at the middle gives the brickwork of
   * m qubits on both sides: every H survives, and the only gates lost are the one crossing
   * pair (m - 1, m) of each odd layer.
   */
  lemma {:induction false} BrickworkHalves(m: nat, layers: nat)
    requires m > 0 && m % 2 == 0
    ensures Restrict(HBrickwork(2 * m, layers), ByRange(0, m)) == HBrickwork(m, layers)
    ensures Restrict(HBrickwork(2 * m, layers), ByRange(m, 2 * m)) == HBrickwork(m, layers)
  {
    var s, e, o := HRange(0, 2 * m), CXOps(StaggeredPairs(0, 2 * m - 1)), CXOps(StaggeredPairs(1, 2 * m - 1));
    var rs, re, ro := HRange(0, m), CXOps(StaggeredPairs(0, m - 1)), CXOps(StaggeredPairs(1, m - 1));
    HalfHLow(m);
    HalfHHigh(m);
    HalfEvenLow(m);
    HalfEvenHigh(m);
    HalfOddLow(m);
    HalfOddHigh(m);
    RestrictLayers(s, e, o, rs, re, ro, layers, ByRange(0, m));
    RestrictLayers(s, e, o, rs, re, ro, layers, ByRange(m, 2 * m));
  }

  /** With the measure step: it touches both halves, so neither half keeps it. */
  lemma {:induction false} MeasuredBrickworkHalves(m: nat, layers: nat)
    requires m > 0 && m % 2 == 0
    ensures Restrict(HBrickwork(2 * m, layers) + [MeasureAll(2 * m)], ByRange(0, m)) == HBrickwork(m, layers)
    ensures Restrict(HBrickwork(2 * m, layers) + [MeasureAll(2 * m)], ByRange(m, 2 * m)) == HBrickwork(m, layers)
  {
    var ops := HBrickwork(2 * m, layers);
    BrickworkHalves(m, layers);
    RestrictAppend(ops, [MeasureAll(2 * m)], ByRange(0, m));
    RestrictAppend(ops, [MeasureAll(2 * m)], ByRange(m, 2 * m));
    MeasureAllDropped(2 * m, 0, m);
    MeasureAllDropped(2 * m, m, 2 * m);
    assert HBrickwork(m, layers) + [] == HBrickwork(m, layers);
  }

  /**
   * The halves of generate_brickwork_circuit(60, 5) keep 150 H and 73 CX each: all 300 H of
   * the parent and 146 of its 148 CX, the two lost being CX(29, 30) of layers 1 and 3.
   */
  lemma {:induction false} SixtyHalvesKept(m: nat, layers: nat)
    requires m == 30 && layers == 5
    ensures Count(HBrickwork(m, layers), HGate) == 150 && Count(HBrickwork(m, layers), CXGate) == 73
    ensures 2 * Count(HBrickwork(m, layers), HGate) == Count(HBrickwork(2 * m, layers), HGate)
    ensures 2 * Count(HBrickwork(m, layers), CXGate) + 2 == Count(HBrickwork(2 * m, layers), CXGate)
  {
    ThirtyBrickworkCounts(m, layers);
    BrickworkInstances.SixtyBrickworkShape(2 * m, layers);
  }

  /** generate_brickwork_circuit(30, 5): 150 H, and 3 * 15 + 2 * 14 = 73 CX. */
  lemma {:induction false} ThirtyBrickworkCounts(m: nat, layers: nat)
    requires m == 30 && layers == 5
    ensures Count(HBrickwork(m, layers), HGate) == 150 && Count(HBrickwork(m, layers), CXGate) == 73
  {
    assert StepCount(0, m - 1) == 15 && StepCount(1, m - 1) == 14;
    assert Count(HBrickwork(m, layers), HGate) == 150 by {
      HBrickworkCount(m, layers, HGate);
    }
    assert Count(HBrickwork(m, layers), CXGate) == 73 by {
      HBrickworkCount(m, layers, CXGate);
    }
  }

  /** The module-level code of sixty-part7.py: the 60-qubit brickwork cut into [0, 30) and [30, 60). */
  method SixtyPartSevenSplit() returns (qc1: Circuit, qc2: Circuit)
    ensures qc1.Valid() && qc1.n == 30 && qc1.ops == HBrickwork(30, 5) + [MeasureAll(30)]
    ensures qc2.Valid() && qc2.n == 30 && qc2.ops == HBrickwork(30, 5) + [MeasureAll(30)]
  {
    var original := GenerateHBrickwork(60, 5, true);
    qc1 := ExtractSubcircuit(original, 0, 30);
    qc2 := ExtractSubcircuit(original, 30, 60);
    MeasuredBrickworkHalves(30, 5);
  }

  // ---------------------------------------------------------------- the 60-qubit fixtures

  /** The pairs (k, k + m) for k in range(m): each joins a lower-half qubit to an upper-half one. */
  function BridgePairs(m: nat): (r: seq<(nat, nat)>)
    ensures |r| == m
    ensures forall k :: 0 <= k < m ==> r[k].0 < m <= r[k].1 < 2 * m && r[k].1 - r[k].0 == m
  {
    seq(m, k => (k, k + m))
  }

  /** create_60_qubit_circuit for m = 30: H on the lower half, the bridge, the measure step. */
  function CrossOps(m: nat): seq<Op>
  {
    HRange(0, m) + CXOps(BridgePairs(m)) + [MeasureAll(2 * m)]
  }

  /** generate_and_split_circuit for m = 30: H on both halves, the bridge, the measure step. */
  function DivideOps(m: nat): seq<Op>
  {
    HRange(0, m) + HRange(m, 2 * m) + CXOps(BridgePairs(m)) + [MeasureAll(2 * m)]
  }

  /** `for i in range(lo, hi): qc.h(i)` */
  method ApplyHRange(qc: Circuit, lo: nat, hi: nat)
    requires qc.Valid() && hi <= qc.n
    modifies qc
    ensures qc.Valid() && qc.ops == old(qc.ops) + HRange(lo, hi)
  {
    var i := lo;
    while i < hi
      invariant lo <= i && (i <= hi || i == lo)
      invariant qc.Valid() && qc.ops == old(qc.ops) + HRange(lo, i)
    {
      assert HRange(lo, i + 1) == HRange(lo, i) + [H(i)];
      qc.Append(H(i));
      i := i + 1;
    }
  }

  /** `for i in range(m, 2 * m): qc.cx(i - m, i)`, the loop of create_60_qubit_circuit. */
  method ApplyBridgeDown(qc: Circuit, m: nat)
    requires qc.Valid() && 2 * m <= qc.n
    modifies qc
    ensures qc.Valid() && qc.ops == old(qc.ops) + CXOps(BridgePairs(m))
  {
    var i := m;
    while i < 2 * m
      invariant m <= i <= 2 * m
      invariant qc.Valid() && qc.ops == old(qc.ops) + CXOps(BridgePairs(m)[..i - m])
    {
      assert BridgePairs(m)[..i + 1 - m] == BridgePairs(m)[..i - m] + [(i - m, i)];
      qc.Append(CX(i - m, i));
      i := i + 1;
    }
    assert BridgePairs(m)[..m] == BridgePairs(m);
  }

  /** `for i in range(m): qc.cx(i, i + m)`, the loop of generate_and_split_circuit. */
  method ApplyBridgeUp(qc: Circuit, m: nat)
    requires qc.Valid() && 2 * m <= qc.n
    modifies qc
    ensures qc.Valid() && qc.ops == old(qc.ops) + CXOps(BridgePairs(m))
  {
    var i := 0;
    while i < m
      invariant 0 <= i <= m
      invariant qc.Valid() && qc.ops == old(qc.ops) + CXOps(BridgePairs(m)[..i])
    {
      assert BridgePairs(m)[..i + 1] == BridgePairs(m)[..i] + [(i, i + m)];
      qc.Append(CX(i, i + m));
      i := i + 1;
    }
    assert BridgePairs(m)[..m] == BridgePairs(m);
  }

  /** `create_60_qubit_circuit` of sixty-part12.py, sixty-part13.py, sixty-part14.py and sixty-part15.py. */
  method CreateSixtyQubitCircuit() returns (qc: Circuit)
    ensures fresh(qc) && qc.Valid() && qc.n == 60 && qc.ops == CrossOps(30)
  {
    qc := new Circuit(60);
    ApplyHRange(qc, 0, 30);
    ApplyBridgeDown(qc, 30);
    qc.MeasureAllQubits();
  }

  /** `generate_and_split_circuit` of divide-sixty.py and divide-sixty2.py. */
  method GenerateAndSplitCircuit() returns (qc: Circuit)
    ensures fresh(qc) && qc.Valid() && qc.n == 60 && qc.ops == DivideOps(30)
  {
    qc := new Circuit(60);
    ApplyHRange(qc, 0, 30);
    ApplyHRange(qc, 30, 60);
    ApplyBridgeUp(qc, 30);
    qc.MeasureAllQubits();
  }

  /**
   * The fixture of the sixty-part scripts: m H gates on qubits 0 .. m-1 in order, then the m
   * CX gates CX(k, k + m), each with its control below m and its target at or above m, then
   * the measure step, last.
   */
  lemma {:induction false} CrossOpsShape(m: nat)
    ensures |CrossOps(m)| == 2 * m + 1 && CrossOps(m)[2 * m] == MeasureAll(2 * m)
    ensures forall k :: 0 <= k < m ==> CrossOps(m)[k] == H(k)
    ensures forall k :: 0 <= k < m ==> CrossOps(m)[m + k] == CX(BridgePairs(m)[k].0, BridgePairs(m)[k].1)
    ensures AllInRange(CrossOps(m), 2 * m)
  {
    var ops := CrossOps(m);
    forall k | 0 <= k < |ops| ensures InRange(ops[k], 2 * m) {
      if k < m {
        assert ops[k] == H(k);
      } else if k < 2 * m {
        assert ops[k] == CX(k - m, k);
      }
    }
  }

  // ---------------------------------------------------------------- cutting the fixtures by qubit

  /** No bridge gate lies wholly inside either half. */
  lemma {:induction false} BridgeDropped(m: nat, start: nat, end: nat)
    requires (start == 0 && end == m) || (start == m && end == 2 * m)
    ensures Restrict(CXOps(BridgePairs(m)), ByRange(start, end)) == []
  {
    var ops, sel := CXOps(BridgePairs(m)), ByRange(start, end);
    forall k | 0 <= k < |ops| ensures Project(sel, ops[k]).None? {
      assert ops[k] == CX(k, k + m);
      if start == 0 {
        assert !MapQubit(sel, Qubits(ops[k])[1]).Some?;
      } else {
        assert !MapQubit(sel, Qubits(ops[k])[0]).Some?;
      }
    }
    RestrictAllDropped(ops, sel);
  }

  lemma {:induction false} CrossLow(m: nat)
    requires m > 0
    ensures Restrict(CrossOps(m), ByRange(0, m)) == HRange(0, m)
  {
    var sel := ByRange(0, m);
    RestrictHInside(0, m, 0, m, 0, m);
    BridgeDropped(m, 0, m);
    MeasureAllDropped(2 * m, 0, m);
    RestrictJoin3(HRange(0, m), CXOps(BridgePairs(m)), [MeasureAll(2 * m)], sel, HRange(0, m), [], []);
    assert HRange(0, m) + [] + [] == HRange(0, m);
  }

  lemma {:induction false} CrossHigh(m: nat)
    requires m > 0
    ensures Restrict(CrossOps(m), ByRange(m, 2 * m)) == []
  {
    var sel := ByRange(m, 2 * m);
    RestrictHOutside(0, m, m, 2 * m);
    BridgeDropped(m, m, 2 * m);
    MeasureAllDropped(2 * m, m, 2 * m);
    RestrictJoin3(HRange(0, m), CXOps(BridgePairs(m)), [MeasureAll(2 * m)], sel, [], [], []);
  }

  /**
   * create_sub_circuit on the halves list(range(m)) and list(range(m, 2m)) of the fixture:
   * every CX crosses the halves and is dropped, and so is the parent's measure step; the
   * first sub-circuit receives the m H gates and the second receives no gate.
   */
  lemma {:induction false} SubCircuitsOfCross(m: nat)
    requires m > 0
    ensures Restrict(CrossOps(m), ByMap(IndexMap(Range(0, m)))) == HRange(0, m)
    ensures Restrict(CrossOps(m), ByMap(IndexMap(Range(m, 2 * m)))) == []
  {
    ExtractIsSubCircuit(CrossOps(m), 0, m);
    ExtractIsSubCircuit(CrossOps(m), m, 2 * m);
    CrossLow(m);
    CrossHigh(m);
  }

  /** The module-level code of sixty-part14.py and of sixty-part15.py. */
  method SplitCrossCircuit() returns (qc1: Circuit, qc2: Circuit)
    ensures qc1.Valid() && qc1.n == 30 && qc1.ops == HRange(0, 30) + [MeasureAll(30)]
    ensures qc2.Valid() && qc2.n == 30 && qc2.ops == [MeasureAll(30)]
  {
    var full := CreateSixtyQubitCircuit();
    qc1 := CreateSubCircuit(full, Range(0, 30));
    qc2 := CreateSubCircuit(full, Range(30, 60));
    SubCircuitsOfCross(30);
  }

  lemma {:induction false} DivideOpsParts(m: nat)
    ensures DivideOps(m) == HRange(0, 2 * m) + CXOps(BridgePairs(m)) + [MeasureAll(2 * m)]
  {
    HRangeSplit(0, m, 2 * m);
  }

  lemma {:induction false} DivideInRange(m: nat)
    ensures AllInRange(DivideOps(m), 2 * m)
  {
    var ops := DivideOps(m);
    DivideOpsParts(m);
    forall k | 0 <= k < |ops| ensures InRange(ops[k], 2 * m) {
      if k < 2 * m {
        assert ops[k] == H(k);
      } else if k < 3 * m {
        assert ops[k] == CX(k - 2 * m, k - m);
      }
    }
  }

  lemma {:induction false} DivideLow(m: nat)
    requires m > 0
    ensures Restrict(DivideOps(m), ByRange(0, m)) == HRange(0, m)
  {
    DivideOpsParts(m);
    HalfHLow(m);
    BridgeDropped(m, 0, m);
    MeasureAllDropped(2 * m, 0, m);
    RestrictJoin3(HRange(0, 2 * m), CXOps(BridgePairs(m)), [MeasureAll(2 * m)], ByRange(0, m), HRange(0, m), [], []);
    assert HRange(0, m) + [] + [] == HRange(0, m);
  }

  lemma {:induction false} DivideHigh(m: nat)
    requires m > 0
    ensures Restrict(DivideOps(m), ByRange(m, 2 * m)) == HRange(0, m)
  {
    DivideOpsParts(m);
    HalfHHigh(m);
    BridgeDropped(m, m, 2 * m);
    MeasureAllDropped(2 * m, m, 2 * m);
    RestrictJoin3(HRange(0, 2 * m), CXOps(BridgePairs(m)), [MeasureAll(2 * m)], ByRange(m, 2 * m), HRange(0, m), [], []);
    assert HRange(0, m) + [] + [] == HRange(0, m);
  }

  /**
   * split_into_subcircuits on generate_and_split_circuit's circuit: every CX crosses the
   * halves, so both halves receive exactly the H gates on their own qubits, 0 .. m-1.
   */
  lemma {:induction false} DivideHalves(m: nat)
    requires m > 0
    ensures Restrict(DivideOps(m), Below(m)) == HRange(0, m)
    ensures Restrict(DivideOps(m), AtOrAbove(m)) == HRange(0, m)
  {
    DivideInRange(m);
    SplitIsExtract(DivideOps(m), m, 2 * m);
    DivideLow(m);
    DivideHigh(m);
  }

  /** The module-level split of divide-sixty2.py. */
  method DivideSixtyTwoSplit() returns (qc1: Circuit, qc2: Circuit)
    ensures qc1.Valid() && qc1.n == 30 && qc1.ops == HRange(0, 30)
    ensures qc2.Valid() && qc2.n == 30 && qc2.ops == HRange(0, 30)
  {
    var qc := GenerateAndSplitCircuit();
    qc1, qc2 := SplitIntoSubcircuits(qc);
    DivideHalves(30);
  }

  // ---------------------------------------------------------------- sixty-part12.py: slicing the list

  /** `circuit[:k]` and `circuit[k:]` on the instruction list (Python clamps k to the length). */
  function SplitAt(ops: seq<Op>, k: nat): (r: (seq<Op>, seq<Op>))
    ensures r.0 + r.1 == ops
    ensures |r.0| == if k <= |ops| then k else |ops|
  {
    if k <= |ops| then (ops[..k], ops[k..]) else (ops, [])
  }

  /**
   * split_circuit cuts the instruction list by position, not by qubit: on the fixture the
   * first 30 instructions are the H gates, and the other part holds the bridge and the
   * measure step, whose qubits reach past the 30 of a half.
   */
  lemma {:induction false} PositionSplitOfCross(m: nat)
    requires m > 0
    ensures SplitAt(CrossOps(m), m).0 == HRange(0, m)
    ensures SplitAt(CrossOps(m), m).1 == CXOps(BridgePairs(m)) + [MeasureAll(2 * m)]
    ensures AllInRange(SplitAt(CrossOps(m), m).0, m)
    ensures !AllInRange(SplitAt(CrossOps(m), m).1, m)
  {
    var ops := CrossOps(m);
    assert ops == HRange(0, m) + (CXOps(BridgePairs(m)) + [MeasureAll(2 * m)]);
    var r := SplitAt(ops, m);
    assert r.0 == HRange(0, m);
    forall k | 0 <= k < m ensures InRange(r.0[k], m) {
      assert r.0[k] == H(k);
    }
    assert r.1[0] == CX(0, m);
    assert !InRange(r.1[0], m) by {
      assert Qubits(r.1[0])[1] == m;
    }
  }

  /** The module-level code of sixty-part12.py: the two slices of the fixture. */
  method SixtyPartTwelveSplit() returns (qc1: seq<Op>, qc2: seq<Op>)
    ensures qc1 == HRange(0, 30)
    ensures qc2 == CXOps(BridgePairs(30)) + [MeasureAll(60)]
  {
    var full := CreateSixtyQubitCircuit();
    PositionSplitOfCross(30);
    var parts := SplitAt(full.ops, 30);
    qc1, qc2 := parts.0, parts.1;
  }

  // ---------------------------------------------------------------- sixty-part13.py: picking by position

  /** Every listed position names an instruction, and that instruction fits a circuit of |positions| qubits. */
  predicate PositionsFit(ops: seq<Op>, positions: seq<nat>, width: nat)
  {
    forall i :: 0 <= i < |positions| ==> positions[i] < |ops| && InRange(ops[positions[i]], width)
  }

  /** `full_circuit.data[qubit]` for each qubit of the list, in order. */
  function Picked(ops: seq<Op>, positions: seq<nat>): (r: seq<Op>)
    requires forall i :: 0 <= i < |positions| ==> positions[i] < |ops|
    ensures |r| == |positions|
  {
    seq(|positions|, i requires 0 <= i < |positions| => ops[positions[i]])
  }

  /**
   * create_sub_circuit of sixty-part13.py: for each qubit q of the list it appends the
   * instruction at POSITION q of the parent's list, with that instruction's own qubits, then
   * measures. It fails (IndexError, or Qiskit's refusal of a qubit outside the sub-circuit)
   * exactly when some position is past the end or some picked instruction does not fit.
   */
  method CreateSubCircuitByPosition(full: Circuit, qubits: seq<nat>) returns (sub: Circuit, ok: bool)
    ensures ok <==> PositionsFit(full.ops, qubits, |qubits|)
    ensures ok ==> sub.Valid() && sub.n == |qubits|
    ensures ok ==> sub.ops == Picked(full.ops, qubits) + [MeasureAll(|qubits|)]
  {
    sub := new Circuit(|qubits|);
    var i := 0;
    while i < |qubits|
      invariant 0 <= i <= |qubits|
      invariant PositionsFit(full.ops, qubits[..i], |qubits|)
      invariant sub.Valid() && sub.n == |qubits|
      invariant sub.ops == Picked(full.ops, qubits[..i])
    {
      if |full.ops| <= qubits[i] || !InRange(full.ops[qubits[i]], |qubits|) {
        ok := false;
        return;
      }
      assert Picked(full.ops, qubits[..i + 1]) == Picked(full.ops, qubits[..i]) + [full.ops[qubits[i]]];
      sub.Append(full.ops[qubits[i]]);
      i := i + 1;
    }
    assert qubits[..i] == qubits;
    sub.MeasureAllQubits();
    ok := true;
  }

  /**
   * On the fixture the lower list picks the m H gates, by the coincidence that they come
   * first; the upper list picks the bridge gates, whose targets lie outside an m-qubit
   * sub-circuit, so the second call fails.
   */
  lemma {:induction false} PositionPickOfCross(m: nat)
    requires m > 0
    ensures PositionsFit(CrossOps(m), Range(0, m), m)
    ensures Picked(CrossOps(m), Range(0, m)) == HRange(0, m)
    ensures !PositionsFit(CrossOps(m), Range(m, 2 * m), m)
  {
    var ops := CrossOps(m);
    CrossOpsShape(m);
    forall i | 0 <= i < m ensures InRange(ops[i], m) {
      assert ops[i] == H(i);
    }
    assert ops[m] == CX(0, m);
    assert !InRange(ops[m], m) by {
      assert Qubits(ops[m])[1] == m;
    }
    assert Range(m, 2 * m)[0] == m;
  }

  /** The module-level code of sixty-part13.py: the first sub-circuit is built, the second fails. */
  method SixtyPartThirteenSplit() returns (qc1: Circuit, ok1: bool, ok2: bool)
    ensures ok1 && qc1.Valid() && qc1.n == 30 && qc1.ops == HRange(0, 30) + [MeasureAll(30)]
    ensures !ok2
  {
    var full := CreateSixtyQubitCircuit();
    PositionPickOfCross(30);
    qc1, ok1 := CreateSubCircuitByPosition(full, Range(0, 30));
    var qc2;
    qc2, ok2 := CreateSubCircuitByPosition(full, Range(30, 60));
  }

  // ---------------------------------------------------------------- sixty-part4.py: two brickworks side by side

  /** Every brickwork instruction names at least one qubit. */
  lemma {:induction false} HBrickworkTouching(n: nat, layers: nat)
    ensures Touching(HBrickwork(n, layers))
  {
    var single, even, odd := HRange(0, n), CXOps(StaggeredPairs(0, n - 1)), CXOps(StaggeredPairs(1, n - 1));
    var ops := HBrickwork(n, layers);
    LayersMembers(single, even, odd, layers);
    forall k | 0 <= k < |ops| ensures |Qubits(ops[k])| > 0 {
      assert ops[k] in ops;
      if ops[k] in single {
        var j :| 0 <= j < |single| && single[j] == ops[k];
      } else if ops[k] in even {
        var j :| 0 <= j < |even| && even[j] == ops[k];
      } else {
        var j :| 0 <= j < |odd| && odd[j] == ops[k];
      }
    }
  }

  /**
   * combine_circuits on two copies of generate_brickwork_circuit(n, layers): cutting either
   * half out of the combined list gives back the n-qubit brickwork, so no instruction was
   * lost and none couples the two halves.
   */
  lemma {:induction false} BrickworksSideBySide(n: nat, layers: nat)
    ensures Restrict(HBrickwork(n, layers) + Shifted(HBrickwork(n, layers), n), ByRange(0, n)) == HBrickwork(n, layers)
    ensures Restrict(HBrickwork(n, layers) + Shifted(HBrickwork(n, layers), n), ByRange(n, n + n)) == HBrickwork(n, layers)
  {
    HBrickworkInRange(n, layers);
    HBrickworkTouching(n, layers);
    CombineThenExtract(HBrickwork(n, layers), HBrickwork(n, layers), n, n);
  }

  /** Two copies of generate_brickwork_circuit(n, layers) put side by side by combine_circuits. */
  method CombineTwoBrickworks(n: nat, layers: nat) returns (combined: Circuit)
    ensures combined.Valid() && combined.n == n + n
    ensures combined.ops == HBrickwork(n, layers) + Shifted(HBrickwork(n, layers), n)
    ensures |combined.ops| == 2 * |HBrickwork(n, layers)|
    ensures Restrict(combined.ops, ByRange(0, n)) == HBrickwork(n, layers)
    ensures Restrict(combined.ops, ByRange(n, n + n)) == HBrickwork(n, layers)
  {
    var qc1 := GenerateHBrickwork(n, layers, false);
    var qc2 := GenerateHBrickwork(n, layers, false);
    assert qc1.ops == HBrickwork(n, layers) && qc2.ops == HBrickwork(n, layers);
    combined := CombineCircuits(qc1, qc2);
    BrickworksSideBySide(n, layers);
  }

  /** The module-level code of sixty-part4.py up to the simulation: 2 x 223 instructions on 60 qubits. */
  method SixtyPartFourCombine() returns (combined: Circuit)
    ensures combined.Valid() && combined.n == 60
    ensures combined.ops == HBrickwork(30, 5) + Shifted(HBrickwork(30, 5), 30)
    ensures |combined.ops| == 446
    ensures Restrict(combined.ops, ByRange(0, 30)) == HBrickwork(30, 5)
    ensures Restrict(combined.ops, ByRange(30, 60)) == HBrickwork(30, 5)
  {
    combined := CombineTwoBrickworks(30, 5);
    ThirtyBrickworkLength(30, 5);
  }

  lemma {:induction false} ThirtyBrickworkLength(m: nat, layers: nat)
    requires m == 30 && layers == 5
    ensures |HBrickwork(m, layers)| == 223
  {
    assert StepCount(0, m - 1) == 15 && StepCount(1, m - 1) == 14;
    HBrickworkLength(m, layers);
  }
}
