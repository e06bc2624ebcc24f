/**
 * The brickwork scripts, each as the generator call its source makes and the op
 * sequence that call produces, with the gate counts and variant equalities proved.
 */
module BrickworkScripts {
  import opened Wrappers
  import opened Circuits
  import opened Pairs
  import opened Schedules
  import opened ScheduleTables
  import opened Brickwork

  /** `[(i, i+1) for i in range(start, stop, 2)]` lies inside an n-qubit circuit when stop <= n. */
  lemma PairListInRange(start: nat, stop: nat, n: nat)
    requires stop <= n && start <= stop && (stop - start) % 2 == 0
    ensures PairsInRange(StaggeredPairs(start, stop), n)
  {
    if start < stop {
      StaggeredPairsStop(start, stop, stop - 1);
    }
    StaggeredPairsInRange(start, stop - 1, n);
  }

  /** The 60-qubit lists: 30 pairs (0,1)..(58,59) and 29 pairs (1,2)..(57,58), each disjoint. */
  lemma SixtyPairLists()
    ensures |StaggeredPairs(0, 60)| == 30 && |StaggeredPairs(1, 59)| == 29
    ensures PairsInRange(StaggeredPairs(0, 60), 60) && PairsInRange(StaggeredPairs(1, 59), 60)
  {
    PairListInRange(0, 60, 60);
    PairListInRange(1, 59, 60);
  }

  /** The 30-qubit lists: 15 pairs (0,1)..(28,29) and 14 pairs (1,2)..(27,28). */
  lemma ThirtyPairLists()
    ensures |StaggeredPairs(0, 30)| == 15 && |StaggeredPairs(1, 29)| == 14
    ensures PairsInRange(StaggeredPairs(0, 30), 30) && PairsInRange(StaggeredPairs(1, 29), 30)
  {
    PairListInRange(0, 30, 30);
    PairListInRange(1, 29, 30);
  }

  /** Gate counts of `layers` layers from the counts of their three blocks. */
  lemma {:induction false} ScheduledCounts(single: seq<Op>, even: seq<(nat, nat)>, odd: seq<(nat, nat)>, layers: nat, k: Kind)
    ensures Count(Layers(single, CXOps(even), CXOps(odd), layers), k) ==
              layers * Count(single, k) + (if k == CXGate then ((layers + 1) / 2) * |even| + (layers / 2) * |odd| else 0)
  {
    LayersCount(single, CXOps(even), CXOps(odd), layers, k);
    CountCXOps(even, k);
    CountCXOps(odd, k);
  }

  // ---------------------------------------------------------------- sixty-bw2.py, sixty-bw5.py

  /** The ops of `generate_data` in sixty-bw2.py and sixty-bw5.py. */
  function SixtyScheduledOps(): seq<Op>
  {
    Layers(TableOps(SixtyRows), CXOps(StaggeredPairs(0, 60)), CXOps(StaggeredPairs(1, 59)), 7) + [MeasureAll(60)]
  }

  /** sixty-bw2.py `generate_data`: angle-first schedule. */
  method SixtyBw2Generate() returns (qc: Circuit)
    ensures fresh(qc) && qc.Valid() && qc.n == 60 && qc.ops == SixtyScheduledOps()
  {
    SixtyPairLists();
    SixtySchedulesAgree(60);
    var ok;
    qc, ok := GenerateScheduled(60, 7, SixtyAngleFirst(), AngleFirst, StaggeredPairs(0, 60), StaggeredPairs(1, 59), true);
  }

  /** sixty-bw5.py `generate_data`: the qubit-first schedule yields the same circuit as sixty-bw2.py. */
  method SixtyBw5Generate() returns (qc: Circuit)
    ensures fresh(qc) && qc.Valid() && qc.n == 60 && qc.ops == SixtyScheduledOps()
  {
    SixtyPairLists();
    SixtySchedulesAgree(60);
    var ok;
    qc, ok := GenerateScheduled(60, 7, SixtyQubitFirst(), QubitFirst, StaggeredPairs(0, 60), StaggeredPairs(1, 59), true);
  }

  /** The count of each kind in the ops of a scheduled generator with a trailing measure step. */
  lemma ScheduledMeasuredCount(single: seq<Op>, even: seq<(nat, nat)>, odd: seq<(nat, nat)>, layers: nat, n: nat, k: Kind)
    ensures Count(Layers(single, CXOps(even), CXOps(odd), layers) + [MeasureAll(n)], k) ==
              layers * Count(single, k) + (if k == CXGate then ((layers + 1) / 2) * |even| + (layers / 2) * |odd| else 0)
              + (if k == MeasureStep then 1 else 0)
  {
    ScheduledCounts(single, even, odd, layers, k);
    CountAppend(Layers(single, CXOps(even), CXOps(odd), layers), [MeasureAll(n)], k);
  }

  /**
   * 7 layers of 60 single-qubit gates (84 h, 168 rx, 84 rz, 84 ry), 4 even layers of 30 CX
   * and 3 odd layers of 29 CX: 627 gates, then the one measure step.
   */
  lemma SixtyScheduledCounts(k: Kind)
    ensures Count(SixtyScheduledOps(), k) ==
              match k
              case HGate => 84
              case RXGate => 168
              case RZGate => 84
              case RYGate => 84
              case CXGate => 207
              case MeasureStep => 1
              case CXBroadcastGate => 0
  {
    SixtyPairLists();
    TableOpsCount(SixtyRows, k);
    ScheduledMeasuredCount(TableOps(SixtyRows), StaggeredPairs(0, 60), StaggeredPairs(1, 59), 7, 60, k);
  }

  /** A scheduled generator with a trailing measure step: its length, its last op, its indices. */
  lemma ScheduledMeasuredShape(single: seq<Op>, even: seq<(nat, nat)>, odd: seq<(nat, nat)>, layers: nat, n: nat)
    requires AllInRange(single, n) && PairsInRange(even, n) && PairsInRange(odd, n)
    ensures |Layers(single, CXOps(even), CXOps(odd), layers) + [MeasureAll(n)]| ==
              layers * |single| + ((layers + 1) / 2) * |even| + (layers / 2) * |odd| + 1
    ensures (Layers(single, CXOps(even), CXOps(odd), layers) + [MeasureAll(n)])[
              layers * |single| + ((layers + 1) / 2) * |even| + (layers / 2) * |odd|] == MeasureAll(n)
    ensures AllInRange(Layers(single, CXOps(even), CXOps(odd), layers) + [MeasureAll(n)], n)
  {
    var body := Layers(single, CXOps(even), CXOps(odd), layers);
    LayersLength(single, CXOps(even), CXOps(odd), layers);
    LayersInRange(single, CXOps(even), CXOps(odd), layers, n);
    assert AllInRange([MeasureAll(n)], n);
    AllInRangeAppend(body, [MeasureAll(n)], n);
  }

  /** The layers alone: their length from the three blocks, every index below n. */
  lemma ScheduledShape(single: seq<Op>, even: seq<(nat, nat)>, odd: seq<(nat, nat)>, layers: nat, n: nat)
    requires AllInRange(single, n) && PairsInRange(even, n) && PairsInRange(odd, n)
    ensures |Layers(single, CXOps(even), CXOps(odd), layers)| ==
              layers * |single| + ((layers + 1) / 2) * |even| + (layers / 2) * |odd|
    ensures AllInRange(Layers(single, CXOps(even), CXOps(odd), layers), n)
  {
    LayersLength(single, CXOps(even), CXOps(odd), layers);
    LayersInRange(single, CXOps(even), CXOps(odd), layers, n);
  }

  /** 628 ops (627 gates and the measure step), every index below 60. */
  lemma SixtyScheduledShape()
    ensures |SixtyScheduledOps()| == 628
    ensures AllInRange(SixtyScheduledOps(), 60)
  {
    SixtyPairLists();
    DecodeAngleFirstTable(SixtyRows, 60);
    ScheduledMeasuredShape(TableOps(SixtyRows), StaggeredPairs(0, 60), StaggeredPairs(1, 59), 7, 60);
  }
}

/**
 * The 60-qubit generator of sixty-bw3.py and the H/CX brickwork instances.
 *
 * Lemmas about a script's fixed sizes take those sizes as parameters fixed by `requires`
 * rather than as literals: on literal arguments the solver unfolds the recursive
 * definitions (Layers, Count) step by step, which costs far more than the proof itself.
 */
module BrickworkInstances {
  import opened Circuits
  import opened Pairs
  import opened Schedules
  import opened ScheduleTables
  import opened Brickwork
  import opened BrickworkScripts

  // ---------------------------------------------------------------- sixty-bw3.py

  function FiveOnSixtyOps(): seq<Op>
  {
    Layers(RowOps(0, R0), CXOps(StaggeredPairs(0, 60)), CXOps(StaggeredPairs(1, 59)), 7) + [MeasureAll(60)]
  }

  /** sixty-bw3.py `generate_data`: a five-entry schedule on a 60-qubit circuit. */
  method SixtyBw3Generate() returns (qc: Circuit)
    ensures fresh(qc) && qc.Valid() && qc.n == 60 && qc.ops == FiveOnSixtyOps()
  {
    SixtyPairLists();
    FiveSchedule(60);
    var ok;
    qc, ok := GenerateScheduled(60, 7, FiveAngleFirst(), AngleFirst, StaggeredPairs(0, 60), StaggeredPairs(1, 59), true);
  }

  /** 35 single-qubit gates and 207 CX: 242 gates, then the measure step. */
  lemma FiveOnSixtyShape()
    ensures |FiveOnSixtyOps()| == 243
    ensures AllInRange(FiveOnSixtyOps(), 60)
  {
    SixtyPairLists();
    assert AllInRange(RowOps(0, R0), 60);
    ScheduledMeasuredShape(RowOps(0, R0), StaggeredPairs(0, 60), StaggeredPairs(1, 59), 7, 60);
  }

  /** Seven rows of the five-entry schedule (7 h, 14 rx, 7 rz, 7 ry), 207 CX, then the measure step. */
  lemma FiveOnSixtyCounts(k: Kind)
    ensures Count(FiveOnSixtyOps(), k) ==
              match k
              case HGate => 7
              case RXGate => 14
              case RZGate => 7
              case RYGate => 7
              case CXGate => 207
              case MeasureStep => 1
              case CXBroadcastGate => 0
  {
    SixtyPairLists();
    RowOpsCount(0, R0, k);
    ScheduledMeasuredCount(RowOps(0, R0), StaggeredPairs(0, 60), StaggeredPairs(1, 59), 7, 60, k);
  }

  /** Qubits 5..59 receive only CX gates: every other gate touches qubits below 5. */
  lemma FiveOnSixtyCoverage()
    ensures forall op :: op in FiveOnSixtyOps() && KindOf(op) != CXGate && KindOf(op) != MeasureStep ==>
              forall i :: 0 <= i < |Qubits(op)| ==> Qubits(op)[i] < 5
  {
    var row := RowOps(0, R0);
    assert forall op :: op in row ==> forall i :: 0 <= i < |Qubits(op)| ==> Qubits(op)[i] < 5;
    ScheduledCoverage(row, StaggeredPairs(0, 60), StaggeredPairs(1, 59), 7, 60, 5);
  }

  /** In a scheduled generator, every gate other than CX and the measure step comes from the single-qubit block. */
  lemma ScheduledCoverage(single: seq<Op>, even: seq<(nat, nat)>, odd: seq<(nat, nat)>, layers: nat, n: nat, w: nat)
    requires forall op :: op in single ==> forall i :: 0 <= i < |Qubits(op)| ==> Qubits(op)[i] < w
    ensures forall op :: (op in Layers(single, CXOps(even), CXOps(odd), layers) + [MeasureAll(n)] &&
                          KindOf(op) != CXGate && KindOf(op) != MeasureStep) ==>
              forall i :: 0 <= i < |Qubits(op)| ==> Qubits(op)[i] < w
  {
    var ce, co := CXOps(even), CXOps(odd);
    LayersMembers(single, ce, co, layers);
    assert forall op :: op in ce ==> KindOf(op) == CXGate;
    assert forall op :: op in co ==> KindOf(op) == CXGate;
  }

  // ---------------------------------------------------------------- H/CX brickworks

  /** sixty-part9.py `generate_60_qubit_circuit`: 60 qubits, 5 layers, a measure step. */
  method SixtyPart9Generate() returns (qc: Circuit)
    ensures fresh(qc) && qc.Valid() && qc.n == 60 && qc.ops == HBrickwork(60, 5) + [MeasureAll(60)]
  {
    qc := GenerateHBrickwork(60, 5, true);
  }

  /** five-partion2.py `generate_brickwork_circuit_5_qubits`: 5 qubits, 3 layers, a measure step. */
  method FiveQubitGenerate() returns (qc: Circuit)
    ensures fresh(qc) && qc.Valid() && qc.n == 5 && qc.ops == HBrickwork(5, 3) + [MeasureAll(5)]
  {
    qc := GenerateHBrickwork(5, 3, true);
  }

  /**
   * generate_brickwork_circuit(60, 5): 300 H and 148 CX (3 even layers of 30 pairs
   * (0,1)..(58,59), 2 odd layers of 29 pairs (1,2)..(57,58)), all indices below 60.
   */
  lemma SixtyBrickworkShape(n: nat, layers: nat)
    requires n == 60 && layers == 5
    ensures Count(HBrickwork(n, layers), HGate) == 300 && Count(HBrickwork(n, layers), CXGate) == 148
    ensures |HBrickwork(n, layers)| == 448
    ensures AllInRange(HBrickwork(n, layers), 60)
  {
    assert StepCount(0, n - 1) == 30 && StepCount(1, n - 1) == 29;
    assert Count(HBrickwork(n, layers), HGate) == 300 by {
      HBrickworkCount(n, layers, HGate);
    }
    assert Count(HBrickwork(n, layers), CXGate) == 148 by {
      HBrickworkCount(n, layers, CXGate);
    }
    assert |HBrickwork(n, layers)| == 448 by {
      HBrickworkLength(n, layers);
    }
    HBrickworkInRange(n, layers);
  }

  /** The 5-qubit brickwork: 15 H and 6 CX, (0,1),(2,3) on layers 0 and 2 and (1,2),(3,4) on layer 1. */
  lemma FiveBrickworkShape()
    ensures Count(HBrickwork(5, 3), HGate) == 15 && Count(HBrickwork(5, 3), CXGate) == 6
    ensures |HBrickwork(5, 3)| == 21
    ensures AllInRange(HBrickwork(5, 3), 5)
    ensures StaggeredPairs(0, 4) == [(0, 1), (2, 3)] && StaggeredPairs(1, 4) == [(1, 2), (3, 4)]
  {
    HBrickworkCount(5, 3, HGate);
    HBrickworkCount(5, 3, CXGate);
    HBrickworkLength(5, 3);
    HBrickworkInRange(5, 3);
    var a, b, c, d := (3 + 1) / 2, StepCount(0, 5 - 1), 3 / 2, StepCount(1, 5 - 1);
    assert a == 2 && b == 2 && c == 1 && d == 2;
    assert a * b + c * d == 6;
  }

  // ---------------------------------------------------------------- four-qubit scripts

  /** four-bw-statevec-v1.py: even list (0,1),(2,3), odd list (1,2). */
  const FourEven: seq<(nat, nat)> := [(0, 1), (2, 3)]
  const FourOdd: seq<(nat, nat)> := [(1, 2)]

  function FourBwOps(): seq<Op>
  {
    Layers(FourOps, CXOps(FourEven), CXOps(FourOdd), 2)
  }

  /** four-bw-statevec-v1.py `generate_brickwork_circuit`: 2 layers and no measure step. */
  method FourBwGenerate() returns (qc: Circuit)
    ensures fresh(qc) && qc.Valid() && qc.n == 4 && qc.ops == FourBwOps()
  {
    FourSchedule(4);
    var ok;
    qc, ok := GenerateScheduled(4, 2, FourAngleFirst, AngleFirst, FourEven, FourOdd, false);
  }

  /** 11 gates: the 4-gate schedule twice, CX(0,1), CX(2,3) after the first and CX(1,2) after the second. */
  lemma FourBwShape()
    ensures FourBwOps() == FourOps + [CX(0, 1), CX(2, 3)] + FourOps + [CX(1, 2)]
    ensures |FourBwOps()| == 11 && AllInRange(FourBwOps(), 4)
  {
    assert Layers(FourOps, CXOps(FourEven), CXOps(FourOdd), 1) == FourOps + [CX(0, 1), CX(2, 3)];
  }

  /** Four-Qubit3.py and Four_Qubit_BW.py: one flat list of four pairs, the last wrapping around. */
  const FourRing: seq<(nat, nat)> := [(0, 1), (1, 2), (2, 3), (3, 0)]

  function FourRingOps(): seq<Op>
  {
    Layers(FourOps, CXOps(Stride(FourRing, 0)), CXOps(Stride(FourRing, 1)), 3) + [MeasureAll(4)]
  }

  /** The module-level loop of Four-Qubit3.py and of Four_Qubit_BW.py. */
  method FourRingGenerate() returns (qc: Circuit)
    ensures fresh(qc) && qc.Valid() && qc.n == 4 && qc.ops == FourRingOps()
  {
    FourSchedule(4);
    var ok;
    qc, ok := GenerateStrided(4, 3, FourAngleFirst, AngleFirst, FourRing, true);
  }

  /** Even layers take pairs 0 and 2, odd layers pairs 1 and 3: 18 gates, then the measure step. */
  lemma FourRingShape()
    ensures Stride(FourRing, 0) == [(0, 1), (2, 3)] && Stride(FourRing, 1) == [(1, 2), (3, 0)]
    ensures FourRingOps() == FourOps + [CX(0, 1), CX(2, 3)] + FourOps + [CX(1, 2), CX(3, 0)]
                             + FourOps + [CX(0, 1), CX(2, 3)] + [MeasureAll(4)]
    ensures |FourRingOps()| == 19
  {
    var even, odd := CXOps(Stride(FourRing, 0)), CXOps(Stride(FourRing, 1));
    assert even == [CX(0, 1), CX(2, 3)] && odd == [CX(1, 2), CX(3, 0)];
    assert Layers(FourOps, even, odd, 1) == FourOps + [CX(0, 1), CX(2, 3)];
    assert Layers(FourOps, even, odd, 2) == FourOps + [CX(0, 1), CX(2, 3)] + FourOps + [CX(1, 2), CX(3, 0)];
  }
}
