/** The 30-qubit brickwork scripts. */
module ThirtyQubitScripts {
  import opened Wrappers
  import opened Circuits
  import opened Pairs
  import opened Schedules
  import opened ScheduleTables
  import opened Brickwork
  import opened BrickworkScripts

  // ---------------------------------------------------------------- sixty-part14.py, partition-sixty.py, split-sixty.py

  /** The ops of `generate_data_partition(partition)`, whatever the partition. */
  function PartitionOps(): seq<Op>
  {
    Layers(TableOps(ThirtyRows), CXOps(StaggeredPairs(0, 30)), CXOps(StaggeredPairs(1, 29)), 7) + [MeasureAll(30)]
  }

  /**
   * `generate_data_partition(partition)` of sixty-part14.py, partition-sixty.py and
   * split-sixty.py: the argument is never read, so every call yields the same circuit.
   */
  method GenerateDataPartition(partition: int) returns (qc: Circuit)
    ensures fresh(qc) && qc.Valid() && qc.n == 30 && qc.ops == PartitionOps()
  {
    ThirtyPairLists();
    ThirtySchedule(30);
    var ok;
    qc, ok := GenerateScheduled(30, 7, ThirtyQubitFirst(), QubitFirst, StaggeredPairs(0, 30), StaggeredPairs(1, 29), true);
  }

  /** 313 ops: 312 gates then the measure step, every index below 30. */
  lemma PartitionShape()
    ensures |PartitionOps()| == 313
    ensures AllInRange(PartitionOps(), 30)
  {
    ThirtyPairLists();
    DecodeQubitFirstTable(ThirtyRows, 30);
    ScheduledMeasuredShape(TableOps(ThirtyRows), StaggeredPairs(0, 30), StaggeredPairs(1, 29), 7, 30);
  }

  /** 7 layers of 30 single-qubit gates (42 h, 84 rx, 42 rz, 42 ry), 4 x 15 + 3 x 14 = 102 CX, one measure step. */
  lemma PartitionCounts(k: Kind)
    ensures Count(PartitionOps(), k) ==
              match k
              case HGate => 42
              case RXGate => 84
              case RZGate => 42
              case RYGate => 42
              case CXGate => 102
              case MeasureStep => 1
              case CXBroadcastGate => 0
  {
    var single, even, odd := TableOps(ThirtyRows), StaggeredPairs(0, 30), StaggeredPairs(1, 29);
    ThirtyPairLists();
    TableOpsCount(ThirtyRows, k);
    var c := Count(single, k);
    assert c == 6 * RowShare(k);
    ScheduledMeasuredCount(single, even, odd, 7, 30, k);
    assert ((7 + 1) / 2) * |even| + (7 / 2) * |odd| == 102;
    assert Count(PartitionOps(), k) == 7 * c + (if k == CXGate then 102 else 0) + (if k == MeasureStep then 1 else 0);
  }

  // ---------------------------------------------------------------- thirty-bw-plot4.py, thirty-bw2-wcsv11.py, thirty-bw2-statevec-v4.py

  /** The 25 gates the 25-entry schedule decodes to. */
  function PlotSingle(): seq<Op>
  {
    TableOps(PlotHeadRows) + PlotTailOps
  }

  /** Seven layers of the 25-gate schedule and the 15/14 pair lists, before any measure step. */
  function PlotLayers(): seq<Op>
  {
    Layers(PlotSingle(), CXOps(StaggeredPairs(0, 30)), CXOps(StaggeredPairs(1, 29)), 7)
  }

  /** `generate_data` of thirty-bw-plot4.py and of thirty-bw2-wcsv11.py. */
  method PlotGenerate() returns (qc: Circuit)
    ensures fresh(qc) && qc.Valid() && qc.n == 30 && qc.ops == PlotLayers() + [MeasureAll(30)]
  {
    ThirtyPairLists();
    PlotSchedule(30);
    var ok;
    qc, ok := GenerateScheduled(30, 7, PlotAngleFirst(), AngleFirst, StaggeredPairs(0, 30), StaggeredPairs(1, 29), true);
  }

  /** The module-level loop of thirty-bw2-statevec-v4.py: the same layers, and no measure step. */
  method StatevecV4Generate() returns (qc: Circuit)
    ensures fresh(qc) && qc.Valid() && qc.n == 30 && qc.ops == PlotLayers()
  {
    ThirtyPairLists();
    PlotSchedule(30);
    var ok;
    qc, ok := GenerateScheduled(30, 7, PlotAngleFirst(), AngleFirst, StaggeredPairs(0, 30), StaggeredPairs(1, 29), false);
    assert PlotLayers() + [] == PlotLayers();
  }

  /** The 25-gate schedule holds as many gates of each kind as five table rows: 5 h, 10 rx, 5 rz, 5 ry. */
  lemma PlotSingleCounts(k: Kind)
    ensures |PlotSingle()| == 25
    ensures Count(PlotSingle(), k) == 5 * RowShare(k)
  {
    TableOpsCount(PlotHeadRows, k);
    CountAppend(TableOps(PlotHeadRows), PlotTailOps, k);
    var t := PlotTailOps;
    assert t == [t[0], t[1], t[2], t[3]] + [t[4]];
    CountAppend([t[0], t[1], t[2], t[3]], [t[4]], k);
    assert [t[0], t[1], t[2], t[3]] == [t[0], t[1], t[2]] + [t[3]];
    CountAppend([t[0], t[1], t[2]], [t[3]], k);
    assert [t[0], t[1], t[2]] == [t[0], t[1]] + [t[2]];
    CountAppend([t[0], t[1]], [t[2]], k);
    CountAppend([t[0]], [t[1]], k);
    assert Count(t, k) == RowShare(k);
  }

  /** 175 single-qubit gates and 102 CX: 277 gates, all on qubits below 30. */
  lemma PlotShape()
    ensures |PlotLayers()| == 277
    ensures AllInRange(PlotLayers(), 30)
  {
    ThirtyPairLists();
    PlotSingleCounts(HGate);
    PlotSchedule(30);
    ScheduledShape(PlotSingle(), StaggeredPairs(0, 30), StaggeredPairs(1, 29), 7, 30);
  }

  /** 35 h, 70 rx, 35 rz, 35 ry and 102 CX, and no measure step in the layers themselves. */
  lemma PlotCounts(k: Kind)
    ensures Count(PlotLayers(), k) ==
              match k
              case HGate => 35
              case RXGate => 70
              case RZGate => 35
              case RYGate => 35
              case CXGate => 102
              case MeasureStep => 0
              case CXBroadcastGate => 0
  {
    var even, odd := StaggeredPairs(0, 30), StaggeredPairs(1, 29);
    ThirtyPairLists();
    PlotSingleCounts(k);
    var c := Count(PlotSingle(), k);
    ScheduledCounts(PlotSingle(), even, odd, 7, k);
    assert ((7 + 1) / 2) * |even| + (7 / 2) * |odd| == 102;
    assert Count(PlotLayers(), k) == 7 * c + (if k == CXGate then 102 else 0);
  }

  // ---------------------------------------------------------------- thirty-bw2-wcsv7.py, thirty-bw2-statevec.py

  /** `two_qubit_gates` of the stride-2 30-qubit scripts: a list holding the two pair lists. */
  function ThirtyLists(): seq<seq<(nat, nat)>>
  {
    [StaggeredPairs(0, 30), StaggeredPairs(1, 29)]
  }

  function BroadcastLayers(): seq<Op>
  {
    Layers(PlotSingle(), StrideBroadcast(ThirtyLists(), 0), StrideBroadcast(ThirtyLists(), 1), 7)
  }

  lemma ThirtyListsFit()
    ensures ListsFit(ThirtyLists(), 30)
  {
    ThirtyPairLists();
  }

  /**
   * `generate_data` of thirty-bw2-wcsv7.py and the module-level loop of thirty-bw2-statevec.py:
   * the stride-2 loops run over a two-element list, so each layer makes one call with two pairs.
   */
  method BroadcastGenerate() returns (qc: Circuit)
    ensures fresh(qc) && qc.Valid() && qc.n == 30 && qc.ops == BroadcastLayers() + [MeasureAll(30)]
  {
    ThirtyListsFit();
    PlotSchedule(30);
    var ok;
    qc, ok := GenerateStridedBroadcast(30, 7, PlotAngleFirst(), AngleFirst, ThirtyLists(), true);
  }

  /**
   * Each even layer makes the single call cx((0, 1), (2, 3)) and each odd layer cx((1, 2), (3, 4)):
   * only the first two pairs of each list are ever passed to the gate.
   */
  lemma BroadcastUsesOnePairOfPairs()
    ensures StrideBroadcast(ThirtyLists(), 0) == [CXBroadcast(2, [0, 1, 2, 3])]
    ensures StrideBroadcast(ThirtyLists(), 1) == [CXBroadcast(2, [1, 2, 3, 4])]
  {
    ThirtyListsFit();
    var lists := ThirtyLists();
    assert lists[0][0] == (0, 1) && lists[0][1] == (2, 3);
    assert lists[1][0] == (1, 2) && lists[1][1] == (3, 4);
    StrideBroadcastAt(lists, 0, 30);
    StrideBroadcastAt(lists, 1, 30);
  }

  /**
   * Seven layers of the 25 single-qubit gates and one broadcast call each: 182 instructions,
   * 7 broadcast calls and not a single plain CX.
   */
  lemma BroadcastCounts(k: Kind)
    ensures |BroadcastLayers()| == 182
    ensures Count(BroadcastLayers(), k) ==
              match k
              case HGate => 35
              case RXGate => 70
              case RZGate => 35
              case RYGate => 35
              case CXGate => 0
              case MeasureStep => 0
              case CXBroadcastGate => 7
  {
    BroadcastUsesOnePairOfPairs();
    var e, o := StrideBroadcast(ThirtyLists(), 0), StrideBroadcast(ThirtyLists(), 1);
    PlotSingleCounts(k);
    var c := Count(PlotSingle(), k);
    LayersLength(PlotSingle(), e, o, 7);
    assert 7 * 25 + ((7 + 1) / 2) * |e| + (7 / 2) * |o| == 182;
    LayersCount(PlotSingle(), e, o, 7, k);
    var b := if k == CXBroadcastGate then 1 else 0;
    assert Count(e, k) == b && Count(o, k) == b;
    assert ((7 + 1) / 2) * b + (7 / 2) * b == 7 * b;
    assert Count(BroadcastLayers(), k) == 7 * c + 7 * b;
  }

  // ---------------------------------------------------------------- thirty-bw.py

  /**
   * The module-level loop of thirty-bw.py over its pre-sampled angle-first table, decoded
   * qubit-first: the first 'rx' entry passes a float as the qubit, so the script raises.
   */
  method SampledGenerate(rows: seq<RowAngles>) returns (qc: Circuit, ok: bool)
    requires |rows| == 6
    ensures fresh(qc) && qc.n == 30 && !ok
  {
    ThirtyPairLists();
    SampledScheduleRejected(rows);
    qc, ok := GenerateScheduled(30, 7, SampledAngleFirst(rows), QubitFirst, StaggeredPairs(0, 30), StaggeredPairs(1, 29), true);
  }

  /** The same loop with the decoding the table's layout calls for: seven layers of the sampled rows. */
  method SampledGenerateIntended(rows: seq<RowAngles>) returns (qc: Circuit)
    requires |rows| == 6
    ensures fresh(qc) && qc.Valid() && qc.n == 30
    ensures qc.ops == Layers(TableOps(rows), CXOps(StaggeredPairs(0, 30)), CXOps(StaggeredPairs(1, 29)), 7) + [MeasureAll(30)]
  {
    ThirtyPairLists();
    SampledScheduleIntended(rows);
    var ok;
    qc, ok := GenerateScheduled(30, 7, SampledAngleFirst(rows), AngleFirst, StaggeredPairs(0, 30), StaggeredPairs(1, 29), true);
  }
}
