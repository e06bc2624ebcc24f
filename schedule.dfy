/**
 * Single-qubit gate schedules as the scripts write them: lists of loosely typed
 * tuples such as ('h', 5), ('rx', 0.5, 1) or ('rx', 1, 0.5), decoded by an
 * if/elif chain on the gate name that reads the qubit and the angle from fixed
 * tuple positions. Which position holds the qubit differs between scripts.
 */
module Schedules {
  import opened Wrappers
  import opened Circuits

  /** A tuple field after the gate name: a Python int or a Python float. */
  datatype Field = Int(i: int) | Float(x: real)

  /** A schedule entry: the gate name `gate[0]` and the fields `gate[1:]`. */
  datatype Entry = Entry(kind: string, fields: seq<Field>)

  /**
   * AngleFirst: `qc.rx(gate[1], gate[2])`, angle in gate[1], qubit in gate[2].
   * QubitFirst: `qc.rx(gate[2], gate[1])`, qubit in gate[1], angle in gate[2].
   * In both, `qc.h(gate[1])`.
   */
  datatype FieldOrder = AngleFirst | QubitFirst

  /** What Python or Qiskit raises while decoding an entry. */
  datatype DecodeError =
    | IndexError        // the tuple has no field at the position read
    | QubitNotInteger   // a float was passed where Qiskit expects a qubit index
    | QubitOutOfRange   // the index is not a qubit of the circuit

  /**
   * Qiskit's reading of a qubit argument of an n-qubit circuit: an int indexes the
   * circuit's qubit list as Python indexes a list, so -n .. -1 count from the end.
   */
  function QubitArg(f: Field, n: nat): (r: Result<nat, DecodeError>)
    ensures r.Success? <==> f.Int? && -(n as int) <= f.i < n
    ensures r.Success? ==> r.value < n
    ensures r.Success? ==> r.value == if f.i < 0 then n + f.i else f.i
  {
    match f
    case Int(i) =>
      if 0 <= i < n then Success(i)
      else if -(n as int) <= i < 0 then Success(n + i)
      else Failure(QubitOutOfRange)
    case Float(_) => Failure(QubitNotInteger)
  }

  /** A rotation angle may be given as an int or a float. */
  function AngleArg(f: Field): Angle
  {
    match f
    case Int(i) => i as real
    case Float(x) => x
  }

  /**
   * One pass of the if/elif chain: 'h', 'rx', 'rz' and 'ry' append one gate;
   * any other name matches no branch and appends nothing.
   */
  function DecodeEntry(e: Entry, order: FieldOrder, n: nat): (r: Result<seq<Op>, DecodeError>)
    ensures r.Success? ==> |r.value| <= 1 && AllInRange(r.value, n)
  {
    if e.kind == "h" then
      if |e.fields| < 1 then Failure(IndexError)
      else
        var q :- QubitArg(e.fields[0], n);
        Success([H(q)])
    else if e.kind == "rx" || e.kind == "rz" || e.kind == "ry" then
      if |e.fields| < 2 then Failure(IndexError)
      else
        var angleField := if order == AngleFirst then e.fields[0] else e.fields[1];
        var qubitField := if order == AngleFirst then e.fields[1] else e.fields[0];
        var q :- QubitArg(qubitField, n);
        var theta := AngleArg(angleField);
        Success([if e.kind == "rx" then RX(theta, q) else if e.kind == "rz" then RZ(theta, q) else RY(theta, q)])
    else
      Success([])
  }

  /** The gates one pass over the schedule appends, or the first error raised. */
  function DecodeSchedule(entries: seq<Entry>, order: FieldOrder, n: nat): (r: Result<seq<Op>, DecodeError>)
    ensures r.Success? ==> AllInRange(r.value, n) && |r.value| <= |entries|
  {
    if entries == [] then Success([])
    else
      var init := DecodeSchedule(entries[..|entries| - 1], order, n);
      var last := DecodeEntry(entries[|entries| - 1], order, n);
      if init.Failure? then init
      else if last.Failure? then Failure(last.error)
      else Success(init.value + last.value)
  }

  lemma SeqAssoc<T>(a: seq<T>, b: seq<T>, c: seq<T>)
    ensures a + (b + c) == (a + b) + c
  {
  }

  /** Decoding distributes over concatenation of schedules; an error in either part is an error. */
  lemma {:induction false} DecodeAppend(a: seq<Entry>, b: seq<Entry>, order: FieldOrder, n: nat)
    ensures DecodeSchedule(a + b, order, n).Success? <==>
              DecodeSchedule(a, order, n).Success? && DecodeSchedule(b, order, n).Success?
    ensures DecodeSchedule(a + b, order, n).Success? ==>
              DecodeSchedule(a + b, order, n).value == DecodeSchedule(a, order, n).value + DecodeSchedule(b, order, n).value
    decreases |b|
  {
    if b == [] {
      assert a + b == a;
    } else {
      var b' := b[..|b| - 1];
      assert (a + b)[..|a + b| - 1] == a + b';
      assert (a + b)[|a + b| - 1] == b[|b| - 1];
      DecodeAppend(a, b', order, n);
      var ra, rb' := DecodeSchedule(a, order, n), DecodeSchedule(b', order, n);
      var rl := DecodeEntry(b[|b| - 1], order, n);
      if ra.Success? && rb'.Success? && rl.Success? {
        SeqAssoc(ra.value, rb'.value, rl.value);
      }
    }
  }

  /** Decoding one more entry of a schedule whose prefix decoded: that entry's error, or its gates appended. */
  lemma DecodePrefixStep(entries: seq<Entry>, k: nat, order: FieldOrder, n: nat)
    requires k < |entries| && DecodeSchedule(entries[..k], order, n).Success?
    ensures DecodeEntry(entries[k], order, n).Failure? ==>
              DecodeSchedule(entries[..k + 1], order, n) == Failure(DecodeEntry(entries[k], order, n).error)
    ensures DecodeEntry(entries[k], order, n).Success? ==>
              DecodeSchedule(entries[..k + 1], order, n)
              == Success(DecodeSchedule(entries[..k], order, n).value + DecodeEntry(entries[k], order, n).value)
  {
    assert entries[..k + 1][..k] == entries[..k];
  }

  /** The four angles of one row of five entries, in the order rx, rz, ry, rx. */
  datatype RowAngles = RowAngles(rx1: Angle, rz: Angle, ry: Angle, rx2: Angle)

  /** A row laid out ('h', b), ('rx', a, b+1), ('rz', a', b+2), ('ry', a'', b+3), ('rx', a''', b+4). */
  function AngleFirstRow(base: nat, r: RowAngles): seq<Entry>
  {
    [ Entry("h", [Int(base)]),
      Entry("rx", [Float(r.rx1), Int(base + 1)]),
      Entry("rz", [Float(r.rz), Int(base + 2)]),
      Entry("ry", [Float(r.ry), Int(base + 3)]),
      Entry("rx", [Float(r.rx2), Int(base + 4)]) ]
  }

  /** The same row laid out ('h', b), ('rx', b+1, a), ('rz', b+2, a'), ('ry', b+3, a''), ('rx', b+4, a'''). */
  function QubitFirstRow(base: nat, r: RowAngles): seq<Entry>
  {
    [ Entry("h", [Int(base)]),
      Entry("rx", [Int(base + 1), Float(r.rx1)]),
      Entry("rz", [Int(base + 2), Float(r.rz)]),
      Entry("ry", [Int(base + 3), Float(r.ry)]),
      Entry("rx", [Int(base + 4), Float(r.rx2)]) ]
  }

  /** The gates a row means: h, rx, rz, ry, rx on qubits base .. base+4. */
  function RowOps(base: nat, r: RowAngles): seq<Op>
  {
    [H(base), RX(r.rx1, base + 1), RZ(r.rz, base + 2), RY(r.ry, base + 3), RX(r.rx2, base + 4)]
  }

  /** A table of rows; row k covers qubits 5k .. 5k+4. */
  function AngleFirstTable(rows: seq<RowAngles>): (t: seq<Entry>)
    ensures |t| == 5 * |rows|
  {
    if rows == [] then []
    else AngleFirstTable(rows[..|rows| - 1]) + AngleFirstRow(5 * (|rows| - 1), rows[|rows| - 1])
  }

  function QubitFirstTable(rows: seq<RowAngles>): (t: seq<Entry>)
    ensures |t| == 5 * |rows|
  {
    if rows == [] then []
    else QubitFirstTable(rows[..|rows| - 1]) + QubitFirstRow(5 * (|rows| - 1), rows[|rows| - 1])
  }

  function TableOps(rows: seq<RowAngles>): (ops: seq<Op>)
    ensures |ops| == 5 * |rows|
  {
    if rows == [] then []
    else TableOps(rows[..|rows| - 1]) + RowOps(5 * (|rows| - 1), rows[|rows| - 1])
  }

  /** Decoding a schedule entry by entry; a one-entry schedule decodes like the entry. */
  lemma DecodeSingle(e: Entry, order: FieldOrder, n: nat)
    ensures DecodeSchedule([e], order, n) == DecodeEntry(e, order, n)
  {
    assert [e][..0] == [];
    var r := DecodeEntry(e, order, n);
    if r.Success? {
      assert [] + r.value == r.value;
    }
  }

  /** A schedule whose every entry appends one known gate appends exactly those gates, in order. */
  lemma {:induction false} DecodeEach(es: seq<Entry>, order: FieldOrder, n: nat, ops: seq<Op>)
    requires |es| == |ops|
    requires forall i :: 0 <= i < |es| ==> DecodeEntry(es[i], order, n) == Success([ops[i]])
    ensures DecodeSchedule(es, order, n) == Success(ops)
    decreases |es|
  {
    if es != [] {
      var k := |es| - 1;
      DecodeEach(es[..k], order, n, ops[..k]);
      assert ops[..k] + [ops[k]] == ops;
    }
  }

  lemma DecodeAngleFirstRow(base: nat, r: RowAngles, n: nat)
    requires base + 5 <= n
    ensures DecodeSchedule(AngleFirstRow(base, r), AngleFirst, n) == Success(RowOps(base, r))
  {
    var es, ops := AngleFirstRow(base, r), RowOps(base, r);
    assert forall i :: 0 <= i < 5 ==> DecodeEntry(es[i], AngleFirst, n) == Success([ops[i]]);
    DecodeEach(es, AngleFirst, n, ops);
  }

  lemma DecodeQubitFirstRow(base: nat, r: RowAngles, n: nat)
    requires base + 5 <= n
    ensures DecodeSchedule(QubitFirstRow(base, r), QubitFirst, n) == Success(RowOps(base, r))
  {
    var es, ops := QubitFirstRow(base, r), RowOps(base, r);
    assert forall i :: 0 <= i < 5 ==> DecodeEntry(es[i], QubitFirst, n) == Success([ops[i]]);
    DecodeEach(es, QubitFirst, n, ops);
  }

  /** An angle-first table read angle-first means the gates of its rows. */
  lemma {:induction false} DecodeAngleFirstTable(rows: seq<RowAngles>, n: nat)
    requires 5 * |rows| <= n
    ensures DecodeSchedule(AngleFirstTable(rows), AngleFirst, n) == Success(TableOps(rows))
    decreases |rows|
  {
    if rows != [] {
      var init := rows[..|rows| - 1];
      DecodeAngleFirstTable(init, n);
      DecodeAngleFirstRow(5 * (|rows| - 1), rows[|rows| - 1], n);
      DecodeAppend(AngleFirstTable(init), AngleFirstRow(5 * (|rows| - 1), rows[|rows| - 1]), AngleFirst, n);
    }
  }

  /** A qubit-first table read qubit-first means the same gates. */
  lemma {:induction false} DecodeQubitFirstTable(rows: seq<RowAngles>, n: nat)
    requires 5 * |rows| <= n
    ensures DecodeSchedule(QubitFirstTable(rows), QubitFirst, n) == Success(TableOps(rows))
    decreases |rows|
  {
    if rows != [] {
      var init := rows[..|rows| - 1];
      DecodeQubitFirstTable(init, n);
      DecodeQubitFirstRow(5 * (|rows| - 1), rows[|rows| - 1], n);
      DecodeAppend(QubitFirstTable(init), QubitFirstRow(5 * (|rows| - 1), rows[|rows| - 1]), QubitFirst, n);
    }
  }

  /** The two layouts, each read with its own order, append the same gates in the same order. */
  lemma LayoutsAgree(rows: seq<RowAngles>, n: nat)
    requires 5 * |rows| <= n
    ensures DecodeSchedule(AngleFirstTable(rows), AngleFirst, n) == DecodeSchedule(QubitFirstTable(rows), QubitFirst, n)
  {
    DecodeAngleFirstTable(rows, n);
    DecodeQubitFirstTable(rows, n);
  }

  /** The qubit a single-qubit gate acts on. */
  function Target(op: Op): nat
    requires op.H? || op.RX? || op.RY? || op.RZ?
  {
    op.q
  }

  /** The kinds cycle h, rx, rz, ry, rx. */
  function RowKind(j: nat): Kind
    requires j < 5
  {
    [HGate, RXGate, RZGate, RYGate, RXGate][j]
  }

  /** Gate k of a table acts on qubit k, so a table of m rows covers 0 .. 5m-1 once each. */
  lemma {:induction false} TableOpsCover(rows: seq<RowAngles>)
    ensures forall k :: 0 <= k < |TableOps(rows)| ==>
              Qubits(TableOps(rows)[k]) == [k] && KindOf(TableOps(rows)[k]) == RowKind(k % 5)
    decreases |rows|
  {
    if rows != [] {
      var init := rows[..|rows| - 1];
      TableOpsCover(init);
      var t := TableOps(rows);
      forall k | 5 * |init| <= k < |t|
        ensures Qubits(t[k]) == [k] && KindOf(t[k]) == RowKind(k % 5)
      {
        var j := k - 5 * |init|;
        assert t[k] == RowOps(5 * |init|, rows[|rows| - 1])[j];
        assert k % 5 == j;
      }
    }
  }

  /** Per row one h, two rx, one rz and one ry. */
  function RowShare(k: Kind): nat
  {
    match k
    case HGate => 1
    case RXGate => 2
    case RZGate => 1
    case RYGate => 1
    case _ => 0
  }

  lemma RowOpsCount(base: nat, r: RowAngles, k: Kind)
    ensures Count(RowOps(base, r), k) == RowShare(k)
  {
    var row := RowOps(base, r);
    CountAppend([row[0], row[1]], [row[2], row[3], row[4]], k);
    CountAppend([row[0]], [row[1]], k);
    CountAppend([row[2]], [row[3], row[4]], k);
    CountAppend([row[3]], [row[4]], k);
    assert [row[0]] + [row[1]] == [row[0], row[1]];
    assert [row[3]] + [row[4]] == [row[3], row[4]];
    assert [row[2]] + [row[3], row[4]] == [row[2], row[3], row[4]];
    assert [row[0], row[1]] + [row[2], row[3], row[4]] == row;
  }

  lemma {:induction false} TableOpsCount(rows: seq<RowAngles>, k: Kind)
    ensures Count(TableOps(rows), k) == |rows| * RowShare(k)
    decreases |rows|
  {
    if rows != [] {
      var init, r := rows[..|rows| - 1], rows[|rows| - 1];
      TableOpsCount(init, k);
      CountAppend(TableOps(init), RowOps(5 * |init|, r), k);
      RowOpsCount(5 * |init|, r, k);
    }
  }

  /** Reading an angle-first table qubit-first raises at its first rotation: the qubit slot holds a float. */
  lemma {:induction false} QubitFirstReadOfAngleFirstFails(rows: seq<RowAngles>, n: nat)
    requires |rows| > 0 && n > 0
    ensures DecodeSchedule(AngleFirstTable(rows), QubitFirst, n) == Failure(QubitNotInteger)
    decreases |rows|
  {
    var init := rows[..|rows| - 1];
    var row := AngleFirstRow(5 * (|rows| - 1), rows[|rows| - 1]);
    if init == [] {
      assert AngleFirstTable(rows) == [] + row == row;
      FirstRowFails(rows[0], n);
    } else {
      assert AngleFirstTable(rows) == AngleFirstTable(init) + row;
      QubitFirstReadOfAngleFirstFails(init, n);
      DecodeAppend(AngleFirstTable(init), row, QubitFirst, n);
      FailurePropagates(AngleFirstTable(init), row, QubitFirst, n);
    }
  }

  /** Row 0 read qubit-first: the 'h' on qubit 0 decodes, then the first 'rx' finds its angle where the qubit should be. */
  lemma FirstRowFails(r: RowAngles, n: nat)
    requires n > 0
    ensures DecodeSchedule(AngleFirstRow(0, r), QubitFirst, n) == Failure(QubitNotInteger)
  {
    var row := AngleFirstRow(0, r);
    assert row[..1][..0] == [];
    assert DecodeSchedule(row[..1], QubitFirst, n).Success?;
    assert row[..2][..1] == row[..1];
    assert DecodeSchedule(row[..2], QubitFirst, n) == Failure(QubitNotInteger);
    FailurePropagates(row[..2], row[2..], QubitFirst, n);
    assert row[..2] + row[2..] == row;
  }

  /** The first error of a schedule is the error of any schedule it begins. */
  lemma {:induction false} FailurePropagates(a: seq<Entry>, b: seq<Entry>, order: FieldOrder, n: nat)
    requires DecodeSchedule(a, order, n).Failure?
    ensures DecodeSchedule(a + b, order, n) == Failure(DecodeSchedule(a, order, n).error)
    decreases |b|
  {
    if b == [] {
      assert a + b == a;
    } else {
      assert (a + b)[..|a + b| - 1] == a + b[..|b| - 1];
      FailurePropagates(a, b[..|b| - 1], order, n);
    }
  }
}

/**
 * The literal schedules of the scripts, written row by row. Each row is the five
 * entries ('h', 5k), ('rx', ., 5k+1), ('rz', ., 5k+2), ('ry', ., 5k+3), ('rx', ., 5k+4)
 * with the angles below.
 *
 * Lemmas about a script's fixed sizes take those sizes as parameters fixed by `requires`
 * rather than as literals: on literal arguments the solver unfolds the recursive
 * definitions (Layers, Count) step by step, which costs far more than the proof itself.
 */
module ScheduleTables {
  import opened Wrappers
  import opened Circuits
  import opened Schedules

  const R0 := RowAngles(0.5, 1.2, 0.3, 0.8)
  const R1 := RowAngles(1.1, 0.9, 0.4, 0.7)
  const R2 := RowAngles(0.6, 1.1, 0.2, 0.9)
  const R3 := RowAngles(1.2, 0.8, 0.5, 0.4)
  const R4 := RowAngles(0.3, 1.4, 0.7, 0.1)

  /** sixty-bw2.py: twelve rows covering qubits 0..59, laid out angle-first. */
  const SixtyRows: seq<RowAngles> := [R0, R1, R2, R3, R4, R0, R1, R2, R3, R4, R0, R1]

  function SixtyAngleFirst(): seq<Entry> { AngleFirstTable(SixtyRows) }

  /** sixty-bw5.py: the same twelve rows of angles, laid out qubit-first. */
  const SixtyQubitFirstRows: seq<RowAngles> :=
    [ RowAngles(0.5, 1.2, 0.3, 0.8), RowAngles(1.1, 0.9, 0.4, 0.7), RowAngles(0.6, 1.1, 0.2, 0.9),
      RowAngles(1.2, 0.8, 0.5, 0.4), RowAngles(0.3, 1.4, 0.7, 0.1), RowAngles(0.5, 1.2, 0.3, 0.8),
      RowAngles(1.1, 0.9, 0.4, 0.7), RowAngles(0.6, 1.1, 0.2, 0.9), RowAngles(1.2, 0.8, 0.5, 0.4),
      RowAngles(0.3, 1.4, 0.7, 0.1), RowAngles(0.5, 1.2, 0.3, 0.8), RowAngles(1.1, 0.9, 0.4, 0.7) ]

  function SixtyQubitFirst(): seq<Entry> { QubitFirstTable(SixtyQubitFirstRows) }

  /** sixty-part14.py, sixty-part15.py, partition-sixty.py, split-sixty.py: six rows, qubit-first. */
  const ThirtyRows: seq<RowAngles> := [R0, R1, R2, R3, R4, R0]

  function ThirtyQubitFirst(): seq<Entry> { QubitFirstTable(ThirtyRows) }

  /** sixty-bw3.py: the first row only, angle-first, on a 60-qubit circuit. */
  function FiveAngleFirst(): seq<Entry> { AngleFirstTable([R0]) }

  /**
   * thirty-bw-plot4.py and the thirty-bw2 scripts: four full rows, then a fifth row
   * whose 'ry' and 'rx' entries name qubits 28 and 29 instead of 23 and 24.
   */
  const PlotHeadRows: seq<RowAngles> := [R0, R1, R2, R3]

  const PlotTail: seq<Entry> :=
    [ Entry("h", [Int(20)]), Entry("rx", [Float(0.3), Int(21)]), Entry("rz", [Float(1.4), Int(22)]),
      Entry("ry", [Float(0.7), Int(28)]), Entry("rx", [Float(0.1), Int(29)]) ]

  const PlotTailOps: seq<Op> := [H(20), RX(0.3, 21), RZ(1.4, 22), RY(0.7, 28), RX(0.1, 29)]

  function PlotAngleFirst(): seq<Entry> { AngleFirstTable(PlotHeadRows) + PlotTail }

  /** The four-qubit scripts: ('h', 0), ('rx', 0.5, 1), ('rz', 1.2, 2), ('ry', 0.3, 3). */
  const FourAngleFirst: seq<Entry> :=
    [ Entry("h", [Int(0)]), Entry("rx", [Float(0.5), Int(1)]), Entry("rz", [Float(1.2), Int(2)]),
      Entry("ry", [Float(0.3), Int(3)]) ]

  const FourOps: seq<Op> := [H(0), RX(0.5, 1), RZ(1.2, 2), RY(0.3, 3)]

  /** thirty-bw.py: six rows of angles drawn once before the layer loop, laid out angle-first. */
  function SampledAngleFirst(rows: seq<RowAngles>): (t: seq<Entry>)
    requires |rows| == 6
    ensures |t| == 30
  {
    AngleFirstTable(rows)
  }

  /** The 60-entry schedules of sixty-bw2.py and sixty-bw5.py decode to the same 60 gates. */
  lemma SixtySchedulesAgree(n: nat)
    requires n == 60
    ensures DecodeSchedule(SixtyAngleFirst(), AngleFirst, n) == Success(TableOps(SixtyRows))
    ensures DecodeSchedule(SixtyQubitFirst(), QubitFirst, n) == Success(TableOps(SixtyRows))
  {
    DecodeAngleFirstTable(SixtyRows, n);
    assert SixtyQubitFirstRows == SixtyRows;
    DecodeQubitFirstTable(SixtyRows, n);
  }

  lemma ThirtySchedule(n: nat)
    requires n == 30
    ensures DecodeSchedule(ThirtyQubitFirst(), QubitFirst, n) == Success(TableOps(ThirtyRows))
  {
    DecodeQubitFirstTable(ThirtyRows, n);
  }

  lemma FiveSchedule(n: nat)
    requires n == 60
    ensures DecodeSchedule(FiveAngleFirst(), AngleFirst, n) == Success(RowOps(0, R0))
  {
    assert [R0][..0] == [];
    assert AngleFirstTable([R0]) == [] + AngleFirstRow(0, R0);
    assert [] + AngleFirstRow(0, R0) == AngleFirstRow(0, R0);
    DecodeAngleFirstRow(0, R0, n);
  }

  lemma PlotSchedule(n: nat)
    requires n == 30
    ensures DecodeSchedule(PlotAngleFirst(), AngleFirst, n) == Success(TableOps(PlotHeadRows) + PlotTailOps)
  {
    DecodeAngleFirstTable(PlotHeadRows, n);
    assert forall i :: 0 <= i < 5 ==> DecodeEntry(PlotTail[i], AngleFirst, n) == Success([PlotTailOps[i]]);
    DecodeEach(PlotTail, AngleFirst, n, PlotTailOps);
    DecodeAppend(AngleFirstTable(PlotHeadRows), PlotTail, AngleFirst, n);
  }

  lemma FourSchedule(n: nat)
    requires n == 4 || n == 30
    ensures DecodeSchedule(FourAngleFirst, AngleFirst, n) == Success(FourOps)
  {
    assert forall i :: 0 <= i < 4 ==> DecodeEntry(FourAngleFirst[i], AngleFirst, n) == Success([FourOps[i]]);
    DecodeEach(FourAngleFirst, AngleFirst, n, FourOps);
  }

  /** thirty-bw.py reads its angle-first table qubit-first: the first 'rx' entry raises, whatever the angles. */
  lemma SampledScheduleRejected(rows: seq<RowAngles>)
    requires |rows| == 6
    ensures DecodeSchedule(SampledAngleFirst(rows), QubitFirst, 30) == Failure(QubitNotInteger)
  {
    QubitFirstReadOfAngleFirstFails(rows, 30);
  }

  /** Read as its layout intends, the sampled table means six rows of gates on qubits 0..29. */
  lemma SampledScheduleIntended(rows: seq<RowAngles>)
    requires |rows| == 6
    ensures DecodeSchedule(SampledAngleFirst(rows), AngleFirst, 30) == Success(TableOps(rows))
  {
    DecodeAngleFirstTable(rows, 30);
  }

  /** The gates of the 25-entry table: qubits 23..27 receive no single-qubit gate. */
  lemma PlotScheduleCoverage()
    ensures |TableOps(PlotHeadRows) + PlotTailOps| == 25
    ensures forall q: nat :: (exists k :: 0 <= k < 25 && Qubits((TableOps(PlotHeadRows) + PlotTailOps)[k]) == [q])
              <==> q <= 22 || q == 28 || q == 29
  {
    var ops := TableOps(PlotHeadRows) + PlotTailOps;
    TableOpsCover(PlotHeadRows);
    assert forall k :: 0 <= k < 20 ==> Qubits(ops[k]) == [k];
    assert forall k :: 20 <= k < 23 ==> Qubits(ops[k]) == [k];
    assert Qubits(ops[23]) == [28] && Qubits(ops[24]) == [29];
    forall q: nat | q <= 22 || q == 28 || q == 29
      ensures exists k :: 0 <= k < 25 && Qubits(ops[k]) == [q]
    {
      var k := if q <= 22 then q else q - 5;
      assert Qubits(ops[k]) == [q];
    }
  }
}
