/**
 * The circuit model shared by every script: a qubit count and the ordered list of
 * instructions that Qiskit's QuantumCircuit records in `qc.data`.
 *
 * Gates are a tagged variant with named fields, so an angle can never be mistaken
 * for a qubit once an instruction exists. `Measure(qs)` is the single marker that
 * stands for one `measure_all()` call over the qubits `qs`.
 */
module Circuits {

  /** A rotation angle. Angles are only copied, never computed on. */
  type Angle = real

  datatype Op =
    | H(q: nat)
    | RX(theta: Angle, q: nat)
    | RY(theta: Angle, q: nat)
    | RZ(theta: Angle, q: nat)
    | CX(control: nat, target: nat)
      /**
       * `qc.cx(a, b)` called with two lists of qubits as arguments, recorded as called:
       * the first `width` arguments are the list `a`, the rest the list `b`.
       */
    | CXBroadcast(width: nat, qargs: seq<nat>)
    | Measure(qs: seq<nat>)

  /** The instruction's name, without its qubits. */
  datatype Kind = HGate | RXGate | RYGate | RZGate | CXGate | CXBroadcastGate | MeasureStep

  /** What Qiskit stores as `operation`: the gate with its parameters, without its qubits. */
  datatype Gate =
    | GH
    | GRX(theta: Angle)
    | GRY(theta: Angle)
    | GRZ(theta: Angle)
    | GCX
    | GCXBroadcast(width: nat)
    | GMeasure

  function KindOf(op: Op): Kind
  {
    match op
    case H(_) => HGate
    case RX(_, _) => RXGate
    case RY(_, _) => RYGate
    case RZ(_, _) => RZGate
    case CX(_, _) => CXGate
    case CXBroadcast(_, _) => CXBroadcastGate
    case Measure(_) => MeasureStep
  }

  function GateOf(op: Op): Gate
  {
    match op
    case H(_) => GH
    case RX(t, _) => GRX(t)
    case RY(t, _) => GRY(t)
    case RZ(t, _) => GRZ(t)
    case CX(_, _) => GCX
    case CXBroadcast(w, _) => GCXBroadcast(w)
    case Measure(_) => GMeasure
  }

  /** The qubit arguments (`qargs`) of an instruction, in argument order. */
  function Qubits(op: Op): seq<nat>
  {
    match op
    case H(q) => [q]
    case RX(_, q) => [q]
    case RY(_, q) => [q]
    case RZ(_, q) => [q]
    case CX(c, t) => [c, t]
    case CXBroadcast(_, qs) => qs
    case Measure(qs) => qs
  }

  /** The same operation appended with other qubit arguments: `append(operation, qs)`. */
  function Relabel(op: Op, qs: seq<nat>): (r: Op)
    requires |qs| == |Qubits(op)|
    ensures Qubits(r) == qs
    ensures GateOf(r) == GateOf(op) && KindOf(r) == KindOf(op)
  {
    match op
    case H(_) => H(qs[0])
    case RX(t, _) => RX(t, qs[0])
    case RY(t, _) => RY(t, qs[0])
    case RZ(t, _) => RZ(t, qs[0])
    case CX(_, _) => CX(qs[0], qs[1])
    case CXBroadcast(w, _) => CXBroadcast(w, qs)
    case Measure(_) => Measure(qs)
  }

  /** An instruction is determined by its operation and its qubit arguments. */
  lemma GateAndQubitsDetermineOp(a: Op, b: Op)
    requires GateOf(a) == GateOf(b) && Qubits(a) == Qubits(b)
    ensures a == b
  {
  }

  /** Appending an operation with its own qubits gives back the instruction. */
  lemma RelabelIdentity(op: Op)
    ensures Relabel(op, Qubits(op)) == op
  {
    GateAndQubitsDetermineOp(Relabel(op, Qubits(op)), op);
  }

  /** The list `[lo, lo+1, ..., hi-1]`, Python's `range(lo, hi)`. */
  function Range(lo: nat, hi: nat): (r: seq<nat>)
    ensures |r| == if hi <= lo then 0 else hi - lo
    ensures forall i :: 0 <= i < |r| ==> r[i] == lo + i
  {
    if hi <= lo then [] else seq(hi - lo, i => lo + i)
  }

  /**
   * The marker that stands for one `measure_all()` on an n-qubit circuit. Qiskit itself
   * records a barrier and then one measurement per qubit, each into its own classical bit
   * (see MeasureEach); the marker names the qubits that call measures.
   */
  function MeasureAll(n: nat): (op: Op)
    ensures KindOf(op) == MeasureStep && Qubits(op) == Range(0, n)
  {
    Measure(Range(0, n))
  }

  /**
   * The per-qubit measurements `measure_all()` records for qubits lo .. hi-1, in order,
   * without the barrier before them and without their classical bits.
   */
  function MeasureEach(lo: nat, hi: nat): (r: seq<Op>)
    ensures |r| == if hi <= lo then 0 else hi - lo
    ensures forall i :: 0 <= i < |r| ==> r[i] == Measure([lo + i])
  {
    if hi <= lo then [] else seq(hi - lo, (i: nat) => Measure([lo + i]))
  }

  /** Hadamard gates on qubits lo .. hi-1, in order (`qc.h(i)` for i in range(lo, hi)). */
  function HRange(lo: nat, hi: nat): (r: seq<Op>)
    ensures |r| == if hi <= lo then 0 else hi - lo
    ensures forall i :: 0 <= i < |r| ==> r[i] == H(lo + i)
  {
    if hi <= lo then [] else seq(hi - lo, (i: nat) => H(lo + i))
  }

  /** `qc.cx(c, t)` for each pair of the list, in order. */
  function CXOps(pairs: seq<(nat, nat)>): (r: seq<Op>)
    ensures |r| == |pairs|
    ensures forall i :: 0 <= i < |r| ==> r[i] == CX(pairs[i].0, pairs[i].1)
  {
    seq(|pairs|, i requires 0 <= i < |pairs| => CX(pairs[i].0, pairs[i].1))
  }

  /** Every qubit the instruction touches is an index of an n-qubit circuit. */
  predicate InRange(op: Op, n: nat)
  {
    forall i :: 0 <= i < |Qubits(op)| ==> Qubits(op)[i] < n
  }

  predicate AllInRange(ops: seq<Op>, n: nat)
  {
    forall k :: 0 <= k < |ops| ==> InRange(ops[k], n)
  }

  predicate PairsInRange(pairs: seq<(nat, nat)>, n: nat)
  {
    forall i :: 0 <= i < |pairs| ==> pairs[i].0 < n && pairs[i].1 < n
  }

  lemma AllInRangeAppend(a: seq<Op>, b: seq<Op>, n: nat)
    requires AllInRange(a, n) && AllInRange(b, n)
    ensures AllInRange(a + b, n)
  {
    forall k | 0 <= k < |a + b| ensures InRange((a + b)[k], n) {
      if k < |a| {
        assert (a + b)[k] == a[k];
      } else {
        assert (a + b)[k] == b[k - |a|];
      }
    }
  }

  /** The number of instructions of the given kind. */
  function Count(ops: seq<Op>, k: Kind): (c: nat)
  {
    if ops == [] then 0
    else Count(ops[..|ops| - 1], k) + (if KindOf(ops[|ops| - 1]) == k then 1 else 0)
  }

  lemma {:induction false} CountAppend(a: seq<Op>, b: seq<Op>, k: Kind)
    ensures Count(a + b, k) == Count(a, k) + Count(b, k)
    decreases |b|
  {
    if b == [] {
      assert a + b == a;
    } else {
      var b' := b[..|b| - 1];
      assert (a + b)[..|a + b| - 1] == a + b';
      CountAppend(a, b', k);
    }
  }

  /** Counting gates of one kind in H(lo..hi-1) and in a CX list. */
  lemma {:induction false} CountHRange(lo: nat, hi: nat, k: Kind)
    requires lo <= hi
    ensures Count(HRange(lo, hi), k) == if k == HGate then hi - lo else 0
    decreases hi - lo
  {
    if lo < hi {
      assert HRange(lo, hi)[..hi - 1 - lo] == HRange(lo, hi - 1);
      CountHRange(lo, hi - 1, k);
    }
  }

  lemma {:induction false} CountCXOps(pairs: seq<(nat, nat)>, k: Kind)
    ensures Count(CXOps(pairs), k) == if k == CXGate then |pairs| else 0
    decreases |pairs|
  {
    if pairs != [] {
      assert CXOps(pairs)[..|pairs| - 1] == CXOps(pairs[..|pairs| - 1]);
      CountCXOps(pairs[..|pairs| - 1], k);
    }
  }

  /**
   * A QuantumCircuit under construction: a fixed number of qubits and the
   * instruction list that the scripts grow with `qc.h`, `qc.cx`, `append`, ...
   */
  class Circuit {
    const n: nat
    var ops: seq<Op>

    /** Qiskit refuses any instruction on a qubit index outside the circuit. */
    ghost predicate Valid()
      reads this
    {
      AllInRange(ops, n)
    }

    /** `QuantumCircuit(n)`: an empty circuit on n qubits. */
    constructor (n: nat)
      ensures this.n == n && ops == [] && Valid()
    {
      this.n := n;
      ops := [];
    }

    /** `qc.h(q)`, `qc.rx(theta, q)`, `qc.cx(c, t)`, `append(op, qargs)`: one instruction at the end. */
    method Append(op: Op)
      requires Valid() && InRange(op, n)
      modifies this
      ensures Valid() && ops == old(ops) + [op]
    {
      ops := ops + [op];
    }

    /** `qc.measure_all()`: the measure step over every qubit, at the end. */
    method MeasureAllQubits()
      requires Valid()
      modifies this
      ensures Valid() && ops == old(ops) + [MeasureAll(n)]
    {
      ops := ops + [MeasureAll(n)];
    }
  }
}
