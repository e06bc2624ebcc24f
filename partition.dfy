/**
 * Cutting a circuit into sub-circuits by qubit, and putting circuits side by side.
 *
 * Every cutter of the scripts walks the parent's instruction list once, maps each
 * qubit argument through a rule, keeps an instruction exactly when every one of its
 * qubits maps, and appends the relabelled instruction to the sub-circuit. The rules
 * differ only in how a qubit maps, so they are one `Selector` each and share `Restrict`.
 */
module Partition {
  import opened Wrappers
  import opened Circuits
  import opened Pairs
  import opened Brickwork

  // ---------------------------------------------------------------- the index map

  /**
   * `{original: new for new, original in enumerate(qubits)}`: every listed qubit maps to
   * a position where it occurs, the last one when it is listed more than once.
   */
  function IndexMap(qubits: seq<nat>): (m: map<nat, nat>)
    ensures forall q :: q in m <==> q in qubits
    ensures forall q :: q in m ==> m[q] < |qubits| && qubits[m[q]] == q
  {
    if qubits == [] then map[]
    else IndexMap(qubits[..|qubits| - 1])[qubits[|qubits| - 1] := |qubits| - 1]
  }

  /** A qubit listed more than once maps to its last occurrence: the later entry overwrites the earlier. */
  lemma {:induction false} IndexMapLast(qubits: seq<nat>)
    ensures forall q, j :: q in IndexMap(qubits) && IndexMap(qubits)[q] < j < |qubits| ==> qubits[j] != q
  {
    if qubits != [] {
      var init, last := qubits[..|qubits| - 1], qubits[|qubits| - 1];
      IndexMapLast(init);
      var m, m0 := IndexMap(qubits), IndexMap(init);
      forall q, j | q in m && m[q] < j < |qubits| ensures qubits[j] != q {
        if q != last {
          assert m[q] == m0[q];
          if j < |init| {
            assert qubits[j] == init[j];
          }
        }
      }
    }
  }

  predicate NoRepeats(qubits: seq<nat>)
  {
    forall i, j :: 0 <= i < j < |qubits| ==> qubits[i] != qubits[j]
  }

  /** For a list without repeats, `qubits[k]` maps to k: a bijection onto 0 .. len(qubits)-1. */
  lemma IndexMapBijection(qubits: seq<nat>)
    requires NoRepeats(qubits)
    ensures forall k :: 0 <= k < |qubits| ==> qubits[k] in IndexMap(qubits) && IndexMap(qubits)[qubits[k]] == k
    ensures forall q, r :: q in IndexMap(qubits) && r in IndexMap(qubits) && q != r ==>
              IndexMap(qubits)[q] != IndexMap(qubits)[r]
  {
    var m := IndexMap(qubits);
    forall k | 0 <= k < |qubits| ensures qubits[k] in m && m[qubits[k]] == k {
      assert qubits[k] in qubits;
    }
  }

  // ---------------------------------------------------------------- selecting and relabelling

  /** How one cutter maps a parent qubit into its sub-circuit; None drops the instruction. */
  datatype Selector =
      /** create_sub_circuit: `qubit_mapping.get(q, None)` */
    | ByMap(m: map<nat, nat>)
      /** extract_subcircuit: `q in range(start, end)`, then `q - start` */
    | ByRange(start: nat, end: nat)
      /** the first half of split_into_subcircuits: `q < bound`, unchanged */
    | Below(bound: nat)
      /** the second half of split_into_subcircuits: `q >= bound`, then `q - bound` */
    | AtOrAbove(bound: nat)

  function MapQubit(sel: Selector, q: nat): Option<nat>
  {
    match sel
    case ByMap(m) => if q in m then Some(m[q]) else None
    case ByRange(start, end) => if start <= q < end then Some(q - start) else None
    case Below(b) => if q < b then Some(q) else None
    case AtOrAbove(b) => if b <= q then Some(q - b) else None
  }

  predicate AllMapped(sel: Selector, qs: seq<nat>)
  {
    forall i :: 0 <= i < |qs| ==> MapQubit(sel, qs[i]).Some?
  }

  function MapQubits(sel: Selector, qs: seq<nat>): seq<nat>
    requires AllMapped(sel, qs)
  {
    seq(|qs|, i requires 0 <= i < |qs| && AllMapped(sel, qs) => MapQubit(sel, qs[i]).value)
  }

  /** The instruction as the sub-circuit receives it, or None when one of its qubits is not selected. */
  function Project(sel: Selector, op: Op): (r: Option<Op>)
    ensures r.Some? <==> AllMapped(sel, Qubits(op))
    ensures r.Some? ==> GateOf(r.value) == GateOf(op) && |Qubits(r.value)| == |Qubits(op)|
  {
    if AllMapped(sel, Qubits(op)) then Some(Relabel(op, MapQubits(sel, Qubits(op)))) else None
  }

  /** The kept instruction's i-th qubit is the mapped i-th qubit of the parent instruction. */
  lemma ProjectQubits(sel: Selector, op: Op)
    requires AllMapped(sel, Qubits(op))
    ensures forall i :: 0 <= i < |Qubits(op)| ==> Qubits(Project(sel, op).value)[i] == MapQubit(sel, Qubits(op)[i]).value
  {
  }

  /** The values of the present entries, in order: what survives when every None is dropped. */
  function Somes<T>(xs: seq<Option<T>>): seq<T>
  {
    if xs == [] then []
    else
      match xs[0]
      case None => Somes(xs[1..])
      case Some(v) => [v] + Somes(xs[1..])
  }

  lemma {:induction false} SomesAppend<T>(a: seq<Option<T>>, b: seq<Option<T>>)
    ensures Somes(a + b) == Somes(a) + Somes(b)
    decreases |a|
  {
    if a == [] {
      assert a + b == b;
    } else {
      assert (a + b)[0] == a[0] && (a + b)[1..] == a[1..] + b;
      SomesAppend(a[1..], b);
    }
  }

  lemma SomesOne<T>(x: Option<T>)
    ensures x.None? ==> Somes([x]) == []
    ensures x.Some? ==> Somes([x]) == [x.value]
  {
    assert [x][1..] == [];
  }

  /** Every value that survives is the value of an entry. */
  lemma {:induction false} SomesSound<T>(xs: seq<Option<T>>)
    ensures forall v :: v in Somes(xs) ==> Some(v) in xs
    decreases |xs|
  {
    if xs != [] {
      SomesSound(xs[1..]);
      assert forall v :: Some(v) in xs[1..] ==> Some(v) in xs;
    }
  }

  /** Every present entry survives. */
  lemma {:induction false} SomesComplete<T>(xs: seq<Option<T>>, k: nat)
    requires k < |xs| && xs[k].Some?
    ensures xs[k].value in Somes(xs)
    decreases k
  {
    if k > 0 {
      assert xs[1..][k - 1] == xs[k];
      SomesComplete(xs[1..], k - 1);
    }
  }

  lemma {:induction false} SomesAllSome<T>(xs: seq<Option<T>>)
    requires forall k :: 0 <= k < |xs| ==> xs[k].Some?
    ensures |Somes(xs)| == |xs|
    ensures forall k :: 0 <= k < |xs| ==> Somes(xs)[k] == xs[k].value
    decreases |xs|
  {
    if xs != [] {
      var rest := xs[1..];
      assert forall k :: 0 <= k < |rest| ==> rest[k] == xs[k + 1];
      SomesAllSome(rest);
    }
  }

  lemma {:induction false} SomesAllNone<T>(xs: seq<Option<T>>)
    requires forall k :: 0 <= k < |xs| ==> xs[k].None?
    ensures Somes(xs) == []
    decreases |xs|
  {
    if xs != [] {
      var rest := xs[1..];
      assert forall k :: 0 <= k < |rest| ==> rest[k] == xs[k + 1];
      SomesAllNone(rest);
    }
  }

  /** Each parent instruction as its sub-circuit would receive it, or None. */
  function Projections(ops: seq<Op>, sel: Selector): (r: seq<Option<Op>>)
    ensures |r| == |ops| && forall k :: 0 <= k < |ops| ==> r[k] == Project(sel, ops[k])
  {
    seq(|ops|, k requires 0 <= k < |ops| => Project(sel, ops[k]))
  }

  lemma ProjectionsAppend(a: seq<Op>, b: seq<Op>, sel: Selector)
    ensures Projections(a + b, sel) == Projections(a, sel) + Projections(b, sel)
  {
    if a == [] {
      assert a + b == b;
      assert [] + Projections(b, sel) == Projections(b, sel);
    } else {
      var l, r := Projections(a + b, sel), Projections(a, sel) + Projections(b, sel);
      forall k | 0 <= k < |l| ensures l[k] == r[k] {
        if k < |a| {
          assert (a + b)[k] == a[k];
        } else {
          assert (a + b)[k] == b[k - |a|];
        }
      }
    }
  }

  /**
   * The instructions a cutter's loop appends, in parent order: every instruction whose
   * qubits all map, relabelled; the others are skipped.
   */
  function Restrict(ops: seq<Op>, sel: Selector): seq<Op>
  {
    Somes(Projections(ops, sel))
  }

  /**
   * Cutting distributes over concatenation: what a prefix contributes comes before what
   * the rest contributes, so kept instructions keep their relative order.
   */
  lemma RestrictAppend(a: seq<Op>, b: seq<Op>, sel: Selector)
    ensures Restrict(a + b, sel) == Restrict(a, sel) + Restrict(b, sel)
  {
    ProjectionsAppend(a, b, sel);
    SomesAppend(Projections(a, sel), Projections(b, sel));
  }

  /** One more instruction of the parent: the cut grows by it, relabelled, or not at all. */
  lemma RestrictStep(ops: seq<Op>, i: nat, sel: Selector)
    requires i < |ops|
    ensures Project(sel, ops[i]).None? ==> Restrict(ops[..i + 1], sel) == Restrict(ops[..i], sel)
    ensures Project(sel, ops[i]).Some? ==> Restrict(ops[..i + 1], sel) == Restrict(ops[..i], sel) + [Project(sel, ops[i]).value]
  {
    assert ops[..i + 1] == ops[..i] + [ops[i]];
    RestrictAppend(ops[..i], [ops[i]], sel);
    assert Projections([ops[i]], sel) == [Project(sel, ops[i])];
    SomesOne(Project(sel, ops[i]));
    if Project(sel, ops[i]).None? {
      assert Restrict(ops[..i], sel) + [] == Restrict(ops[..i], sel);
    }
  }

  /** Everything in the sub-circuit is the relabelling of a parent instruction whose qubits all map. */
  lemma RestrictSound(ops: seq<Op>, sel: Selector)
    ensures forall x :: x in Restrict(ops, sel) ==> exists k :: 0 <= k < |ops| && Project(sel, ops[k]) == Some(x)
  {
    var ps := Projections(ops, sel);
    SomesSound(ps);
    forall x | x in Restrict(ops, sel) ensures exists k :: 0 <= k < |ops| && Project(sel, ops[k]) == Some(x) {
      var k :| 0 <= k < |ps| && ps[k] == Some(x);
    }
  }

  /** Every parent instruction whose qubits all map reaches the sub-circuit, relabelled. */
  lemma RestrictComplete(ops: seq<Op>, sel: Selector, k: nat)
    requires k < |ops| && AllMapped(sel, Qubits(ops[k]))
    ensures Project(sel, ops[k]).value in Restrict(ops, sel)
  {
    SomesComplete(Projections(ops, sel), k);
  }

  /** When every instruction is selected, the sub-circuit is the parent relabelled one for one. */
  lemma RestrictAllKept(ops: seq<Op>, sel: Selector)
    requires forall k :: 0 <= k < |ops| ==> Project(sel, ops[k]).Some?
    ensures |Restrict(ops, sel)| == |ops|
    ensures forall k :: 0 <= k < |ops| ==> Restrict(ops, sel)[k] == Project(sel, ops[k]).value
  {
    SomesAllSome(Projections(ops, sel));
  }

  /** When no instruction is selected, the sub-circuit receives nothing. */
  lemma RestrictAllDropped(ops: seq<Op>, sel: Selector)
    requires forall k :: 0 <= k < |ops| ==> Project(sel, ops[k]).None?
    ensures Restrict(ops, sel) == []
  {
    SomesAllNone(Projections(ops, sel));
  }

  /** Two selectors that agree on every qubit below n cut an n-qubit circuit the same way. */
  lemma RestrictSameOn(ops: seq<Op>, s1: Selector, s2: Selector, n: nat)
    requires AllInRange(ops, n)
    requires forall q: nat :: q < n ==> MapQubit(s1, q) == MapQubit(s2, q)
    ensures Restrict(ops, s1) == Restrict(ops, s2)
  {
    forall k | 0 <= k < |ops| ensures Project(s1, ops[k]) == Project(s2, ops[k]) {
      assert InRange(ops[k], n);
      var qs := Qubits(ops[k]);
      if AllMapped(s1, qs) {
        assert MapQubits(s1, qs) == MapQubits(s2, qs);
      }
    }
    assert Projections(ops, s1) == Projections(ops, s2);
  }

  /** The widest sub-circuit index a selector can produce from qubits below n is below w. */
  predicate Fits(sel: Selector, n: nat, w: nat)
  {
    forall q: nat :: q < n && MapQubit(sel, q).Some? ==> MapQubit(sel, q).value < w
  }

  lemma {:induction false} RestrictInRange(ops: seq<Op>, sel: Selector, n: nat, w: nat)
    requires AllInRange(ops, n) && Fits(sel, n, w)
    ensures AllInRange(Restrict(ops, sel), w)
  {
    RestrictSound(ops, sel);
    var r := Restrict(ops, sel);
    forall j | 0 <= j < |r| ensures InRange(r[j], w) {
      assert r[j] in r;
      var k :| 0 <= k < |ops| && Project(sel, ops[k]) == Some(r[j]);
      assert InRange(ops[k], n);
    }
  }

  // ---------------------------------------------------------------- agreement between the cutters

  /** Mapping through the index map of `range(lo, hi)` is `q in range(lo, hi)`, then `q - lo`. */
  lemma IndexMapOfRange(lo: nat, hi: nat)
    ensures forall q: nat :: MapQubit(ByMap(IndexMap(Range(lo, hi))), q) == MapQubit(ByRange(lo, hi), q)
  {
    forall q: nat ensures MapQubit(ByMap(IndexMap(Range(lo, hi))), q) == MapQubit(ByRange(lo, hi), q) {
      IndexMapOfRangeAt(lo, hi, q);
    }
  }

  lemma IndexMapOfRangeAt(lo: nat, hi: nat, q: nat)
    ensures MapQubit(ByMap(IndexMap(Range(lo, hi))), q) == MapQubit(ByRange(lo, hi), q)
  {
    if lo <= q < hi {
      IndexMapRangeInside(lo, hi, q);
    } else {
      IndexMapRangeOutside(lo, hi, q);
    }
  }

  lemma IndexMapRangeInside(lo: nat, hi: nat, q: nat)
    requires lo <= q < hi
    ensures q in IndexMap(Range(lo, hi)) && IndexMap(Range(lo, hi))[q] == q - lo
  {
    var qs := Range(lo, hi);
    assert qs[q - lo] == q;
  }

  lemma IndexMapRangeOutside(lo: nat, hi: nat, q: nat)
    requires !(lo <= q < hi)
    ensures q !in IndexMap(Range(lo, hi))
  {
    var qs := Range(lo, hi);
    assert forall j :: 0 <= j < |qs| ==> qs[j] != q;
  }

  /**
   * extract_subcircuit(c, start, end) of sixty-part7.py keeps and relabels exactly what
   * create_sub_circuit(c, list(range(start, end))) of sixty-part14.py does.
   */
  lemma ExtractIsSubCircuit(ops: seq<Op>, start: nat, end: nat)
    ensures Restrict(ops, ByRange(start, end)) == Restrict(ops, ByMap(IndexMap(Range(start, end))))
  {
    IndexMapOfRange(start, end);
    var n := MaxQubit(ops);
    RestrictSameOn(ops, ByRange(start, end), ByMap(IndexMap(Range(start, end))), n);
  }

  /**
   * A proof helper, not a step of any script: one more than the largest qubit index used,
   * so every instruction lies below it.
   */
  function MaxQubit(ops: seq<Op>): (n: nat)
    ensures AllInRange(ops, n)
  {
    if ops == [] then 0
    else
      var n0 := MaxQubit(ops[..|ops| - 1]);
      var n1 := MaxOf(Qubits(ops[|ops| - 1]));
      var n := if n0 < n1 then n1 else n0;
      assert forall k :: 0 <= k < |ops| - 1 ==> ops[k] == ops[..|ops| - 1][k];
      n
  }

  /** A proof helper for MaxQubit: one more than the largest listed qubit. */
  function MaxOf(qs: seq<nat>): (n: nat)
    ensures forall i :: 0 <= i < |qs| ==> qs[i] < n
  {
    if qs == [] then 0
    else
      var n0 := MaxOf(qs[..|qs| - 1]);
      assert forall i :: 0 <= i < |qs| - 1 ==> qs[i] == qs[..|qs| - 1][i];
      if n0 <= qs[|qs| - 1] then qs[|qs| - 1] + 1 else n0
  }

  /**
   * The two loops of split_into_subcircuits in divide-sixty2.py are extract_subcircuit on
   * [0, b) and on [b, n), for a circuit of n qubits.
   */
  lemma SplitIsExtract(ops: seq<Op>, b: nat, n: nat)
    requires AllInRange(ops, n)
    ensures Restrict(ops, Below(b)) == Restrict(ops, ByRange(0, b))
    ensures Restrict(ops, AtOrAbove(b)) == Restrict(ops, ByRange(b, n))
  {
    RestrictSameOn(ops, Below(b), ByRange(0, b), n);
    RestrictSameOn(ops, AtOrAbove(b), ByRange(b, n), n);
  }

  // ---------------------------------------------------------------- the cutting methods

  /**
   * The loop every cutter runs: `for instruction in parent.data`, map its qubits, and
   * append it to `sub` when all of them map.
   */
  method AppendRestricted(sub: Circuit, ops: seq<Op>, sel: Selector, ghost n: nat)
    requires sub.Valid() && AllInRange(ops, n) && Fits(sel, n, sub.n)
    modifies sub
    ensures sub.Valid() && |sub.ops| == |old(sub.ops)| + |Restrict(ops, sel)|
    ensures sub.ops[..|old(sub.ops)|] == old(sub.ops)
    ensures sub.ops[|old(sub.ops)|..] == Restrict(ops, sel)
  {
    var i := 0;
    while i < |ops|
      invariant 0 <= i <= |ops|
      invariant sub.Valid() && sub.ops == old(sub.ops) + Restrict(ops[..i], sel)
    {
      var p := Project(sel, ops[i]);
      if p.Some? {
        assert InRange(ops[i], n);
        ProjectQubits(sel, ops[i]);
        sub.Append(p.value);
      }
      RestrictStep(ops, i, sel);
      i := i + 1;
    }
    assert ops[..i] == ops;
  }

  /** `create_sub_circuit(full_circuit, qubits)` of sixty-part14.py and sixty-part15.py. */
  method CreateSubCircuit(full: Circuit, qubits: seq<nat>) returns (sub: Circuit)
    ensures fresh(sub) && sub.Valid() && sub.n == |qubits|
    ensures sub.ops == Restrict(full.ops, ByMap(IndexMap(qubits))) + [MeasureAll(|qubits|)]
  {
    var mapping := IndexMap(qubits);
    sub := new Circuit(|qubits|);
    ghost var n := MaxQubit(full.ops);
    assert Fits(ByMap(mapping), n, |qubits|) by {
      forall q: nat | q < n && MapQubit(ByMap(mapping), q).Some? ensures MapQubit(ByMap(mapping), q).value < |qubits| {
        assert q in mapping;
      }
    }
    AppendRestricted(sub, full.ops, ByMap(mapping), n);
    assert sub.ops == sub.ops[0..];
    sub.MeasureAllQubits();
  }

  /** `extract_subcircuit(circuit, start, end)` of sixty-part7.py; a negative width would make QuantumCircuit raise. */
  method ExtractSubcircuit(circuit: Circuit, start: nat, end: nat) returns (sub: Circuit)
    requires start <= end
    ensures fresh(sub) && sub.Valid() && sub.n == end - start
    ensures sub.ops == Restrict(circuit.ops, ByRange(start, end)) + [MeasureAll(end - start)]
  {
    sub := new Circuit(end - start);
    AppendRestricted(sub, circuit.ops, ByRange(start, end), MaxQubit(circuit.ops));
    assert sub.ops == sub.ops[0..];
    sub.MeasureAllQubits();
  }

  /**
   * `split_into_subcircuits(qc)` of divide-sixty2.py: two passes over the parent, one per
   * 30-qubit half. A parent wider than 60 qubits would make the second half's append raise.
   */
  method SplitIntoSubcircuits(qc: Circuit) returns (qc1: Circuit, qc2: Circuit)
    requires qc.Valid() && qc.n <= 60
    ensures fresh(qc1) && fresh(qc2)
    ensures qc1.Valid() && qc1.n == 30 && qc1.ops == Restrict(qc.ops, Below(30))
    ensures qc2.Valid() && qc2.n == 30 && qc2.ops == Restrict(qc.ops, AtOrAbove(30))
  {
    qc1 := new Circuit(30);
    qc2 := new Circuit(30);
    AppendRestricted(qc1, qc.ops, Below(30), qc.n);
    AppendRestricted(qc2, qc.ops, AtOrAbove(30), qc.n);
    assert qc1.ops == qc1.ops[0..] && qc2.ops == qc2.ops[0..];
  }

  // ---------------------------------------------------------------- placing circuits side by side

  /** The instruction moved up by d qubits: `compose(other, qubits=range(d, d + other.num_qubits))`. */
  function Shift(op: Op, d: nat): (r: Op)
    ensures GateOf(r) == GateOf(op) && |Qubits(r)| == |Qubits(op)|
    ensures forall i :: 0 <= i < |Qubits(op)| ==> Qubits(r)[i] == Qubits(op)[i] + d
  {
    Relabel(op, seq(|Qubits(op)|, i requires 0 <= i < |Qubits(op)| => Qubits(op)[i] + d))
  }

  function Shifted(ops: seq<Op>, d: nat): (r: seq<Op>)
    ensures |r| == |ops| && forall k :: 0 <= k < |ops| ==> r[k] == Shift(ops[k], d)
  {
    seq(|ops|, k requires 0 <= k < |ops| => Shift(ops[k], d))
  }

  /** `qc.compose(other, qubits=range(offset, offset + other.num_qubits), inplace=True)` */
  method Compose(qc: Circuit, other: Circuit, offset: nat)
    requires qc.Valid() && other.Valid() && offset + other.n <= qc.n
    modifies qc
    ensures qc.Valid() && |qc.ops| == |old(qc.ops)| + |old(other.ops)|
    ensures qc.ops[..|old(qc.ops)|] == old(qc.ops)
    ensures qc.ops[|old(qc.ops)|..] == Shifted(old(other.ops), offset)
  {
    var src := other.ops;
    var i := 0;
    while i < |src|
      invariant 0 <= i <= |src|
      invariant qc.Valid() && qc.ops == old(qc.ops) + Shifted(src[..i], offset)
    {
      assert InRange(src[i], other.n);
      qc.Append(Shift(src[i], offset));
      assert Shifted(src[..i + 1], offset) == Shifted(src[..i], offset) + [Shift(src[i], offset)];
      i := i + 1;
    }
    assert src[..i] == src;
  }

  /** `combine_circuits(circuit1, circuit2)` of sixty-part4.py. */
  method CombineCircuits(c1: Circuit, c2: Circuit) returns (combined: Circuit)
    requires c1.Valid() && c2.Valid()
    ensures fresh(combined) && combined.Valid() && combined.n == c1.n + c2.n
    ensures combined.ops == c1.ops + Shifted(c2.ops, c1.n)
  {
    combined := new Circuit(c1.n + c2.n);
    Compose(combined, c1, 0);
    ShiftedZero(c1.ops);
    assert combined.ops == combined.ops[0..];
    Compose(combined, c2, c1.n);
  }

  /** Every instruction names at least one qubit (measure_all on a circuit with qubits, any gate). */
  predicate Touching(ops: seq<Op>)
  {
    forall k :: 0 <= k < |ops| ==> |Qubits(ops[k])| > 0
  }

  /**
   * Side by side, no instruction touches both parts: each lies wholly below n1 or wholly
   * in [n1, n1 + n2); the instruction count is the sum of the two.
   */
  lemma CombineNoCrossing(a: seq<Op>, b: seq<Op>, n1: nat, n2: nat)
    requires AllInRange(a, n1) && AllInRange(b, n2)
    ensures |a + Shifted(b, n1)| == |a| + |b|
    ensures forall k :: 0 <= k < |a + Shifted(b, n1)| ==>
              var qs := Qubits((a + Shifted(b, n1))[k]);
              (forall i :: 0 <= i < |qs| ==> qs[i] < n1) || (forall i :: 0 <= i < |qs| ==> n1 <= qs[i] < n1 + n2)
  {
    var c := a + Shifted(b, n1);
    forall k | 0 <= k < |c|
      ensures var qs := Qubits(c[k]);
              (forall i :: 0 <= i < |qs| ==> qs[i] < n1) || (forall i :: 0 <= i < |qs| ==> n1 <= qs[i] < n1 + n2)
    {
      if k < |a| {
        assert c[k] == a[k] && InRange(a[k], n1);
      } else {
        assert c[k] == Shift(b[k - |a|], n1) && InRange(b[k - |a|], n2);
      }
    }
  }

  /** Cutting out the block a circuit was shifted into gives the circuit back. */
  lemma {:induction false} RestrictUnshift(b: seq<Op>, d: nat, w: nat)
    requires AllInRange(b, w)
    ensures Restrict(Shifted(b, d), ByRange(d, d + w)) == b
  {
    var sb := Shifted(b, d);
    forall k | 0 <= k < |sb| ensures Project(ByRange(d, d + w), sb[k]) == Some(b[k]) {
      assert InRange(b[k], w);
      var p := Project(ByRange(d, d + w), sb[k]);
      assert AllMapped(ByRange(d, d + w), Qubits(sb[k]));
      ProjectQubits(ByRange(d, d + w), sb[k]);
      GateAndQubitsDetermineOp(p.value, b[k]);
    }
    RestrictAllKept(sb, ByRange(d, d + w));
  }

  /** A circuit on qubits below n loses every instruction to extract_subcircuit(lo, hi) with n <= lo. */
  lemma {:induction false} RestrictBelowStart(ops: seq<Op>, n: nat, lo: nat, hi: nat)
    requires AllInRange(ops, n) && Touching(ops) && n <= lo
    ensures Restrict(ops, ByRange(lo, hi)) == []
  {
    forall k | 0 <= k < |ops| ensures Project(ByRange(lo, hi), ops[k]).None? {
      assert InRange(ops[k], n);
      assert !MapQubit(ByRange(lo, hi), Qubits(ops[k])[0]).Some?;
    }
    RestrictAllDropped(ops, ByRange(lo, hi));
  }

  /** A circuit shifted to d or above loses every instruction to extract_subcircuit(lo, hi) with hi <= d. */
  lemma {:induction false} RestrictShiftedPastEnd(b: seq<Op>, d: nat, lo: nat, hi: nat)
    requires Touching(b) && hi <= d
    ensures Restrict(Shifted(b, d), ByRange(lo, hi)) == []
  {
    var sb := Shifted(b, d);
    forall k | 0 <= k < |sb| ensures Project(ByRange(lo, hi), sb[k]).None? {
      assert Qubits(sb[k])[0] == Qubits(b[k])[0] + d;
      assert !MapQubit(ByRange(lo, hi), Qubits(sb[k])[0]).Some?;
    }
    RestrictAllDropped(sb, ByRange(lo, hi));
  }

  lemma ShiftedZero(a: seq<Op>)
    ensures Shifted(a, 0) == a
  {
    forall k | 0 <= k < |a| ensures Shift(a[k], 0) == a[k] {
      GateAndQubitsDetermineOp(Shift(a[k], 0), a[k]);
    }
  }

  /**
   * Cutting a combined circuit at the seam gives back both parts unchanged: extract_subcircuit
   * on [0, n1) and on [n1, n1 + n2) undoes combine_circuits.
   */
  lemma {:induction false} CombineThenExtract(a: seq<Op>, b: seq<Op>, n1: nat, n2: nat)
    requires AllInRange(a, n1) && AllInRange(b, n2) && Touching(a) && Touching(b)
    ensures Restrict(a + Shifted(b, n1), ByRange(0, n1)) == a
    ensures Restrict(a + Shifted(b, n1), ByRange(n1, n1 + n2)) == b
  {
    CombineThenExtractLow(a, b, n1);
    CombineThenExtractHigh(a, b, n1, n2);
  }

  lemma {:induction false} CombineThenExtractLow(a: seq<Op>, b: seq<Op>, n1: nat)
    requires AllInRange(a, n1) && Touching(b)
    ensures Restrict(a + Shifted(b, n1), ByRange(0, n1)) == a
  {
    var sel, sb := ByRange(0, n1), Shifted(b, n1);
    assert Restrict(a, sel) == a by {
      ShiftedZero(a);
      RestrictUnshift(a, 0, n1);
    }
    assert Restrict(sb, sel) == [] by {
      RestrictShiftedPastEnd(b, n1, 0, n1);
    }
    RestrictAppend(a, sb, sel);
    assert a + [] == a;
  }

  lemma {:induction false} CombineThenExtractHigh(a: seq<Op>, b: seq<Op>, n1: nat, n2: nat)
    requires AllInRange(a, n1) && AllInRange(b, n2) && Touching(a)
    ensures Restrict(a + Shifted(b, n1), ByRange(n1, n1 + n2)) == b
  {
    SecondPartKept(a, b, n1, n2);
    FirstPartDropped(a, b, n1, n2);
    RestrictAppend(a, Shifted(b, n1), ByRange(n1, n1 + n2));
    assert [] + b == b;
  }

  lemma {:induction false} SecondPartKept(a: seq<Op>, b: seq<Op>, n1: nat, n2: nat)
    requires AllInRange(a, n1) && AllInRange(b, n2) && Touching(a)
    ensures Restrict(Shifted(b, n1), ByRange(n1, n1 + n2)) == b
  {
    var sel, sb := ByRange(n1, n1 + n2), Shifted(b, n1);
    assert Restrict(sb, sel) == b by {
      RestrictUnshift(b, n1, n2);
    }
  }

  lemma {:induction false} FirstPartDropped(a: seq<Op>, b: seq<Op>, n1: nat, n2: nat)
    requires AllInRange(a, n1) && AllInRange(b, n2) && Touching(a)
    ensures Restrict(a, ByRange(n1, n1 + n2)) == []
  {
    var sel := ByRange(n1, n1 + n2);
    assert Restrict(a, sel) == [] by {
      RestrictBelowStart(a, n1, n1, n1 + n2);
    }
  }
}
