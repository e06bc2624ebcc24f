/**
 * The two-qubit connectivity lists of the brickwork scripts: the staggered
 * nearest-neighbour pairs `[(i, i+1) for i in range(start, stop, 2)]`, the
 * stride-2 selection `for i in range(p, len(xs), 2)` used on flat pair lists,
 * and the all-to-all `coupling_map` of sixty-part4.py.
 */
module Pairs {

  /** The number of elements of Python's `range(start, stop, 2)`. */
  function StepCount(start: nat, stop: int): nat
  {
    if stop <= start then 0 else (stop - start + 1) / 2
  }

  /**
   * `[(i, i+1) for i in range(start, stop, 2)]`: element k is (start + 2k, start + 2k + 1),
   * and there are as many as the range has steps.
   */
  function StaggeredPairs(start: nat, stop: int): (r: seq<(nat, nat)>)
    ensures |r| == StepCount(start, stop)
    ensures forall k :: 0 <= k < |r| ==> r[k] == (start + 2 * k, start + 2 * k + 1)
  {
    seq(StepCount(start, stop), k => (start + 2 * k, start + 2 * k + 1))
  }

  /** Every index in the list is at most `stop`, so all are below n when stop <= n - 1. */
  lemma StaggeredPairsInRange(start: nat, stop: int, n: nat)
    requires stop < n
    ensures forall i :: 0 <= i < |StaggeredPairs(start, stop)| ==>
              StaggeredPairs(start, stop)[i].0 < n && StaggeredPairs(start, stop)[i].1 < n
  {
  }

  /** No two pairs of one list share a qubit: each brickwork layer acts on disjoint pairs. */
  lemma StaggeredPairsDisjoint(start: nat, stop: int)
    ensures forall i, j :: 0 <= i < j < |StaggeredPairs(start, stop)| ==>
              var p, q := StaggeredPairs(start, stop)[i], StaggeredPairs(start, stop)[j];
              p.0 != q.0 && p.0 != q.1 && p.1 != q.0 && p.1 != q.1
  {
  }

  /** One more step of the loop `for i in range(start, stop, 2)`. */
  lemma StaggeredPairsSnoc(start: nat, i: nat)
    requires start <= i && (i - start) % 2 == 0
    ensures StaggeredPairs(start, i + 2) == StaggeredPairs(start, i) + [(i, i + 1)]
  {
    var a, b := StaggeredPairs(start, i + 2), StaggeredPairs(start, i) + [(i, i + 1)];
    assert |a| == |b|;
    forall k | 0 <= k < |a| ensures a[k] == b[k] {
      if k < |StaggeredPairs(start, i)| {
        assert b[k] == StaggeredPairs(start, i)[k];
      }
    }
  }

  /** A loop index that stepped past `stop` by at most one stands for the same range. */
  lemma StaggeredPairsStop(start: nat, i: nat, stop: int)
    requires start <= i && (i - start) % 2 == 0
    requires stop <= i && (i <= stop + 1 || i == start)
    ensures StaggeredPairs(start, i) == StaggeredPairs(start, stop)
  {
  }

  /** Splitting the range at an aligned point m. */
  lemma StaggeredPairsSplit(start: nat, m: nat, stop: int)
    requires start <= m && (m - start) % 2 == 0 && m <= stop
    ensures StaggeredPairs(start, stop) == StaggeredPairs(start, m) + StaggeredPairs(m, stop)
  {
    var a, b, c := StaggeredPairs(start, stop), StaggeredPairs(start, m), StaggeredPairs(m, stop);
    assert |a| == |b| + |c|;
    forall k | 0 <= k < |a| ensures a[k] == (b + c)[k] {
      if k >= |b| {
        assert (b + c)[k] == c[k - |b|];
      }
    }
  }

  /** `[xs[i] for i in range(start, len(xs), 2)]`: every other element, from `start`. */
  function Stride<T>(xs: seq<T>, start: nat): seq<T>
    decreases |xs| - start
  {
    if |xs| <= start then [] else [xs[start]] + Stride(xs, start + 2)
  }

  lemma {:induction false} StrideSnoc<T>(xs: seq<T>, start: nat, i: nat)
    requires start <= i < |xs| && (i - start) % 2 == 0
    ensures Stride(xs[..i + 1], start) == Stride(xs[..i], start) + [xs[i]]
    ensures i + 1 < |xs| ==> Stride(xs[..i + 1], start) == Stride(xs[..i + 2], start)
    decreases i - start
  {
    if start < i {
      StrideSnoc(xs, start + 2, i);
      assert xs[..i + 1][start] == xs[start];
      assert xs[..i][start] == xs[start];
      if i + 1 < |xs| {
        assert xs[..i + 2][start] == xs[start];
      }
    }
  }

  lemma {:induction false} StridePrefix<T>(xs: seq<T>, start: nat, i: nat)
    requires start <= i <= |xs| && (i - start) % 2 == 0
    ensures Stride(xs[..i], start) + Stride(xs, i) == Stride(xs, start)
    decreases i - start
  {
    if start < i {
      StridePrefix(xs, start + 2, i);
      assert xs[..i][start] == xs[start];
    }
  }

  /** The stride selection keeps exactly the elements at positions start, start+2, ... */
  lemma {:induction false} StrideAt<T>(xs: seq<T>, start: nat)
    ensures |Stride(xs, start)| == StepCount(start, |xs|)
    ensures forall k :: 0 <= k < |Stride(xs, start)| ==> Stride(xs, start)[k] == xs[start + 2 * k]
    decreases |xs| - start
  {
    if start < |xs| {
      StrideAt(xs, start + 2);
      var r := Stride(xs, start);
      forall k | 0 < k < |r|
        ensures r[k] == xs[start + 2 * k]
      {
        assert r[k] == Stride(xs, start + 2)[k - 1];
      }
    }
  }

  /**
   * The coupling map of sixty-part4.py, `[[i, j] for i in range(n) for j in range(i+1, n)]`,
   * built row by row: the row of i holds (i, j) for j from i+1 to n-1.
   */
  function CouplingRow(i: nat, j: nat, n: nat): seq<(nat, nat)>
    decreases n - j
  {
    if n <= j then [] else [(i, j)] + CouplingRow(i, j + 1, n)
  }

  function CouplingRows(i: nat, n: nat): seq<(nat, nat)>
    decreases n - i
  {
    if n <= i then [] else CouplingRow(i, i + 1, n) + CouplingRows(i + 1, n)
  }

  function CouplingMap(n: nat): seq<(nat, nat)>
  {
    CouplingRows(0, n)
  }

  /** Lexicographic order on pairs; the comprehension emits pairs in strictly increasing order. */
  predicate LexLess(p: (nat, nat), q: (nat, nat))
  {
    p.0 < q.0 || (p.0 == q.0 && p.1 < q.1)
  }

  predicate StrictlyIncreasing(s: seq<(nat, nat)>)
  {
    forall a, b :: 0 <= a < b < |s| ==> LexLess(s[a], s[b])
  }

  lemma {:induction false} CouplingRowShape(i: nat, j: nat, n: nat)
    ensures |CouplingRow(i, j, n)| == if n <= j then 0 else n - j
    ensures forall p :: p in CouplingRow(i, j, n) <==> p.0 == i && j <= p.1 < n
    ensures StrictlyIncreasing(CouplingRow(i, j, n))
    decreases n - j
  {
    if j < n {
      CouplingRowShape(i, j + 1, n);
      var r := CouplingRow(i, j, n);
      forall a, b | 0 <= a < b < |r| ensures LexLess(r[a], r[b]) {
        if a == 0 {
          assert r[b] in CouplingRow(i, j + 1, n);
        } else {
          assert r[a] == CouplingRow(i, j + 1, n)[a - 1];
          assert r[b] == CouplingRow(i, j + 1, n)[b - 1];
        }
      }
    }
  }

  /** Twice the number of pairs i < j drawn from [lo, n). */
  function PairCount2(lo: nat, n: nat): nat
  {
    if n <= lo then 0 else (n - lo) * (n - lo - 1)
  }

  lemma {:induction false} CouplingRowsShape(i: nat, n: nat)
    ensures 2 * |CouplingRows(i, n)| == PairCount2(i, n)
    ensures forall p :: p in CouplingRows(i, n) <==> i <= p.0 < p.1 < n
    ensures StrictlyIncreasing(CouplingRows(i, n))
    decreases n - i
  {
    if i < n {
      CouplingRowShape(i, i + 1, n);
      CouplingRowsShape(i + 1, n);
      var row, rest := CouplingRow(i, i + 1, n), CouplingRows(i + 1, n);
      var r := row + rest;
      assert 2 * |r| == 2 * (n - i - 1) + PairCount2(i + 1, n);
      forall a, b | 0 <= a < b < |r| ensures LexLess(r[a], r[b]) {
        if b < |row| {
        } else if a < |row| {
          assert r[a] in row;
          assert r[b] == rest[b - |row|];
          assert r[b] in rest;
        } else {
          assert r[a] == rest[a - |row|] && r[b] == rest[b - |row|];
        }
      }
    }
  }

  /**
   * The coupling map lists every pair i < j < n, exactly once (strictly increasing, so
   * no repeats), has no self-loops, and holds n(n-1)/2 entries: 1770 for n = 60.
   */
  lemma CouplingMapComplete(n: nat)
    ensures forall p :: p in CouplingMap(n) <==> p.0 < p.1 < n
    ensures forall a, b :: 0 <= a < b < |CouplingMap(n)| ==> CouplingMap(n)[a] != CouplingMap(n)[b]
    ensures forall a :: 0 <= a < |CouplingMap(n)| ==> CouplingMap(n)[a].0 != CouplingMap(n)[a].1
    ensures 2 * |CouplingMap(n)| == if n == 0 then 0 else n * (n - 1)
  {
    CouplingRowsShape(0, n);
    var m := CouplingMap(n);
    forall a | 0 <= a < |m| ensures m[a].0 != m[a].1 {
      assert m[a] in m;
    }
  }

  /** The map built by sixty-part4.py for its 60 qubits holds 1770 pairs. */
  lemma SixtyQubitCouplingMap(n: nat)
    requires n == 60
    ensures |CouplingMap(n)| == 1770
  {
    CouplingRowsShape(0, n);
  }
}
