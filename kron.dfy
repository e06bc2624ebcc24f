/**
 * The row-major outer product of two lists: every element of the first list combined
 * with every element of the second, the first list's index varying slowest. It is the
 * index structure of `np.kron` on two vectors (divide-sixty.py, divide-sixty2.py) and
 * of the nested key loops of combine.py.
 */
module Products {

  /** `[f(x, y) for y in ys]` */
  function Row<A, B, C>(x: A, ys: seq<B>, f: (A, B) -> C): (r: seq<C>)
    ensures |r| == |ys|
    ensures forall j :: 0 <= j < |ys| ==> r[j] == f(x, ys[j])
  {
    seq(|ys|, j requires 0 <= j < |ys| => f(x, ys[j]))
  }

  /** `[f(x, y) for x in xs for y in ys]` */
  function Outer<A, B, C>(xs: seq<A>, ys: seq<B>, f: (A, B) -> C): seq<C>
  {
    if xs == [] then [] else Row(xs[0], ys, f) + Outer(xs[1..], ys, f)
  }

  lemma {:induction false} MulBelow(i: nat, j: nat, a: nat, b: nat)
    requires i < a && j < b
    ensures i * b + j < a * b
  {
    assert i * b <= (a - 1) * b;
  }

  lemma {:induction false} MulStep(i: nat, j: nat, b: nat)
    requires 0 < i
    ensures i * b + j == b + ((i - 1) * b + j)
  {
  }

  /** The outer product has |xs|·|ys| entries. */
  lemma {:induction false} OuterLength<A, B, C>(xs: seq<A>, ys: seq<B>, f: (A, B) -> C)
    ensures |Outer(xs, ys, f)| == |xs| * |ys|
    decreases |xs|
  {
    if xs != [] {
      OuterLength(xs[1..], ys, f);
      MulStep(|xs|, 0, |ys|);
    }
  }

  lemma {:induction false} OuterEntry<A, B, C>(xs: seq<A>, ys: seq<B>, f: (A, B) -> C, i: nat, j: nat)
    requires i < |xs| && j < |ys|
    ensures i * |ys| + j < |Outer(xs, ys, f)|
    ensures Outer(xs, ys, f)[i * |ys| + j] == f(xs[i], ys[j])
    decreases i
  {
    OuterLength(xs, ys, f);
    MulBelow(i, j, |xs|, |ys|);
    if 0 < i {
      OuterEntry(xs[1..], ys, f, i - 1, j);
      MulStep(i, j, |ys|);
      assert xs[i] == xs[1..][i - 1];
    }
  }

  /** Entry i·|ys| + j is f(xs[i], ys[j]): the first argument supplies the high-order part of the index. */
  lemma {:induction false} OuterAt<A, B, C>(xs: seq<A>, ys: seq<B>, f: (A, B) -> C)
    ensures forall i: nat, j: nat :: i < |xs| && j < |ys| ==>
              i * |ys| + j < |Outer(xs, ys, f)| && Outer(xs, ys, f)[i * |ys| + j] == f(xs[i], ys[j])
  {
    forall i: nat, j: nat | i < |xs| && j < |ys| {
      OuterEntry(xs, ys, f, i, j);
    }
  }

  /** Every entry of the outer product is f of an element of each list. */
  lemma {:induction false} OuterMembers<A, B, C>(xs: seq<A>, ys: seq<B>, f: (A, B) -> C)
    ensures forall z :: z in Outer(xs, ys, f) ==> exists i, j :: 0 <= i < |xs| && 0 <= j < |ys| && z == f(xs[i], ys[j])
    decreases |xs|
  {
    if xs != [] {
      OuterMembers(xs[1..], ys, f);
      forall z | z in Outer(xs, ys, f)
        ensures exists i, j :: 0 <= i < |xs| && 0 <= j < |ys| && z == f(xs[i], ys[j])
      {
        if z in Row(xs[0], ys, f) {
          var j :| 0 <= j < |ys| && Row(xs[0], ys, f)[j] == z;
          assert z == f(xs[0], ys[j]);
        } else {
          assert z in Outer(xs[1..], ys, f);
          var i, j :| 0 <= i < |xs[1..]| && 0 <= j < |ys| && z == f(xs[1..][i], ys[j]);
          assert z == f(xs[i + 1], ys[j]);
        }
      }
    }
  }

  /** 2 to the power n: the length of an n-qubit state vector. */
  function Pow2(n: nat): (r: nat)
    ensures r > 0
  {
    if n == 0 then 1 else 2 * Pow2(n - 1)
  }

  lemma {:induction false} Pow2Add(a: nat, b: nat)
    ensures Pow2(a) * Pow2(b) == Pow2(a + b)
    decreases a
  {
    if a > 0 {
      Pow2Add(a - 1, b);
      assert Pow2(a) * Pow2(b) == 2 * (Pow2(a - 1) * Pow2(b));
    }
  }

  /** `combine_results(statevector1, statevector2)`: `np.kron` of the two amplitude vectors. */
  function CombineResults<T>(sv1: seq<T>, sv2: seq<T>, mul: (T, T) -> T): seq<T>
  {
    Outer(sv1, sv2, mul)
  }

  /**
   * The state vectors of an a-qubit and a b-qubit circuit combine into one vector of
   * length 2^(a+b), the length for a + b qubits; amplitude i·2^b + j is the product of
   * amplitude i of the first and amplitude j of the second.
   */
  lemma {:induction false} CombinedStateVector<T>(sv1: seq<T>, sv2: seq<T>, mul: (T, T) -> T, a: nat, b: nat)
    requires |sv1| == Pow2(a) && |sv2| == Pow2(b)
    ensures |CombineResults(sv1, sv2, mul)| == Pow2(a + b)
    ensures forall i: nat, j: nat :: i < |sv1| && j < |sv2| ==>
              i * |sv2| + j < Pow2(a + b) && CombineResults(sv1, sv2, mul)[i * |sv2| + j] == mul(sv1[i], sv2[j])
  {
    CombinedLength(sv1, sv2, mul, a, b);
    forall i: nat, j: nat | i < |sv1| && j < |sv2| {
      CombinedEntry(sv1, sv2, mul, a, b, i, j);
    }
  }

  lemma CombinedEntry<T>(sv1: seq<T>, sv2: seq<T>, mul: (T, T) -> T, a: nat, b: nat, i: nat, j: nat)
    requires |sv1| == Pow2(a) && |sv2| == Pow2(b) && i < |sv1| && j < |sv2|
    ensures |CombineResults(sv1, sv2, mul)| == Pow2(a + b)
    ensures i * |sv2| + j < Pow2(a + b) && CombineResults(sv1, sv2, mul)[i * |sv2| + j] == mul(sv1[i], sv2[j])
  {
    CombinedLength(sv1, sv2, mul, a, b);
    OuterEntry(sv1, sv2, mul, i, j);
  }

  lemma CombinedLength<T>(sv1: seq<T>, sv2: seq<T>, mul: (T, T) -> T, a: nat, b: nat)
    requires |sv1| == Pow2(a) && |sv2| == Pow2(b)
    ensures |CombineResults(sv1, sv2, mul)| == Pow2(a + b)
  {
    OuterLength(sv1, sv2, mul);
    Pow2Add(a, b);
  }
}
