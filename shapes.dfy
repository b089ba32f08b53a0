/** The array-shape rules of numpy that the grid conversion relies on:
    how many elements a shape holds, the Fortran (first axis fastest) order in
    which ESMF stores its arrays, `v.reshape(*shp)` for a shape of 1s and one
    -1, and numpy's broadcasting of such a vector into a larger array.

    An n-dimensional array is kept as the flat sequence of its elements in
    Fortran order; `IndexList(shape)` lists the multi-indices in that order and
    `FortranOffset` gives the position of a multi-index in that list. */
module Shapes {
  import opened Common

  /** The number of elements of an array of the given shape. */
  function Product(shape: seq<nat>): nat
  {
    if shape == [] then 1 else shape[0] * Product(shape[1..])
  }

  /** An array is empty exactly when one of its axes has length 0. */
  lemma {:induction false} ProductZero(shape: seq<nat>)
    ensures Product(shape) == 0 <==> exists k :: 0 <= k < |shape| && shape[k] == 0
  {
    if shape != [] {
      ProductZero(shape[1..]);
      if Product(shape[1..]) == 0 {
        var k :| 0 <= k < |shape[1..]| && shape[1..][k] == 0;
        assert shape[k + 1] == 0;
      }
      if shape[0] != 0 && Product(shape[1..]) != 0 {
        assert Product(shape) != 0;
        forall k | 0 <= k < |shape| ensures shape[k] != 0 {
          if k > 0 {
            assert shape[k] == shape[1..][k - 1];
          }
        }
      }
    }
  }

  /** `idx` is a valid multi-index of an array of shape `shape`. */
  predicate InRange(idx: seq<nat>, shape: seq<nat>)
  {
    |idx| == |shape| && forall k :: 0 <= k < |idx| ==> idx[k] < shape[k]
  }

  /** Every `outer` index extended in front by each of 0..d-1, the front
      index running fastest. */
  function Blocks(outer: seq<seq<nat>>, d: nat): seq<seq<nat>>
  {
    if outer == [] then [] else seq(d, j => [j] + outer[0]) + Blocks(outer[1..], d)
  }

  /** The multi-indices of `shape` in Fortran order. */
  function IndexList(shape: seq<nat>): (r: seq<seq<nat>>)
    ensures |r| == Product(shape)
    ensures forall p :: 0 <= p < |r| ==> InRange(r[p], shape)
    decreases |shape|
  {
    if shape == [] then [[]]
    else
      var outer := IndexList(shape[1..]);
      BlocksLength(outer, shape[0]);
      BlocksInRange(outer, shape[0], shape[1..]);
      assert [shape[0]] + shape[1..] == shape;
      Blocks(outer, shape[0])
  }

  /** The position of `idx` in a Fortran-ordered array of `shape`. */
  function FortranOffset(idx: seq<nat>, shape: seq<nat>): nat
    requires |idx| == |shape|
  {
    if idx == [] then 0 else idx[0] + shape[0] * FortranOffset(idx[1..], shape[1..])
  }

  /** The element at `idx` of an array stored flat in Fortran order. */
  function ReadAt(flat: seq<real>, shape: seq<nat>, idx: seq<nat>): real
    requires |flat| == Product(shape) && InRange(idx, shape)
  {
    IndexListInverse(shape, idx);
    flat[FortranOffset(idx, shape)]
  }

  lemma {:induction false} BlocksLength(outer: seq<seq<nat>>, d: nat)
    ensures |Blocks(outer, d)| == |outer| * d
  {
    if outer != [] {
      BlocksLength(outer[1..], d);
      assert |outer| * d == d + (|outer| - 1) * d;
    }
  }

  lemma {:induction false} BlocksInRange(outer: seq<seq<nat>>, d: nat, rest: seq<nat>)
    requires forall q :: 0 <= q < |outer| ==> InRange(outer[q], rest)
    ensures forall p :: 0 <= p < |Blocks(outer, d)| ==> InRange(Blocks(outer, d)[p], [d] + rest)
  {
    if outer != [] {
      BlocksInRange(outer[1..], d, rest);
      var b := Blocks(outer, d);
      forall p | 0 <= p < |b| ensures InRange(b[p], [d] + rest) {
        if p < d {
          assert b[p] == [p] + outer[0];
        } else {
          assert b[p] == Blocks(outer[1..], d)[p - d];
        }
      }
    }
  }

  lemma {:induction false} BlocksAt(outer: seq<seq<nat>>, d: nat, q: nat, j: nat)
    requires q < |outer| && j < d
    ensures q * d + j < |Blocks(outer, d)|
    ensures Blocks(outer, d)[q * d + j] == [j] + outer[q]
  {
    BlocksLength(outer, d);
    MulBelow(q, |outer|, d, j);
    if q > 0 {
      BlocksAt(outer[1..], d, q - 1, j);
      MulStep(q - 1, d);
    }
  }

  lemma MulStep(q: nat, d: nat)
    ensures (q + 1) * d == q * d + d
  {
  }

  lemma MulBelow(q: nat, n: nat, d: nat, j: nat)
    requires q < n && j < d
    ensures q * d + j < n * d
  {
    MulStep(q, d);
    MulMono(q + 1, n, d);
  }

  lemma MulMono(a: nat, b: nat, d: nat)
    requires a <= b
    ensures a * d <= b * d
  {
    MulStep2(a, b - a, d);
  }

  lemma MulComm(a: nat, b: nat)
    ensures a * b == b * a
  {
  }

  lemma MulStep2(a: nat, e: nat, d: nat)
    ensures (a + e) * d == a * d + e * d
  {
  }

  /** `FortranOffset` finds every valid index in the index list: reading an
      array stored in Fortran order at `FortranOffset(idx)` reads element `idx`. */
  lemma {:induction false} IndexListInverse(shape: seq<nat>, idx: seq<nat>)
    requires InRange(idx, shape)
    ensures FortranOffset(idx, shape) < Product(shape)
    ensures IndexList(shape)[FortranOffset(idx, shape)] == idx
    decreases |shape|
  {
    if shape != [] {
      var rest := shape[1..];
      var r := idx[1..];
      assert InRange(r, rest);
      IndexListInverse(rest, r);
      var q := FortranOffset(r, rest);
      var d := shape[0];
      BlocksAt(IndexList(rest), d, q, idx[0]);
      MulComm(d, q);
      assert FortranOffset(idx, shape) == q * d + idx[0];
      assert IndexList(shape) == Blocks(IndexList(rest), d);
      assert [idx[0]] + r == idx;
    }
  }

  /** `a.ravel()` of a two-dimensional array given by its rows (C order). */
  function Ravel<T>(rows: seq<seq<T>>): seq<T>
  {
    if rows == [] then [] else rows[0] + Ravel(rows[1..])
  }

  lemma {:induction false} RavelLength<T>(rows: seq<seq<T>>, w: nat)
    requires forall k :: 0 <= k < |rows| ==> |rows[k]| == w
    ensures |Ravel(rows)| == |rows| * w
  {
    if rows != [] {
      RavelLength(rows[1..], w);
      MulStep(|rows| - 1, w);
    }
  }

  /** In the ravel of rows of width `w`, entry `j` of row `q` sits at `q * w + j`. */
  lemma {:induction false} RavelAt<T>(rows: seq<seq<T>>, w: nat, q: nat, j: nat)
    requires forall k :: 0 <= k < |rows| ==> |rows[k]| == w
    requires q < |rows| && j < w
    ensures q * w + j < |Ravel(rows)|
    ensures Ravel(rows)[q * w + j] == rows[q][j]
  {
    RavelLength(rows, w);
    MulBelow(q, |rows|, w, j);
    if q > 0 {
      RavelAt(rows[1..], w, q - 1, j);
      MulStep(q - 1, w);
    }
  }

  // ---- numpy reshape and broadcasting of a vector ----

  /** The number of -1 entries ("infer this axis") of a reshape argument. */
  function Unknowns(shp: seq<int>): nat
  {
    if shp == [] then 0 else (if shp[0] == -1 then 1 else 0) + Unknowns(shp[1..])
  }

  /** The shape numpy gives `v.reshape(*shp)` when `v` has `n` elements and
      `shp` is made of 1s and -1s: each -1 stands for `n`. */
  function ReshapeShape(shp: seq<int>, n: nat): (r: seq<nat>)
    requires forall k :: 0 <= k < |shp| ==> shp[k] == -1 || shp[k] == 1
    ensures |r| == |shp|
  {
    seq(|shp|, k requires 0 <= k < |shp| => if shp[k] == -1 then n else 1)
  }

  /** Offset of `j` in a C-ordered (last axis fastest) array of `shape`, the
      order `reshape` reads its input in by default. */
  function COffset(j: seq<nat>, shape: seq<nat>): nat
    requires |j| == |shape|
  {
    if j == [] then 0 else j[0] * Product(shape[1..]) + COffset(j[1..], shape[1..])
  }

  /** numpy's broadcasting rule for arrays of equal rank: every axis of the
      source either matches the target or has length 1. */
  predicate Broadcastable(src: seq<nat>, dst: seq<nat>)
  {
    |src| == |dst| && forall k :: 0 <= k < |src| ==> src[k] == dst[k] || src[k] == 1
  }

  /** The source index a broadcast reads for target index `idx`: axes of
      length 1 are read at 0. */
  function BroadcastSource(idx: seq<nat>, src: seq<nat>): (r: seq<nat>)
    requires |idx| == |src|
    ensures |r| == |idx|
  {
    seq(|idx|, k requires 0 <= k < |idx| => if src[k] == 1 then 0 else idx[k])
  }

  lemma {:induction false} COffsetBound(j: seq<nat>, shape: seq<nat>)
    requires InRange(j, shape)
    ensures COffset(j, shape) < Product(shape)
  {
    if j != [] {
      COffsetBound(j[1..], shape[1..]);
      var p := Product(shape[1..]);
      var c := COffset(j[1..], shape[1..]);
      MulBelow(j[0], shape[0], p, c);
      assert j[0] * p == p * j[0] && shape[0] * p == p * shape[0];
    }
  }

  /** The offset in the reshaped vector that target index `idx` reads. */
  function SourceOffset(idx: seq<nat>, src: seq<nat>, dst: seq<nat>): (o: nat)
    requires InRange(idx, dst) && Broadcastable(src, dst)
    ensures o < Product(src)
  {
    var j := BroadcastSource(idx, src);
    assert InRange(j, src);
    COffsetBound(j, src);
    COffset(j, src)
  }

  /** `a[...] = v.reshape(*shp)` on an array `a` of shape `shape`: the new
      contents of `a` in Fortran order, or numpy's ValueError when the reshape
      or the broadcast is not possible. */
  function AssignReshaped(shape: seq<nat>, v: seq<real>, shp: seq<int>): (r: Result<seq<real>>)
    requires forall k :: 0 <= k < |shp| ==> shp[k] == -1 || shp[k] == 1
    ensures r.Ok? ==> |r.value| == Product(shape)
  {
    var src := ReshapeShape(shp, |v|);
    if Unknowns(shp) > 1 then Err(ValueError("can only specify one unknown dimension"))
    else if Product(src) != |v| then Err(ValueError("cannot reshape array"))
    else if !Broadcastable(src, shape) then Err(ValueError("could not broadcast input array"))
    else
      Ok(seq(Product(shape), p requires 0 <= p < Product(shape) =>
        v[SourceOffset(IndexList(shape)[p], src, shape)]))
  }

  /** A reshape argument of 1s with a single -1 at axis `a`. */
  predicate AxisShape(shp: seq<int>, a: nat)
  {
    a < |shp| && shp[a] == -1 && forall k :: 0 <= k < |shp| && k != a ==> shp[k] == 1
  }

  lemma {:induction false} ProductOfOnes(s: seq<nat>)
    requires forall k :: 0 <= k < |s| ==> s[k] == 1
    ensures Product(s) == 1
  {
    if s != [] { ProductOfOnes(s[1..]); }
  }

  lemma {:induction false} COffsetOfZeros(j: seq<nat>, s: seq<nat>)
    requires |j| == |s| && forall k :: 0 <= k < |j| ==> j[k] == 0
    ensures COffset(j, s) == 0
  {
    if j != [] { COffsetOfZeros(j[1..], s[1..]); }
  }

  /** In a shape of 1s except at axis `a`, an index that is 0 off axis `a` sits
      at offset `j[a]`. */
  lemma {:induction false} COffsetOnAxis(j: seq<nat>, s: seq<nat>, a: nat)
    requires |j| == |s| && a < |j|
    requires forall k :: 0 <= k < |j| && k != a ==> s[k] == 1 && j[k] == 0
    ensures COffset(j, s) == j[a]
  {
    if a == 0 {
      ProductOfOnes(s[1..]);
      COffsetOfZeros(j[1..], s[1..]);
    } else {
      COffsetOnAxis(j[1..], s[1..], a - 1);
    }
  }

  lemma {:induction false} AxisShapeCounts(shp: seq<int>, a: nat, n: nat)
    requires AxisShape(shp, a)
    ensures Unknowns(shp) == 1
    ensures Product(ReshapeShape(shp, n)) == n
  {
    var s := ReshapeShape(shp, n);
    if a == 0 {
      assert forall k :: 0 <= k < |shp[1..]| ==> shp[1..][k] == 1;
      NoUnknowns(shp[1..]);
      assert forall k :: 0 <= k < |s[1..]| ==> s[1..][k] == 1;
      ProductOfOnes(s[1..]);
    } else {
      assert AxisShape(shp[1..], a - 1);
      AxisShapeCounts(shp[1..], a - 1, n);
      assert ReshapeShape(shp[1..], n) == s[1..];
    }
  }

  lemma {:induction false} NoUnknowns(shp: seq<int>)
    requires forall k :: 0 <= k < |shp| ==> shp[k] == 1
    ensures Unknowns(shp) == 0
  {
    if shp != [] { NoUnknowns(shp[1..]); }
  }

  /** The array of shape `shape` that holds `v[idx[a]]` at every index `idx`:
      the vector `v` laid along axis `a` and repeated along all others. */
  function AlongAxis(shape: seq<nat>, v: seq<real>, a: nat): (r: seq<real>)
    requires a < |shape| && |v| == shape[a]
    ensures |r| == Product(shape)
  {
    var idxs := IndexList(shape);
    seq(|idxs|, p requires 0 <= p < |idxs| => v[idxs[p][a]])
  }

  /** Assigning a vector reshaped along axis `a` broadcasts it along that axis:
      the element at index `idx` of the result is `v[idx[a]]`. */
  lemma {:induction false} AssignAlongAxis(shape: seq<nat>, v: seq<real>, shp: seq<int>, a: nat)
    requires AxisShape(shp, a) && |shp| == |shape| && |v| == shape[a]
    ensures AssignReshaped(shape, v, shp) == Ok(AlongAxis(shape, v, a))
  {
    var src := ReshapeShape(shp, |v|);
    AxisShapeCounts(shp, a, |v|);
    assert Broadcastable(src, shape);
    var r := AssignReshaped(shape, v, shp);
    forall p | 0 <= p < Product(shape) ensures r.value[p] == v[IndexList(shape)[p][a]] {
      var idx := IndexList(shape)[p];
      var j := BroadcastSource(idx, src);
      assert j[a] == idx[a];
      COffsetOnAxis(j, src, a);
    }
    assert r.value == AlongAxis(shape, v, a);
  }
}
