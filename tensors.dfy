/** Dense tensors with an explicit shape, the failures the modelled code raises, and the
    few tensor operations it uses (slicing, permute, expand, concatenation, broadcast add). */
module Tensors {

  /** The ways the modelled code fails. */
  datatype Error =
    | HeightMismatch       // an image whose height is not the CNN's fixed input height
    | NegativeDimension    // torch.zeros asked for a negative size
    | DimensionMismatch    // an input whose depth differs from a positional table's
    | BroadcastMismatch    // the two operands of `+` cannot be broadcast together
    | OddDepth             // a 2-D positional encoding of odd depth
    | ZeroDivision         // a float division by a zero embedding depth
    | ShapeMismatch        // a slice assignment from a tensor of the wrong shape
    | InvalidProbability   // a dropout probability outside [0, 1]

  datatype Result<T> = Ok(value: T) | Err(error: Error)

  datatype Option<T> = None | Some(value: T)

  function Min(a: nat, b: nat): nat { if a <= b then a else b }

  /** s is an n0 by n1 matrix. */
  predicate Shape2(s: seq<seq<real>>, n0: nat, n1: nat) {
    |s| == n0 && forall i | 0 <= i < n0 :: |s[i]| == n1
  }

  /** s is an n0 by n1 by n2 block. */
  predicate Shape3(s: seq<seq<seq<real>>>, n0: nat, n1: nat, n2: nat) {
    |s| == n0 && forall i | 0 <= i < n0 :: Shape2(s[i], n1, n2)
  }

  /** A rank-3 tensor: its shape and its entries as nested sequences. The shape is kept
      apart from the entries so that a tensor with an empty axis still has its other sizes. */
  datatype Tensor3 = Tensor3(d0: nat, d1: nat, d2: nat, data: seq<seq<seq<real>>>)
  {
    predicate Valid() { Shape3(data, d0, d1, d2) }

    function At(i: nat, j: nat, k: nat): real
      requires Valid() && i < d0 && j < d1 && k < d2
    {
      data[i][j][k]
    }
  }

  /** A rank-4 tensor, laid out like Tensor3. */
  datatype Tensor4 = Tensor4(d0: nat, d1: nat, d2: nat, d3: nat, data: seq<seq<seq<seq<real>>>>)
  {
    predicate Valid() { |data| == d0 && forall i | 0 <= i < d0 :: Shape3(data[i], d1, d2, d3) }

    function At(i: nat, j: nat, k: nat, l: nat): real
      requires Valid() && i < d0 && j < d1 && k < d2 && l < d3
    {
      data[i][j][k][l]
    }
  }

  /** The row of length n whose entry k is f(k). */
  function Row(n: nat, f: nat --> real): (r: seq<real>)
    requires forall k: nat :: k < n ==> f.requires(k)
    ensures |r| == n && forall k: nat :: k < n ==> r[k] == f(k)
  {
    seq(n, k requires 0 <= k < n => f(k))
  }

  /** The n0 by n1 matrix whose entry (i, j) is f(i, j). */
  function Block2(n0: nat, n1: nat, f: (nat, nat) --> real): (s: seq<seq<real>>)
    requires forall i: nat, j: nat :: i < n0 && j < n1 ==> f.requires(i, j)
    ensures Shape2(s, n0, n1)
    ensures forall i: nat, j: nat :: i < n0 && j < n1 ==> s[i][j] == f(i, j)
  {
    seq(n0, i requires 0 <= i < n0 => Row(n1, (j: nat) requires j < n1 => f(i, j)))
  }

  /** The n0 by n1 by n2 block whose entry (i, j, k) is f(i, j, k). */
  function Block3(n0: nat, n1: nat, n2: nat, f: (nat, nat, nat) --> real): (s: seq<seq<seq<real>>>)
    requires forall i: nat, j: nat, k: nat :: i < n0 && j < n1 && k < n2 ==> f.requires(i, j, k)
    ensures Shape3(s, n0, n1, n2)
    ensures forall i: nat, j: nat, k: nat :: i < n0 && j < n1 && k < n2 ==> s[i][j][k] == f(i, j, k)
  {
    seq(n0, i requires 0 <= i < n0 =>
      Block2(n1, n2, (j: nat, k: nat) requires j < n1 && k < n2 => f(i, j, k)))
  }

  /** The tensor of shape (n0, n1, n2) whose entry (i, j, k) is f(i, j, k). */
  function Build3(n0: nat, n1: nat, n2: nat, f: (nat, nat, nat) --> real): (t: Tensor3)
    requires forall i: nat, j: nat, k: nat :: i < n0 && j < n1 && k < n2 ==> f.requires(i, j, k)
    ensures t.Valid() && t.d0 == n0 && t.d1 == n1 && t.d2 == n2
    ensures forall i: nat, j: nat, k: nat :: i < n0 && j < n1 && k < n2 ==> t.data[i][j][k] == f(i, j, k)
  {
    Tensor3(n0, n1, n2, Block3(n0, n1, n2, f))
  }

  /** The tensor of shape (n0, n1, n2, n3) whose entry (i, j, k, l) is f(i, j, k, l). */
  function Build4(n0: nat, n1: nat, n2: nat, n3: nat, f: (nat, nat, nat, nat) --> real): (t: Tensor4)
    requires forall i: nat, j: nat, k: nat, l: nat ::
      i < n0 && j < n1 && k < n2 && l < n3 ==> f.requires(i, j, k, l)
    ensures t.Valid() && t.d0 == n0 && t.d1 == n1 && t.d2 == n2 && t.d3 == n3
    ensures forall i: nat, j: nat, k: nat, l: nat :: i < n0 && j < n1 && k < n2 && l < n3 ==>
      t.data[i][j][k][l] == f(i, j, k, l)
  {
    Tensor4(n0, n1, n2, n3,
      seq(n0, i requires 0 <= i < n0 =>
        Block3(n1, n2, n3, (j: nat, k: nat, l: nat) requires j < n1 && k < n2 && l < n3 =>
          f(i, j, k, l))))
  }

  /** Two valid tensors of one shape with the same entries are equal. */
  lemma Extensionality3(s: Tensor3, t: Tensor3)
    requires s.Valid() && t.Valid() && s.d0 == t.d0 && s.d1 == t.d1 && s.d2 == t.d2
    requires forall i: nat, j: nat, k: nat :: i < s.d0 && j < s.d1 && k < s.d2 ==>
      s.data[i][j][k] == t.data[i][j][k]
    ensures s == t
  {
    forall i | 0 <= i < s.d0 ensures s.data[i] == t.data[i] {
      forall j | 0 <= j < s.d1 ensures s.data[i][j] == t.data[i][j] {
        assert forall k | 0 <= k < s.d2 :: s.data[i][j][k] == t.data[i][j][k];
      }
    }
  }

  /** The entries of a three-dimensional array as a tensor value. */
  function FromArray3(a: array3<real>): (t: Tensor3)
    reads a
    ensures t.Valid() && t.d0 == a.Length0 && t.d1 == a.Length1 && t.d2 == a.Length2
    ensures forall i: nat, j: nat, k: nat :: i < a.Length0 && j < a.Length1 && k < a.Length2 ==>
      t.data[i][j][k] == a[i, j, k]
  {
    Tensor3(a.Length0, a.Length1, a.Length2,
      seq(a.Length0, i requires 0 <= i < a.Length0 reads a =>
        seq(a.Length1, j requires 0 <= j < a.Length1 reads a =>
          seq(a.Length2, k requires 0 <= k < a.Length2 reads a => a[i, j, k]))))
  }

  /** An array holding a tensor's entries reads back as that tensor. */
  lemma FromArray3Equals(a: array3<real>, t: Tensor3)
    requires t.Valid() && t.d0 == a.Length0 && t.d1 == a.Length1 && t.d2 == a.Length2
    requires forall i, j, k :: 0 <= i < a.Length0 && 0 <= j < a.Length1 && 0 <= k < a.Length2 ==>
      a[i, j, k] == t.data[i][j][k]
    ensures FromArray3(a) == t
  {
    Extensionality3(FromArray3(a), t);
  }

  /** `a.unsqueeze(1)` of a two-dimensional array: shape (Length0, 1, Length1). */
  function Unsqueeze1(a: array2<real>): (t: Tensor3)
    reads a
    ensures t.Valid() && t.d0 == a.Length0 && t.d1 == 1 && t.d2 == a.Length1
    ensures forall i: nat, k: nat :: i < a.Length0 && k < a.Length1 ==> t.data[i][0][k] == a[i, k]
  {
    Tensor3(a.Length0, 1, a.Length1,
      seq(a.Length0, i requires 0 <= i < a.Length0 reads a =>
        [seq(a.Length1, k requires 0 <= k < a.Length1 reads a => a[i, k])]))
  }

  // ---------------------------------------------------------------------------
  // Slicing with Python's rules: a stop past the end of an axis is clamped to it.

  /** `t[:n]`: the first n positions of axis 0. */
  function Narrow0(t: Tensor3, n: nat): (r: Tensor3)
    requires t.Valid()
    ensures r.Valid() && r.d0 == Min(t.d0, n) && r.d1 == t.d1 && r.d2 == t.d2
    ensures forall i: nat, j: nat, k: nat :: i < r.d0 && j < r.d1 && k < r.d2 ==>
      r.data[i][j][k] == t.data[i][j][k]
  {
    Tensor3(Min(t.d0, n), t.d1, t.d2, t.data[..Min(t.d0, n)])
  }

  /** `t[:, :, :n]`: the first n positions of axis 2. */
  function Narrow2(t: Tensor3, n: nat): (r: Tensor3)
    requires t.Valid()
    ensures r.Valid() && r.d0 == t.d0 && r.d1 == t.d1 && r.d2 == Min(t.d2, n)
    ensures forall i: nat, j: nat, k: nat :: i < r.d0 && j < r.d1 && k < r.d2 ==>
      r.data[i][j][k] == t.data[i][j][k]
  {
    Build3(t.d0, t.d1, Min(t.d2, n),
      (i: nat, j: nat, k: nat) requires i < t.d0 && j < t.d1 && k < Min(t.d2, n) => t.At(i, j, k))
  }

  /** `t[:, :h, :w]`: the first h positions of axis 1 and the first w of axis 2. */
  function Narrow12(t: Tensor3, h: nat, w: nat): (r: Tensor3)
    requires t.Valid()
    ensures r.Valid() && r.d0 == t.d0 && r.d1 == Min(t.d1, h) && r.d2 == Min(t.d2, w)
    ensures forall i: nat, j: nat, k: nat :: i < r.d0 && j < r.d1 && k < r.d2 ==>
      r.data[i][j][k] == t.data[i][j][k]
  {
    Build3(t.d0, Min(t.d1, h), Min(t.d2, w),
      (i: nat, j: nat, k: nat) requires i < t.d0 && j < Min(t.d1, h) && k < Min(t.d2, w) => t.At(i, j, k))
  }

  /** `x[:, :, :, lo:hi]` for a span inside the last axis. */
  function SliceLast(x: Tensor4, lo: nat, hi: nat): (r: Tensor4)
    requires x.Valid() && lo <= hi <= x.d3
    ensures r.Valid() && r.d0 == x.d0 && r.d1 == x.d1 && r.d2 == x.d2 && r.d3 == hi - lo
    ensures forall i: nat, j: nat, k: nat, l: nat :: i < r.d0 && j < r.d1 && k < r.d2 && l < r.d3 ==>
      r.data[i][j][k][l] == x.data[i][j][k][lo + l]
  {
    var width: nat := hi - lo;
    var r := Build4(x.d0, x.d1, x.d2, width,
      (i: nat, j: nat, k: nat, l: nat) requires i < x.d0 && j < x.d1 && k < x.d2 && l < width =>
        x.At(i, j, k, lo + l));
    assert forall i: nat, j: nat, k: nat, l: nat :: i < r.d0 && j < r.d1 && k < r.d2 && l < r.d3 ==>
      r.data[i][j][k][l] == x.At(i, j, k, lo + l);
    r
  }

  // ---------------------------------------------------------------------------
  // Reshaping: permute, expand, concatenate.

  function Dim(t: Tensor3, axis: nat): nat
    requires axis < 3
  {
    if axis == 0 then t.d0 else if axis == 1 then t.d1 else t.d2
  }

  predicate IsPermutation(p0: nat, p1: nat, p2: nat) {
    p0 < 3 && p1 < 3 && p2 < 3 && p0 != p1 && p1 != p2 && p0 != p2
  }

  /** Which index of the permuted tensor addresses source axis `axis`. */
  function SourceIndex(p0: nat, p1: nat, p2: nat, i: nat, j: nat, k: nat, axis: nat): nat {
    if p0 == axis then i else if p1 == axis then j else k
  }

  /** `t.permute(p0, p1, p2)`: axis m of the result is axis p_m of t. */
  function Permute(t: Tensor3, p0: nat, p1: nat, p2: nat): (r: Tensor3)
    requires t.Valid() && IsPermutation(p0, p1, p2)
    ensures r.Valid() && r.d0 == Dim(t, p0) && r.d1 == Dim(t, p1) && r.d2 == Dim(t, p2)
    ensures forall i: nat, j: nat, k: nat :: i < r.d0 && j < r.d1 && k < r.d2 ==>
      SourceIndex(p0, p1, p2, i, j, k, 0) < t.d0 &&
      SourceIndex(p0, p1, p2, i, j, k, 1) < t.d1 &&
      SourceIndex(p0, p1, p2, i, j, k, 2) < t.d2 &&
      r.data[i][j][k] == t.At(SourceIndex(p0, p1, p2, i, j, k, 0),
                              SourceIndex(p0, p1, p2, i, j, k, 1),
                              SourceIndex(p0, p1, p2, i, j, k, 2))
  {
    Build3(Dim(t, p0), Dim(t, p1), Dim(t, p2),
      (i: nat, j: nat, k: nat) requires i < Dim(t, p0) && j < Dim(t, p1) && k < Dim(t, p2) =>
        t.At(SourceIndex(p0, p1, p2, i, j, k, 0),
             SourceIndex(p0, p1, p2, i, j, k, 1),
             SourceIndex(p0, p1, p2, i, j, k, 2)))
  }

  /** torch's rule for an axis of size `n` meeting a result axis of size `size`:
      the axis is read at `i` when the sizes agree and at 0 when it is a broadcast axis. */
  function Pick(n: nat, size: nat, i: nat): (p: nat)
    requires i < size && (n == size || n == 1)
    ensures p < n
  {
    if n == 1 then 0 else i
  }

  /** `t.expand(n0, n1, n2)`: every axis keeps its size or grows from size 1. */
  function Expand(t: Tensor3, n0: nat, n1: nat, n2: nat): (r: Tensor3)
    requires t.Valid()
    requires (t.d0 == n0 || t.d0 == 1) && (t.d1 == n1 || t.d1 == 1) && (t.d2 == n2 || t.d2 == 1)
    ensures r.Valid() && r.d0 == n0 && r.d1 == n1 && r.d2 == n2
    ensures forall i: nat, j: nat, k: nat :: i < n0 && j < n1 && k < n2 ==>
      r.data[i][j][k] == t.At(Pick(t.d0, n0, i), Pick(t.d1, n1, j), Pick(t.d2, n2, k))
  {
    Build3(n0, n1, n2, (i: nat, j: nat, k: nat) requires i < n0 && j < n1 && k < n2 =>
      t.At(Pick(t.d0, n0, i), Pick(t.d1, n1, j), Pick(t.d2, n2, k)))
  }

  /** `torch.cat([t, u], dim=0)`. */
  function Cat0(t: Tensor3, u: Tensor3): (r: Tensor3)
    requires t.Valid() && u.Valid() && t.d1 == u.d1 && t.d2 == u.d2
    ensures r.Valid() && r.d0 == t.d0 + u.d0 && r.d1 == t.d1 && r.d2 == t.d2
    ensures forall i: nat, j: nat, k: nat :: i < r.d0 && j < r.d1 && k < r.d2 ==>
      r.data[i][j][k] == if i < t.d0 then t.data[i][j][k] else u.data[i - t.d0][j][k]
  {
    Tensor3(t.d0 + u.d0, t.d1, t.d2, t.data + u.data)
  }

  /** A rank-3 operand of a rank-4 operation is aligned on the trailing axes: shape (1, d0, d1, d2). */
  function Unsqueeze0(t: Tensor3): (r: Tensor4)
    requires t.Valid()
    ensures r.Valid() && r.d0 == 1 && r.d1 == t.d0 && r.d2 == t.d1 && r.d3 == t.d2
    ensures forall j: nat, k: nat, l: nat :: j < t.d0 && k < t.d1 && l < t.d2 ==>
      r.data[0][j][k][l] == t.data[j][k][l]
  {
    Tensor4(1, t.d0, t.d1, t.d2, [t.data])
  }

  // ---------------------------------------------------------------------------
  // Broadcast addition.

  /** The size of an axis of size `a` broadcast against one of size `b`, if torch allows it. */
  function BroadcastDim(a: nat, b: nat): (r: Option<nat>)
    ensures r.Some? <==> a == b || a == 1 || b == 1
    ensures r.Some? ==> (a == r.value || a == 1) && (b == r.value || b == 1)
    ensures r.Some? && a != 1 ==> r.value == a
  {
    if a == b then Some(a) else if a == 1 then Some(b) else if b == 1 then Some(a) else None
  }

  /** `x + y` for two rank-3 tensors. */
  function BroadcastAdd3(x: Tensor3, y: Tensor3): (r: Result<Tensor3>)
    requires x.Valid() && y.Valid()
    ensures r.Ok? <==> BroadcastDim(x.d0, y.d0).Some? && BroadcastDim(x.d1, y.d1).Some? &&
                       BroadcastDim(x.d2, y.d2).Some?
    ensures r.Err? ==> r.error == BroadcastMismatch
    ensures r.Ok? ==>
      r.value.Valid() && r.value.d0 == BroadcastDim(x.d0, y.d0).value &&
      r.value.d1 == BroadcastDim(x.d1, y.d1).value && r.value.d2 == BroadcastDim(x.d2, y.d2).value
    ensures r.Ok? ==>
      forall i: nat, j: nat, k: nat :: i < r.value.d0 && j < r.value.d1 && k < r.value.d2 ==>
        r.value.data[i][j][k] ==
          x.At(Pick(x.d0, r.value.d0, i), Pick(x.d1, r.value.d1, j), Pick(x.d2, r.value.d2, k)) +
          y.At(Pick(y.d0, r.value.d0, i), Pick(y.d1, r.value.d1, j), Pick(y.d2, r.value.d2, k))
  {
    var n0, n1, n2 := BroadcastDim(x.d0, y.d0), BroadcastDim(x.d1, y.d1), BroadcastDim(x.d2, y.d2);
    if n0.None? || n1.None? || n2.None? then Err(BroadcastMismatch)
    else
      var s0, s1, s2 := n0.value, n1.value, n2.value;
      Ok(Build3(s0, s1, s2, (i: nat, j: nat, k: nat) requires i < s0 && j < s1 && k < s2 =>
        x.At(Pick(x.d0, s0, i), Pick(x.d1, s1, j), Pick(x.d2, s2, k)) +
        y.At(Pick(y.d0, s0, i), Pick(y.d1, s1, j), Pick(y.d2, s2, k))))
  }

  /** `x + y` for two rank-4 tensors. */
  function BroadcastAdd4(x: Tensor4, y: Tensor4): (r: Result<Tensor4>)
    requires x.Valid() && y.Valid()
    ensures r.Ok? <==> BroadcastDim(x.d0, y.d0).Some? && BroadcastDim(x.d1, y.d1).Some? &&
                       BroadcastDim(x.d2, y.d2).Some? && BroadcastDim(x.d3, y.d3).Some?
    ensures r.Err? ==> r.error == BroadcastMismatch
    ensures r.Ok? ==>
      r.value.Valid() && r.value.d0 == BroadcastDim(x.d0, y.d0).value &&
      r.value.d1 == BroadcastDim(x.d1, y.d1).value && r.value.d2 == BroadcastDim(x.d2, y.d2).value &&
      r.value.d3 == BroadcastDim(x.d3, y.d3).value
    ensures r.Ok? ==>
      forall i: nat, j: nat, k: nat, l: nat ::
        i < r.value.d0 && j < r.value.d1 && k < r.value.d2 && l < r.value.d3 ==>
          r.value.data[i][j][k][l] ==
            x.At(Pick(x.d0, r.value.d0, i), Pick(x.d1, r.value.d1, j),
                 Pick(x.d2, r.value.d2, k), Pick(x.d3, r.value.d3, l)) +
            y.At(Pick(y.d0, r.value.d0, i), Pick(y.d1, r.value.d1, j),
                 Pick(y.d2, r.value.d2, k), Pick(y.d3, r.value.d3, l))
  {
    var n0, n1, n2, n3 :=
      BroadcastDim(x.d0, y.d0), BroadcastDim(x.d1, y.d1), BroadcastDim(x.d2, y.d2), BroadcastDim(x.d3, y.d3);
    if n0.None? || n1.None? || n2.None? || n3.None? then Err(BroadcastMismatch)
    else
      var s0, s1, s2, s3 := n0.value, n1.value, n2.value, n3.value;
      Ok(Build4(s0, s1, s2, s3, (i: nat, j: nat, k: nat, l: nat) requires i < s0 && j < s1 && k < s2 && l < s3 =>
        x.At(Pick(x.d0, s0, i), Pick(x.d1, s1, j), Pick(x.d2, s2, k), Pick(x.d3, s3, l)) +
        y.At(Pick(y.d0, s0, i), Pick(y.d1, s1, j), Pick(y.d2, s2, k), Pick(y.d3, s3, l))))
  }

  /** Adding a rank-3 tensor with a single position on axis 1 to one of the same other sizes
      adds that position to every index of axis 1. */
  lemma AddAcrossAxis1(x: Tensor3, y: Tensor3)
    requires x.Valid() && y.Valid() && y.d0 == x.d0 && y.d1 == 1 && y.d2 == x.d2
    ensures BroadcastAdd3(x, y).Ok?
    ensures var r := BroadcastAdd3(x, y).value;
      r.Valid() && r.d0 == x.d0 && r.d1 == x.d1 && r.d2 == x.d2 &&
      forall i: nat, j: nat, k: nat :: i < x.d0 && j < x.d1 && k < x.d2 ==>
        r.data[i][j][k] == x.data[i][j][k] + y.data[i][0][k]
  {
    var r := BroadcastAdd3(x, y).value;
    assert r.d0 == x.d0 && r.d1 == x.d1 && r.d2 == x.d2;
    forall i: nat, j: nat, k: nat | i < x.d0 && j < x.d1 && k < x.d2
      ensures r.data[i][j][k] == x.data[i][j][k] + y.data[i][0][k]
    {
      assert Pick(x.d1, r.d1, j) == j && Pick(y.d1, r.d1, j) == 0;
    }
  }

  /** Adding a rank-4 tensor with a single position on axis 0 to one of the same other sizes
      adds that position to every index of axis 0. */
  lemma AddAcrossAxis0(x: Tensor4, y: Tensor4)
    requires x.Valid() && y.Valid() && y.d0 == 1 && y.d1 == x.d1 && y.d2 == x.d2 && y.d3 == x.d3
    ensures BroadcastAdd4(x, y).Ok?
    ensures var r := BroadcastAdd4(x, y).value;
      r.Valid() && r.d0 == x.d0 && r.d1 == x.d1 && r.d2 == x.d2 && r.d3 == x.d3 &&
      forall i: nat, j: nat, k: nat, l: nat :: i < x.d0 && j < x.d1 && k < x.d2 && l < x.d3 ==>
        r.data[i][j][k][l] == x.data[i][j][k][l] + y.data[0][j][k][l]
  {
    var r := BroadcastAdd4(x, y).value;
    assert r.d0 == x.d0 && r.d1 == x.d1 && r.d2 == x.d2 && r.d3 == x.d3;
    forall i: nat, j: nat, k: nat, l: nat | i < x.d0 && j < x.d1 && k < x.d2 && l < x.d3
      ensures r.data[i][j][k][l] == x.data[i][j][k][l] + y.data[0][j][k][l]
    {
      assert Pick(x.d0, r.d0, i) == i && Pick(y.d0, r.d0, i) == 0;
    }
  }
}
