/**
 * Rank-2 tensors over exact reals and the three tensor library operations the CARDS layers
 * rely on: the affine map of a linear layer, concatenation along the feature dimension and
 * the broadcasting elementwise product.
 */
module Tensors {
  import opened Failures

  /** A tensor of shape [|rows|, width]. The width is kept even when there are no rows. */
  datatype Tensor2 = Tensor2(width: nat, rows: seq<seq<real>>)

  predicate Rectangular(m: Tensor2) {
    forall i :: 0 <= i < |m.rows| ==> |m.rows[i]| == m.width
  }

  type Matrix = m: Tensor2 | Rectangular(m) witness Tensor2(0, [])

  function Height(m: Matrix): nat { |m.rows| }

  function Dot(u: seq<real>, v: seq<real>): real
    requires |u| == |v|
  {
    if u == [] then 0.0 else u[0] * v[0] + Dot(u[1..], v[1..])
  }

  /** Weight [nOut, nIn] and bias [nOut] of a linear layer. */
  datatype Affine = Affine(weight: seq<seq<real>>, bias: seq<real>)

  predicate AffineFits(a: Affine, nIn: nat, nOut: nat) {
    && |a.weight| == nOut
    && |a.bias| == nOut
    && forall j :: 0 <= j < nOut ==> |a.weight[j]| == nIn
  }

  /** The affine map x W^T + b of a linear layer; the input width must be nIn. */
  function LinearMap(a: Affine, nIn: nat, nOut: nat, x: Matrix): (r: Result<Matrix>)
    requires AffineFits(a, nIn, nOut)
    ensures r.Ok? <==> x.width == nIn
    ensures r.Ok? ==> r.value.width == nOut && Height(r.value) == Height(x)
  {
    if x.width != nIn then Err(ShapeMismatch)
    else
      Ok(Tensor2(nOut, seq(|x.rows|, i requires 0 <= i < |x.rows| =>
                           seq(nOut, j requires 0 <= j < nOut => Dot(x.rows[i], a.weight[j]) + a.bias[j]))))
  }

  /** Concatenation along dimension 1; the heights must agree. */
  function Concat(a: Matrix, b: Matrix): (r: Result<Matrix>)
    ensures r.Ok? <==> Height(a) == Height(b)
    ensures r.Ok? ==> r.value.width == a.width + b.width && Height(r.value) == Height(a)
    ensures r.Ok? ==> forall i :: 0 <= i < Height(a) ==>
                        r.value.rows[i][..a.width] == a.rows[i] && r.value.rows[i][a.width..] == b.rows[i]
  {
    if |a.rows| != |b.rows| then Err(ShapeMismatch)
    else Ok(Tensor2(a.width + b.width, seq(|a.rows|, i requires 0 <= i < |a.rows| => a.rows[i] + b.rows[i])))
  }

  /** The broadcast size of two dimensions: equal sizes, or one of them is 1. */
  function BroadcastDim(p: nat, q: nat): Option<nat> {
    if p == q then Some(p) else if p == 1 then Some(q) else if q == 1 then Some(p) else None
  }

  /** The index into a dimension of size n that a broadcast index i reads. */
  function Pick(n: nat, i: nat): (k: nat)
    ensures i < n ==> k == i
    ensures n == 1 ==> k == 0
  {
    if n == 1 then 0 else i
  }

  /** The entry of m that a broadcast index (i, j) reads. */
  function At(m: Matrix, i: nat, j: nat): real
    requires i < Height(m) || Height(m) == 1
    requires j < m.width || m.width == 1
  {
    m.rows[Pick(|m.rows|, i)][Pick(m.width, j)]
  }

  /** Elementwise product with broadcasting over both dimensions. */
  function Mul(a: Matrix, b: Matrix): (r: Result<Matrix>)
    ensures r.Ok? <==> BroadcastDim(Height(a), Height(b)).Some? && BroadcastDim(a.width, b.width).Some?
    ensures r.Ok? ==> Height(r.value) == BroadcastDim(Height(a), Height(b)).value
                      && r.value.width == BroadcastDim(a.width, b.width).value
    ensures r.Ok? ==> forall i, j :: 0 <= i < Height(r.value) && 0 <= j < r.value.width ==>
                        r.value.rows[i][j] == At(a, i, j) * At(b, i, j)
  {
    var h := BroadcastDim(|a.rows|, |b.rows|);
    var w := BroadcastDim(a.width, b.width);
    if h.None? || w.None? then Err(ShapeMismatch)
    else
      var rows := seq(h.value, i requires 0 <= i < h.value => MulRow(a, b, i, w.value));
      Ok(Tensor2(w.value, rows))
  }

  /** Row i of the broadcast product, of the broadcast width w. */
  function MulRow(a: Matrix, b: Matrix, i: nat, w: nat): (row: seq<real>)
    requires i < Height(a) || Height(a) == 1
    requires i < Height(b) || Height(b) == 1
    requires BroadcastDim(a.width, b.width) == Some(w)
    ensures |row| == w
    ensures forall j :: 0 <= j < w ==> row[j] == At(a, i, j) * At(b, i, j)
  {
    seq(w, j requires 0 <= j < w => At(a, i, j) * At(b, i, j))
  }

  /** Operands of one shape always multiply, entry by entry. */
  lemma MulSameShape(a: Matrix, b: Matrix)
    requires Height(a) == Height(b) && a.width == b.width
    ensures Mul(a, b).Ok?
    ensures Height(Mul(a, b).value) == Height(a) && Mul(a, b).value.width == a.width
    ensures forall i, j :: 0 <= i < Height(a) && 0 <= j < a.width ==>
              Mul(a, b).value.rows[i][j] == a.rows[i][j] * b.rows[i][j]
  {
    var r := Mul(a, b).value;
    forall i, j | 0 <= i < Height(a) && 0 <= j < a.width
      ensures r.rows[i][j] == a.rows[i][j] * b.rows[i][j]
    {
      assert r.rows[i][j] == At(a, i, j) * At(b, i, j);
    }
  }

  /** An opaque module that keeps the shape of its input (activation, normalisation). */
  ghost predicate ShapePreserving(f: Matrix -> Matrix) {
    forall m: Matrix :: f(m).width == m.width && Height(f(m)) == Height(m)
  }
}
