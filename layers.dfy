/**
 * The time-gated linear layer (ConditionalLinear) and the layer container that dispatches
 * the step indices to it (DiffusionSequential). A layer's architecture (its sizes) and its
 * learned tables (weights, bias, gate rows) are kept apart: `Layer` is the former,
 * `Weights` the latter, and `Fitted` says that the tables have the sizes the layers declare.
 */
module Layers {
  import opened Failures
  import opened Tensors

  /** A stage of a DiffusionSequential container. */
  datatype Layer =
    | CondLinear(nIn: nat, nOut: nat, nSteps: nat)  // ConditionalLinear(n_inputs, n_outputs, n_steps)
    | Linear(nIn: nat, nOut: nat)                   // a plain linear layer
    | Opaque(f: Matrix -> Matrix)                   // any other module: activation, normalisation

  /** The learned tables of a layer: the linear map and, for a gated layer, one gate row per step. */
  datatype Weights = Weights(lin: Affine, embed: seq<seq<real>>)

  predicate GateFits(embed: seq<seq<real>>, nSteps: nat, nOut: nat) {
    |embed| == nSteps && forall s :: 0 <= s < nSteps ==> |embed[s]| == nOut
  }

  predicate Fits(layer: Layer, w: Weights) {
    match layer
    case CondLinear(nIn, nOut, nSteps) => AffineFits(w.lin, nIn, nOut) && GateFits(w.embed, nSteps, nOut)
    case Linear(nIn, nOut) => AffineFits(w.lin, nIn, nOut)
    case Opaque(_) => true
  }

  predicate Fitted(layers: seq<Layer>, ws: seq<Weights>) {
    |ws| == |layers| && forall i :: 0 <= i < |layers| ==> Fits(layers[i], ws[i])
  }

  predicate StepsInRange(t: seq<int>, nSteps: nat) {
    forall i :: 0 <= i < |t| ==> 0 <= t[i] < nSteps
  }

  // ---------------------------------------------------------------------------------------
  // ConditionalLinear
  // ---------------------------------------------------------------------------------------

  /** Embedding lookup: row i of the result is the gate row of step t[i]. */
  function Embed(table: seq<seq<real>>, nOut: nat, t: seq<int>): (r: Result<Matrix>)
    requires GateFits(table, |table|, nOut)
    ensures r.Ok? <==> StepsInRange(t, |table|)
    ensures r.Ok? ==> r.value.width == nOut && Height(r.value) == |t|
                      && forall i :: 0 <= i < |t| ==> r.value.rows[i] == table[t[i]]
  {
    if !StepsInRange(t, |table|) then Err(IndexOutOfBounds)
    else Ok(Tensor2(nOut, seq(|t|, i requires 0 <= i < |t| => table[t[i]])))
  }

  /**
   * The gate tensor viewed as [-1, nOut]. The gate already has nOut columns, so the view keeps
   * it unchanged; with nOut = 0 it holds no elements and the inferred dimension is ambiguous.
   */
  function GateView(gamma: Matrix, nOut: nat): (r: Result<Matrix>)
    requires gamma.width == nOut
    ensures r.Ok? <==> nOut > 0
    ensures r.Ok? ==> r.value == gamma
    ensures r.Err? ==> r.error == AmbiguousView
  {
    if nOut == 0 then Err(AmbiguousView) else Ok(gamma)
  }

  /**
   * ConditionalLinear.forward: the linear map of x, multiplied elementwise by the gate row of
   * each sample's step (broadcast over the batch when one of the two has a single row).
   */
  function CondLinearForward(nIn: nat, nOut: nat, nSteps: nat, w: Weights, x: Matrix, t: seq<int>): (r: Result<Matrix>)
    requires Fits(CondLinear(nIn, nOut, nSteps), w)
    ensures r.Ok? <==> x.width == nIn && StepsInRange(t, nSteps) && nOut > 0 && BroadcastDim(|t|, Height(x)).Some?
    ensures x.width == nIn && StepsInRange(t, nSteps) && nOut == 0 ==> r == Err(AmbiguousView)
    ensures r.Ok? ==> r.value.width == nOut && Height(r.value) == BroadcastDim(|t|, Height(x)).value
    ensures r.Ok? && |t| == Height(x) ==>
              forall i, j :: 0 <= i < |t| && 0 <= j < nOut ==>
                r.value.rows[i][j] == w.embed[t[i]][j] * LinearMap(w.lin, nIn, nOut, x).value.rows[i][j]
  {
    var out :- LinearMap(w.lin, nIn, nOut, x);
    var gamma :- Embed(w.embed, nOut, t);
    var gate :- GateView(gamma, nOut);
    Mul(gate, out)
  }

  // ---------------------------------------------------------------------------------------
  // DiffusionSequential
  // ---------------------------------------------------------------------------------------

  /** A stage that is not a ConditionalLinear: it receives the activation only. */
  function ApplyUngated(layer: Layer, w: Weights, x: Matrix): Result<Matrix>
    requires !layer.CondLinear? && Fits(layer, w)
  {
    match layer
    case Linear(nIn, nOut) => LinearMap(w.lin, nIn, nOut, x)
    case Opaque(f) => Ok(f(x))
  }

  /** One stage of the container: the step indices are passed to ConditionalLinear stages only. */
  function Apply(layer: Layer, w: Weights, x: Matrix, t: seq<int>): Result<Matrix>
    requires Fits(layer, w)
  {
    if layer.CondLinear? then CondLinearForward(layer.nIn, layer.nOut, layer.nSteps, w, x, t)
    else ApplyUngated(layer, w, x)
  }

  /** The stages applied in insertion order; the first failing stage ends the pass. */
  function Run(layers: seq<Layer>, ws: seq<Weights>, x: Matrix, t: seq<int>): (r: Result<Matrix>)
    requires Fitted(layers, ws)
    ensures layers == [] ==> r == Ok(x)
    ensures |layers| == 1 ==> r == Apply(layers[0], ws[0], x, t)
    decreases |layers|
  {
    if layers == [] then Ok(x)
    else
      var y := Apply(layers[0], ws[0], x, t);
      if y.Err? then y else Run(layers[1..], ws[1..], y.value, t)
  }

  /** DiffusionSequential.forward: the loop over the stages, reassigning the running activation. */
  method Forward(layers: seq<Layer>, ws: seq<Weights>, input: Matrix, t: seq<int>) returns (r: Result<Matrix>)
    requires Fitted(layers, ws)
    ensures r == Run(layers, ws, input, t)
  {
    var x := input;
    var i := 0;
    while i < |layers|
      invariant 0 <= i <= |layers|
      invariant Fitted(layers[i..], ws[i..])
      invariant Run(layers[i..], ws[i..], x, t) == Run(layers, ws, input, t)
    {
      var y;
      if layers[i].CondLinear? {
        y := CondLinearForward(layers[i].nIn, layers[i].nOut, layers[i].nSteps, ws[i], x, t);
      } else {
        y := ApplyUngated(layers[i], ws[i], x);
      }
      assert layers[i..][1..] == layers[i + 1..] && ws[i..][1..] == ws[i + 1..];
      if y.Err? {
        return y;
      }
      x := y.value;
      i := i + 1;
    }
    return Ok(x);
  }

  // ---------------------------------------------------------------------------------------
  // Properties
  // ---------------------------------------------------------------------------------------

  /**
   * With a single step index, a layer with outputs gates every sample by that step's row;
   * a layer without outputs fails at the view.
   */
  lemma CondLinearSharedStep(nIn: nat, nOut: nat, nSteps: nat, w: Weights, x: Matrix, s: int)
    requires Fits(CondLinear(nIn, nOut, nSteps), w)
    requires x.width == nIn && 0 <= s < nSteps
    ensures var r := CondLinearForward(nIn, nOut, nSteps, w, x, [s]);
            && (r.Ok? <==> nOut > 0)
            && (nOut == 0 ==> r == Err(AmbiguousView))
            && (r.Ok? ==> r.value.width == nOut && Height(r.value) == Height(x))
            && (r.Ok? ==> forall i, j :: 0 <= i < Height(x) && 0 <= j < nOut ==>
                 r.value.rows[i][j] == w.embed[s][j] * LinearMap(w.lin, nIn, nOut, x).value.rows[i][j])
  {
  }

  /**
   * The gate is step-dependent: for the same input, two step batches give different outputs
   * at (i, j) whenever the linear output there is non-zero and the two gate rows differ at j.
   */
  lemma GateSelectsStep(nIn: nat, nOut: nat, nSteps: nat, w: Weights, x: Matrix, t1: seq<int>, t2: seq<int>, i: nat, j: nat)
    requires Fits(CondLinear(nIn, nOut, nSteps), w)
    requires x.width == nIn && |t1| == |t2| == Height(x)
    requires StepsInRange(t1, nSteps) && StepsInRange(t2, nSteps)
    requires i < Height(x) && j < nOut
    requires LinearMap(w.lin, nIn, nOut, x).value.rows[i][j] != 0.0
    requires w.embed[t1[i]][j] != w.embed[t2[i]][j]
    ensures CondLinearForward(nIn, nOut, nSteps, w, x, t1).value.rows[i][j]
            != CondLinearForward(nIn, nOut, nSteps, w, x, t2).value.rows[i][j]
  {
  }

  /** Running a concatenation of stage lists runs the first list, then the second on its output. */
  lemma {:induction false} RunAppend(l1: seq<Layer>, w1: seq<Weights>, l2: seq<Layer>, w2: seq<Weights>, x: Matrix, t: seq<int>)
    requires Fitted(l1, w1) && Fitted(l2, w2)
    ensures Fitted(l1 + l2, w1 + w2)
    ensures Run(l1 + l2, w1 + w2, x, t)
            == (var y := Run(l1, w1, x, t); if y.Err? then y else Run(l2, w2, y.value, t))
    decreases |l1|
  {
    assert Fitted(l1 + l2, w1 + w2) by {
      forall i | 0 <= i < |l1 + l2|
        ensures Fits((l1 + l2)[i], (w1 + w2)[i])
      {
        if i >= |l1| {
          assert (l1 + l2)[i] == l2[i - |l1|] && (w1 + w2)[i] == w2[i - |l1|];
        }
      }
    }
    if l1 != [] {
      assert (l1 + l2)[1..] == l1[1..] + l2 && (w1 + w2)[1..] == w1[1..] + w2;
      var y := Apply(l1[0], w1[0], x, t);
      if y.Ok? {
        RunAppend(l1[1..], w1[1..], l2, w2, y.value, t);
      }
    } else {
      assert l1 + l2 == l2 && w1 + w2 == w2;
    }
  }

  /** Without ConditionalLinear stages the container never looks at the step indices. */
  lemma {:induction false} RunIgnoresSteps(layers: seq<Layer>, ws: seq<Weights>, x: Matrix, t1: seq<int>, t2: seq<int>)
    requires Fitted(layers, ws)
    requires forall i :: 0 <= i < |layers| ==> !layers[i].CondLinear?
    ensures Run(layers, ws, x, t1) == Run(layers, ws, x, t2)
    decreases |layers|
  {
    if layers != [] {
      var y := ApplyUngated(layers[0], ws[0], x);
      if y.Ok? {
        RunIgnoresSteps(layers[1..], ws[1..], y.value, t1, t2);
      }
    }
  }

  // ---------------------------------------------------------------------------------------
  // Shape chaining
  // ---------------------------------------------------------------------------------------

  /**
   * The stages' widths chain from `from` to `to`, every gated stage has a non-empty output
   * and every opaque stage keeps shapes.
   */
  ghost predicate Chained(layers: seq<Layer>, from: nat, to: nat)
    decreases |layers|
  {
    if layers == [] then from == to
    else
      match layers[0]
      case CondLinear(nIn, nOut, _) => nIn == from && nOut > 0 && Chained(layers[1..], nOut, to)
      case Linear(nIn, nOut) => nIn == from && Chained(layers[1..], nOut, to)
      case Opaque(f) => ShapePreserving(f) && Chained(layers[1..], from, to)
  }

  /** Every gated stage has a table of nSteps gate rows. */
  predicate GatedBy(layers: seq<Layer>, nSteps: nat) {
    forall i :: 0 <= i < |layers| && layers[i].CondLinear? ==> layers[i].nSteps == nSteps
  }

  lemma {:induction false} ChainedAppend(l1: seq<Layer>, l2: seq<Layer>, a: nat, b: nat, c: nat)
    requires Chained(l1, a, b) && Chained(l2, b, c)
    ensures Chained(l1 + l2, a, c)
    decreases |l1|
  {
    if l1 == [] {
      assert l1 + l2 == l2;
    } else {
      assert (l1 + l2)[1..] == l1[1..] + l2;
      match l1[0]
      case CondLinear(_, nOut, _) => ChainedAppend(l1[1..], l2, nOut, b, c);
      case Linear(_, nOut) => ChainedAppend(l1[1..], l2, nOut, b, c);
      case Opaque(_) => ChainedAppend(l1[1..], l2, a, b, c);
    }
  }

  /**
   * A chained container fed an input of the starting width, with one in-range step per
   * sample or one step shared by all samples, succeeds and yields the final width with the
   * batch size unchanged.
   */
  lemma {:induction false} RunChained(layers: seq<Layer>, ws: seq<Weights>, x: Matrix, t: seq<int>, nSteps: nat, to: nat)
    requires Fitted(layers, ws) && Chained(layers, x.width, to) && GatedBy(layers, nSteps)
    requires StepsInRange(t, nSteps) && (|t| == Height(x) || |t| == 1)
    ensures var r := Run(layers, ws, x, t);
            r.Ok? && r.value.width == to && Height(r.value) == Height(x)
    decreases |layers|
  {
    if layers != [] {
      var y := Apply(layers[0], ws[0], x, t);
      assert y.Ok? && Height(y.value) == Height(x);
      match layers[0]
      case CondLinear(_, nOut, _) => RunChained(layers[1..], ws[1..], y.value, t, nSteps, to);
      case Linear(_, nOut) => RunChained(layers[1..], ws[1..], y.value, t, nSteps, to);
      case Opaque(f) => RunChained(layers[1..], ws[1..], y.value, t, nSteps, to);
    }
  }
}
