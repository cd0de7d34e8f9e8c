/**
 * The conditional guidance networks of CARDS: the linear guided model, whose stack of
 * time-gated layers is sized from its configuration and fed a flag-selected concatenation,
 * and the convolutional variant, which checks its configuration against the encoder width
 * and gates the encoded features before handing them to a linear guided model.
 */
module GuidedModels {
  import opened Failures
  import opened Tensors
  import opened Layers

  // ---------------------------------------------------------------------------------------
  // Layer stack of the linear guided model
  // ---------------------------------------------------------------------------------------

  /** Width of the first layer: y_t, plus x when concatenated, plus y_0_hat when concatenated. */
  function InputWidth(xDim: nat, yDim: nat, catX: bool, catYPred: bool): nat {
    yDim + (if catX then xDim else 0) + (if catYPred then yDim else 0)
  }

  /** The (ConditionalLinear, activation) pairs between consecutive layer sizes, in order. */
  function HiddenPairs(sizes: seq<nat>, nSteps: nat, act: Matrix -> Matrix): seq<Layer>
    decreases |sizes|
  {
    if |sizes| <= 1 then []
    else
      HiddenPairs(sizes[..|sizes| - 1], nSteps, act)
      + [CondLinear(sizes[|sizes| - 2], sizes[|sizes| - 1], nSteps), Opaque(act)]
  }

  /** Extending a prefix of the sizes by one adds one pair. */
  lemma HiddenPairsPrefix(sizes: seq<nat>, idx: nat, nSteps: nat, act: Matrix -> Matrix)
    requires 1 <= idx < |sizes|
    ensures HiddenPairs(sizes[..idx + 1], nSteps, act)
            == HiddenPairs(sizes[..idx], nSteps, act) + [CondLinear(sizes[idx - 1], sizes[idx], nSteps), Opaque(act)]
  {
    assert sizes[..idx + 1][..idx] == sizes[..idx];
  }

  /** The whole stack: the hidden pairs from dataDim through the hidden sizes, then a plain Linear. */
  function GuidedStack(dataDim: nat, hidden: seq<nat>, nOutputs: nat, nSteps: nat, act: Matrix -> Matrix): seq<Layer> {
    var sizes := [dataDim] + hidden;
    HiddenPairs(sizes, nSteps, act) + [Linear(sizes[|sizes| - 1], nOutputs)]
  }

  lemma {:induction false} HiddenPairsLayout(sizes: seq<nat>, nSteps: nat, act: Matrix -> Matrix)
    requires |sizes| >= 1
    ensures |HiddenPairs(sizes, nSteps, act)| == 2 * (|sizes| - 1)
    ensures forall k :: 0 <= k < |sizes| - 1 ==>
              HiddenPairs(sizes, nSteps, act)[2 * k] == CondLinear(sizes[k], sizes[k + 1], nSteps)
              && HiddenPairs(sizes, nSteps, act)[2 * k + 1] == Opaque(act)
    decreases |sizes|
  {
    if |sizes| > 1 {
      var front := sizes[..|sizes| - 1];
      HiddenPairsLayout(front, nSteps, act);
      var h := HiddenPairs(sizes, nSteps, act);
      assert h == HiddenPairs(front, nSteps, act) + [CondLinear(sizes[|sizes| - 2], sizes[|sizes| - 1], nSteps), Opaque(act)];
      forall k | 0 <= k < |sizes| - 1
        ensures h[2 * k] == CondLinear(sizes[k], sizes[k + 1], nSteps) && h[2 * k + 1] == Opaque(act)
      {
        if k < |sizes| - 2 {
          assert h[2 * k] == HiddenPairs(front, nSteps, act)[2 * k];
          assert h[2 * k + 1] == HiddenPairs(front, nSteps, act)[2 * k + 1];
        }
      }
    }
  }

  /**
   * The stack holds one (ConditionalLinear, activation) pair per hidden size followed by one
   * plain Linear; pair k maps the k-th layer size to the next, the first from dataDim.
   */
  lemma StackLayout(dataDim: nat, hidden: seq<nat>, nOutputs: nat, nSteps: nat, act: Matrix -> Matrix)
    ensures var stack := GuidedStack(dataDim, hidden, nOutputs, nSteps, act);
            var sizes := [dataDim] + hidden;
            && |stack| == 2 * |hidden| + 1
            && (forall k :: 0 <= k < |hidden| ==>
                  stack[2 * k] == CondLinear(sizes[k], sizes[k + 1], nSteps) && stack[2 * k + 1] == Opaque(act))
            && stack[2 * |hidden|] == Linear(sizes[|hidden|], nOutputs)
  {
    var sizes := [dataDim] + hidden;
    HiddenPairsLayout(sizes, nSteps, act);
    var stack := GuidedStack(dataDim, hidden, nOutputs, nSteps, act);
    forall k | 0 <= k < |hidden|
      ensures stack[2 * k] == CondLinear(sizes[k], sizes[k + 1], nSteps) && stack[2 * k + 1] == Opaque(act)
    {
      assert stack[2 * k] == HiddenPairs(sizes, nSteps, act)[2 * k];
      assert stack[2 * k + 1] == HiddenPairs(sizes, nSteps, act)[2 * k + 1];
    }
  }

  /** Every width is non-zero: a gated layer without outputs fails at its view. */
  predicate AllPositive(sizes: seq<nat>) {
    forall k :: 0 <= k < |sizes| ==> sizes[k] > 0
  }

  lemma {:induction false} HiddenPairsChained(sizes: seq<nat>, nSteps: nat, act: Matrix -> Matrix)
    requires |sizes| >= 1 && ShapePreserving(act) && AllPositive(sizes[1..])
    ensures Chained(HiddenPairs(sizes, nSteps, act), sizes[0], sizes[|sizes| - 1])
    ensures GatedBy(HiddenPairs(sizes, nSteps, act), nSteps)
    decreases |sizes|
  {
    if |sizes| == 1 {
    } else {
      var front := sizes[..|sizes| - 1];
      assert sizes[|sizes| - 1] == sizes[1..][|sizes| - 2];
      assert forall k :: 0 <= k < |front| - 1 ==> front[1..][k] == sizes[1..][k];
      HiddenPairsChained(front, nSteps, act);
      var pair := [CondLinear(sizes[|sizes| - 2], sizes[|sizes| - 1], nSteps), Opaque(act)];
      assert pair[1..][1..] == [];
      assert Chained(pair[1..], sizes[|sizes| - 1], sizes[|sizes| - 1]);
      assert Chained(pair, sizes[|sizes| - 2], sizes[|sizes| - 1]);
      ChainedAppend(HiddenPairs(front, nSteps, act), pair, sizes[0], sizes[|sizes| - 2], sizes[|sizes| - 1]);
    }
  }

  /**
   * With a width-preserving activation and non-zero hidden widths, the stack maps dataDim to
   * nOutputs and is gated by nSteps.
   */
  lemma StackChained(dataDim: nat, hidden: seq<nat>, nOutputs: nat, nSteps: nat, act: Matrix -> Matrix)
    requires ShapePreserving(act) && AllPositive(hidden)
    ensures Chained(GuidedStack(dataDim, hidden, nOutputs, nSteps, act), dataDim, nOutputs)
    ensures GatedBy(GuidedStack(dataDim, hidden, nOutputs, nSteps, act), nSteps)
  {
    var sizes := [dataDim] + hidden;
    assert sizes[1..] == hidden;
    HiddenPairsChained(sizes, nSteps, act);
    var last := [Linear(sizes[|sizes| - 1], nOutputs)];
    assert last[1..] == [];
    ChainedAppend(HiddenPairs(sizes, nSteps, act), last, dataDim, sizes[|sizes| - 1], nOutputs);
  }

  // ---------------------------------------------------------------------------------------
  // Forward input of the linear guided model
  // ---------------------------------------------------------------------------------------

  /**
   * The tensor fed to the stack: y_t, then y_0_hat when catYPred, then x when catX, joined
   * along the feature dimension. An enabled part that is None cannot be concatenated.
   */
  function StepInput(catX: bool, catYPred: bool, x: Option<Matrix>, yT: Matrix, y0Hat: Option<Matrix>): (r: Result<Matrix>)
    ensures (catX && x.None?) || (catYPred && y0Hat.None?) ==> r == Err(NoneOperand)
    ensures r.Ok? <==> && (catX ==> x.Some? && Height(x.value) == Height(yT))
                       && (catYPred ==> y0Hat.Some? && Height(y0Hat.value) == Height(yT))
    ensures r.Ok? ==> Height(r.value) == Height(yT)
                      && r.value.width == yT.width + (if catYPred then y0Hat.value.width else 0)
                                                   + (if catX then x.value.width else 0)
    ensures r.Ok? ==> forall i :: 0 <= i < Height(yT) ==>
                        r.value.rows[i] == yT.rows[i] + (if catYPred then y0Hat.value.rows[i] else [])
                                                      + (if catX then x.value.rows[i] else [])
  {
    if (catX && x.None?) || (catYPred && y0Hat.None?) then Err(NoneOperand)
    else if catX && catYPred then
      var ty :- Concat(yT, y0Hat.value);
      Concat(ty, x.value)
    else if catX then Concat(yT, x.value)
    else if catYPred then Concat(yT, y0Hat.value)
    else Ok(yT)
  }

  /** Fed parts of the configured widths, the concatenation has the first layer's width. */
  lemma StepInputWidth(xDim: nat, yDim: nat, catX: bool, catYPred: bool, x: Option<Matrix>, yT: Matrix, y0Hat: Option<Matrix>)
    requires yT.width == yDim
    requires catX ==> x.Some? && x.value.width == xDim && Height(x.value) == Height(yT)
    requires catYPred ==> y0Hat.Some? && y0Hat.value.width == yDim && Height(y0Hat.value) == Height(yT)
    ensures var r := StepInput(catX, catYPred, x, yT, y0Hat);
            r.Ok? && r.value.width == InputWidth(xDim, yDim, catX, catYPred) && Height(r.value) == Height(yT)
  {
  }

  // ---------------------------------------------------------------------------------------
  // ConditionalGuidedLinearModel
  // ---------------------------------------------------------------------------------------

  class ConditionalGuidedLinearModel {
    const nSteps: nat
    const xDim: nat
    const yDim: nat
    const hidden: seq<nat>
    const nOutputs: nat
    const catX: bool
    const catYPred: bool
    const activation: Matrix -> Matrix
    const layers: seq<Layer>

    /** The stack is the one the configuration determines. */
    ghost predicate Valid() {
      layers == GuidedStack(InputWidth(xDim, yDim, catX, catYPred), hidden, nOutputs, nSteps, activation)
    }

    /** Sums the first layer's width from the flags, then grows the stack pair by pair. */
    constructor (nSteps: nat, xDim: nat, yDim: nat, hidden: seq<nat>, nOutputs: nat,
                 catX: bool, catYPred: bool, activation: Matrix -> Matrix)
      ensures this.nSteps == nSteps && this.xDim == xDim && this.yDim == yDim && this.hidden == hidden
      ensures this.nOutputs == nOutputs && this.catX == catX && this.catYPred == catYPred
      ensures this.activation == activation
      ensures Valid()
    {
      this.nSteps := nSteps;
      this.xDim := xDim;
      this.yDim := yDim;
      this.hidden := hidden;
      this.nOutputs := nOutputs;
      this.catX := catX;
      this.catYPred := catYPred;
      this.activation := activation;
      var dataDim := yDim;
      if catX {
        dataDim := dataDim + xDim;
      }
      if catYPred {
        dataDim := dataDim + yDim;
      }
      var sizes := [dataDim] + hidden;
      var stack: seq<Layer> := [];
      for idx := 1 to |sizes|
        invariant stack == HiddenPairs(sizes[..idx], nSteps, activation)
      {
        HiddenPairsPrefix(sizes, idx, nSteps, activation);
        stack := stack + [CondLinear(sizes[idx - 1], sizes[idx], nSteps), Opaque(activation)];
      }
      assert sizes[..|sizes|] == sizes;
      layers := stack + [Linear(sizes[|sizes| - 1], nOutputs)];
    }

    /**
     * forward(x, y_t, y_0_hat, t): the flag-selected concatenation run through the stack. An
     * enabled part that is None fails before any stage runs; with both flags off the stack
     * sees y_t alone.
     */
    function Output(x: Option<Matrix>, yT: Matrix, y0Hat: Option<Matrix>, t: seq<int>, ws: seq<Weights>): (r: Result<Matrix>)
      requires Fitted(layers, ws)
      ensures (catX && x.None?) || (catYPred && y0Hat.None?) ==> r == Err(NoneOperand)
      ensures StepInput(catX, catYPred, x, yT, y0Hat).Ok? ==> r == Run(layers, ws, StepInput(catX, catYPred, x, yT, y0Hat).value, t)
      ensures !catX && !catYPred ==> r == Run(layers, ws, yT, t)
    {
      var input :- StepInput(catX, catYPred, x, yT, y0Hat);
      Run(layers, ws, input, t)
    }

    /** With both flags off, the output depends on y_t and t only: x and y_0_hat are ignored. */
    lemma OutputIgnoresXAndY0Hat(x1: Option<Matrix>, x2: Option<Matrix>, yT: Matrix,
                                 y1: Option<Matrix>, y2: Option<Matrix>, t: seq<int>, ws: seq<Weights>)
      requires Fitted(layers, ws) && !catX && !catYPred
      ensures Output(x1, yT, y1, t, ws) == Output(x2, yT, y2, t, ws) == Run(layers, ws, yT, t)
    {
    }

    /**
     * A configured model with non-zero hidden widths, fed parts of the configured widths and
     * one in-range step per sample or a single shared step, yields a [N, nOutputs] tensor.
     */
    lemma OutputShape(x: Option<Matrix>, yT: Matrix, y0Hat: Option<Matrix>, t: seq<int>, ws: seq<Weights>)
      requires Valid() && ShapePreserving(activation) && AllPositive(hidden) && Fitted(layers, ws)
      requires yT.width == yDim
      requires catX ==> x.Some? && x.value.width == xDim && Height(x.value) == Height(yT)
      requires catYPred ==> y0Hat.Some? && y0Hat.value.width == yDim && Height(y0Hat.value) == Height(yT)
      requires StepsInRange(t, nSteps) && (|t| == Height(yT) || |t| == 1)
      ensures var r := Output(x, yT, y0Hat, t, ws);
              r.Ok? && r.value.width == nOutputs && Height(r.value) == Height(yT)
    {
      StepInputWidth(xDim, yDim, catX, catYPred, x, yT, y0Hat);
      StackChained(InputWidth(xDim, yDim, catX, catYPred), hidden, nOutputs, nSteps, activation);
      var input := StepInput(catX, catYPred, x, yT, y0Hat).value;
      RunChained(layers, ws, input, t, nSteps, nOutputs);
    }
  }

  // ---------------------------------------------------------------------------------------
  // ConditionalGuidedConvModel
  // ---------------------------------------------------------------------------------------

  /** The constructor's checks, in order, against the inner model and the encoder width e. */
  function ConvConfig(catX: bool, catYPred: bool, yDim: nat, e: nat): (r: Outcome)
    ensures r.Pass? <==> !catX && !catYPred && 2 * e == yDim
    ensures catX ==> r == Fail(CannotConcatX)
    ensures !catX && catYPred ==> r == Fail(CannotConcatY)
    ensures r.Fail? && !catX && !catYPred ==> r == Fail(EncoderWidthMismatch)
  {
    if catX then Fail(CannotConcatX)
    else if catYPred then Fail(CannotConcatY)
    else if e * 2 != yDim then Fail(EncoderWidthMismatch)
    else Pass
  }

  /** The connection stages: a gated e-to-e layer, a batch norm and a softplus. */
  function ConnectStages(e: nat, nSteps: nat, bn: Matrix -> Matrix, softplus: Matrix -> Matrix): seq<Layer> {
    [CondLinear(e, e, nSteps), Opaque(bn), Opaque(softplus)]
  }

  class ConditionalGuidedConvModel {
    const inner: ConditionalGuidedLinearModel
    const encoderWidth: nat
    const nSteps: nat
    const norm: Matrix -> Matrix
    const bn: Matrix -> Matrix
    const softplus: Matrix -> Matrix
    const connect: seq<Layer>

    ghost predicate Valid() {
      && ConvConfig(inner.catX, inner.catYPred, inner.yDim, encoderWidth).Pass?
      && nSteps == inner.nSteps
      && connect == ConnectStages(encoderWidth, nSteps, bn, softplus)
    }

    constructor (inner: ConditionalGuidedLinearModel, e: nat, norm: Matrix -> Matrix,
                 bn: Matrix -> Matrix, softplus: Matrix -> Matrix)
      requires ConvConfig(inner.catX, inner.catYPred, inner.yDim, e).Pass?
      ensures this.inner == inner && encoderWidth == e && nSteps == inner.nSteps
      ensures this.norm == norm && this.bn == bn && this.softplus == softplus
      ensures Valid()
    {
      this.inner := inner;
      encoderWidth := e;
      nSteps := inner.nSteps;
      this.norm := norm;
      this.bn := bn;
      this.softplus := softplus;
      connect := ConnectStages(e, inner.nSteps, bn, softplus);
    }

    /**
     * forward(x, y_t, y_0_hat, t), with the encoder's output `encoded` given: normalise, gate
     * through the connection stages, multiply by [y_t, y_0_hat] and run the inner model
     * with x and y_0_hat set to None.
     */
    function Output(encoded: Matrix, yT: Matrix, y0Hat: Matrix, t: seq<int>,
                    connectWs: seq<Weights>, innerWs: seq<Weights>): (r: Result<Matrix>)
      requires Fitted(connect, connectWs) && Fitted(inner.layers, innerWs)
      ensures r.Ok? ==> && Run(connect, connectWs, norm(encoded), t).Ok?
                        && Concat(yT, y0Hat).Ok?
                        && Mul(Run(connect, connectWs, norm(encoded), t).value, Concat(yT, y0Hat).value).Ok?
      ensures r.Ok? && !inner.catX && !inner.catYPred ==>
                r == Run(inner.layers, innerWs,
                         Mul(Run(connect, connectWs, norm(encoded), t).value, Concat(yT, y0Hat).value).value, t)
    {
      var h :- Run(connect, connectWs, norm(encoded), t);
      var y :- Concat(yT, y0Hat);
      var fused :- Mul(h, y);
      inner.Output(None, fused, None, t, innerWs)
    }

    /** With e > 0, the connection stages keep the encoded features at width e and the batch size. */
    lemma ConnectShape(encoded: Matrix, t: seq<int>, connectWs: seq<Weights>)
      requires Valid() && Fitted(connect, connectWs) && encoderWidth > 0
      requires ShapePreserving(norm) && ShapePreserving(bn) && ShapePreserving(softplus)
      requires encoded.width == encoderWidth && StepsInRange(t, nSteps) && (|t| == Height(encoded) || |t| == 1)
      ensures var h := Run(connect, connectWs, norm(encoded), t);
              h.Ok? && h.value.width == encoderWidth && Height(h.value) == Height(encoded)
    {
      var e := encoderWidth;
      assert connect[1..][1..][1..] == [];
      assert Chained(connect[1..][1..], e, e);
      assert Chained(connect[1..], e, e);
      assert Chained(connect, e, e);
      RunChained(connect, connectWs, norm(encoded), t, nSteps, encoderWidth);
    }
  }

  /**
   * The product of the gated encoding [N, e] with [y_t, y_0_hat] [N, 2e] is shape-valid
   * exactly when e is at most 1.
   */
  lemma ConvProductNeedsNarrowEncoder(h: Matrix, y: Matrix, e: nat)
    requires h.width == e && y.width == 2 * e && Height(h) == Height(y)
    ensures Mul(h, y).Ok? <==> e <= 1
  {
  }

  /** A configured conv model with an encoder wider than 1 fails in every forward pass. */
  lemma ConvForwardRejectsWideEncoder(m: ConditionalGuidedConvModel, encoded: Matrix, yT: Matrix, y0Hat: Matrix,
                                      t: seq<int>, connectWs: seq<Weights>, innerWs: seq<Weights>)
    requires m.Valid() && Fitted(m.connect, connectWs) && Fitted(m.inner.layers, innerWs)
    requires ShapePreserving(m.norm) && ShapePreserving(m.bn) && ShapePreserving(m.softplus)
    requires encoded.width == m.encoderWidth && StepsInRange(t, m.nSteps) && (|t| == Height(encoded) || |t| == 1)
    requires Height(yT) == Height(y0Hat) == Height(encoded) && yT.width + y0Hat.width == m.inner.yDim
    requires m.encoderWidth >= 2
    ensures m.Output(encoded, yT, y0Hat, t, connectWs, innerWs) == Err(ShapeMismatch)
  {
    m.ConnectShape(encoded, t, connectWs);
    var h := Run(m.connect, connectWs, m.norm(encoded), t).value;
    var y := Concat(yT, y0Hat).value;
    ConvProductNeedsNarrowEncoder(h, y, m.encoderWidth);
  }

  /**
   * With e = 0 the connection's gated layer has no outputs, so a configured conv model fails
   * in every forward pass at the gate's view.
   */
  lemma ConvForwardRejectsEmptyEncoder(m: ConditionalGuidedConvModel, encoded: Matrix, yT: Matrix, y0Hat: Matrix,
                                       t: seq<int>, connectWs: seq<Weights>, innerWs: seq<Weights>)
    requires m.Valid() && Fitted(m.connect, connectWs) && Fitted(m.inner.layers, innerWs)
    requires ShapePreserving(m.norm)
    requires encoded.width == m.encoderWidth && StepsInRange(t, m.nSteps)
    requires m.encoderWidth == 0
    ensures m.Output(encoded, yT, y0Hat, t, connectWs, innerWs) == Err(AmbiguousView)
  {
    var gated := CondLinearForward(0, 0, m.nSteps, connectWs[0], m.norm(encoded), t);
    assert gated == Err(AmbiguousView);
    assert Run(m.connect, connectWs, m.norm(encoded), t) == gated;
  }

  /**
   * With e = 1 and non-zero hidden widths in the inner model, a configured conv model yields a
   * [N, nOutputs] tensor.
   */
  lemma ConvForwardScalarEncoder(m: ConditionalGuidedConvModel, encoded: Matrix, yT: Matrix, y0Hat: Matrix,
                                 t: seq<int>, connectWs: seq<Weights>, innerWs: seq<Weights>)
    requires m.Valid() && m.inner.Valid() && ShapePreserving(m.inner.activation)
    requires Fitted(m.connect, connectWs) && Fitted(m.inner.layers, innerWs)
    requires ShapePreserving(m.norm) && ShapePreserving(m.bn) && ShapePreserving(m.softplus)
    requires AllPositive(m.inner.hidden)
    requires encoded.width == m.encoderWidth && StepsInRange(t, m.nSteps) && (|t| == Height(encoded) || |t| == 1)
    requires Height(yT) == Height(y0Hat) == Height(encoded) && yT.width + y0Hat.width == m.inner.yDim
    requires m.encoderWidth == 1
    ensures var r := m.Output(encoded, yT, y0Hat, t, connectWs, innerWs);
            r.Ok? && r.value.width == m.inner.nOutputs && Height(r.value) == Height(encoded)
  {
    m.ConnectShape(encoded, t, connectWs);
    var h := Run(m.connect, connectWs, m.norm(encoded), t).value;
    var y := Concat(yT, y0Hat).value;
    ConvProductNeedsNarrowEncoder(h, y, m.encoderWidth);
    var fused := Mul(h, y).value;
    m.inner.OutputShape(None, fused, None, t, innerWs);
  }

  /** Creation of the conv model: the constructor's checks, raising on the first that fails. */
  method CreateConv(inner: ConditionalGuidedLinearModel, e: nat, norm: Matrix -> Matrix,
                    bn: Matrix -> Matrix, softplus: Matrix -> Matrix)
    returns (r: Result<ConditionalGuidedConvModel>)
    ensures r.Err? <==> ConvConfig(inner.catX, inner.catYPred, inner.yDim, e).Fail?
    ensures r.Err? ==> r.error == ConvConfig(inner.catX, inner.catYPred, inner.yDim, e).error
    ensures r.Ok? ==> fresh(r.value) && r.value.Valid() && r.value.inner == inner && r.value.encoderWidth == e
  {
    var check := ConvConfig(inner.catX, inner.catYPred, inner.yDim, e);
    if check.Fail? {
      return Err(check.error);
    }
    var m := new ConditionalGuidedConvModel(inner, e, norm, bn, softplus);
    return Ok(m);
  }
}
