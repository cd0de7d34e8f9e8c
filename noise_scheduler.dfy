/**
 * The diffusion noise scheduler: six beta-schedule generators, the name check and the
 * generator table of the constructor, the derived alpha sequences, and the per-step lookup
 * `get_noisy_x_at_t`. Values are exact reals; the library's sqrt, cos and sigmoid are
 * supplied as uninterpreted functions in a `Numerics` record.
 */
module NoiseSchedule {
  import opened Failures
  import Tensors

  /** The library numerics the schedules call, left uninterpreted. */
  datatype Numerics = Numerics(sqrt: real -> real, cos: real -> real, sigmoid: real -> real, pi: real)

  /** The names the constructor's assertion accepts, in the source's order. */
  const ValidSchedules: seq<string> := ["linear", "const", "quad", "jsd", "sigmoid", "cosine", "cosine_anneal"]

  /** The keys of the generator table; "jsd" is not among them. */
  const TableKeys: set<string> := {"linear", "const", "quad", "sigmoid", "cosine", "cosine_anneal"}

  const MaxBeta: real := 0.999
  const CosineS: real := 0.008

  function Min(a: real, b: real): real { if b < a then b else a }

  // ---------------------------------------------------------------------------------------
  // Generators
  // ---------------------------------------------------------------------------------------

  /** torch.linspace over exact reals: `steps` evenly spaced values from `start` to `end`. */
  function Linspace(start: real, end: real, steps: int): (r: Result<seq<real>>)
    ensures r.Ok? <==> steps >= 0
    ensures r.Ok? ==> |r.value| == steps
  {
    if steps < 0 then Err(NegativeSteps)
    else if steps == 1 then Ok([start])
    else Ok(seq(steps, k requires 0 <= k < steps => start + (k as real) * ((end - start) / ((steps - 1) as real))))
  }

  /** betas evenly spaced from beta_start to beta_end. */
  function LinearSchedule(n: int, betaStart: real, betaEnd: real): (r: Result<seq<real>>)
    ensures r.Ok? <==> n >= 0
    ensures r.Err? ==> r.error == NegativeSteps
    ensures r.Ok? ==> |r.value| == n
    ensures r.Ok? && n >= 1 ==> r.value[0] == betaStart
  {
    Linspace(betaStart, betaEnd, n)
  }

  function ConstantSchedule(n: int, betaEnd: real): (r: Result<seq<real>>)
    ensures r.Ok? <==> n >= 0
    ensures r.Ok? ==> |r.value| == n && forall k :: 0 <= k < n ==> r.value[k] == betaEnd
  {
    if n < 0 then Err(NegativeSteps) else Ok(seq(n, _ => betaEnd))
  }

  /** Evenly spaced in square-root space, then squared. */
  function QuadraticSchedule(n: int, betaStart: real, betaEnd: real, num: Numerics): (r: Result<seq<real>>)
    ensures r.Ok? <==> n >= 0
    ensures r.Ok? ==> |r.value| == n && forall k :: 0 <= k < n ==> r.value[k] >= 0.0
  {
    if n < 0 then Err(NegativeSteps)
    else
      var roots := Linspace(num.sqrt(betaStart), num.sqrt(betaEnd), n).value;
      Ok(seq(n, k requires 0 <= k < n => roots[k] * roots[k]))
  }

  /** Maps [0, 1] affinely onto [betaStart, betaEnd]. */
  function Rescale(x: real, betaStart: real, betaEnd: real): real {
    x * (betaEnd - betaStart) + betaStart
  }

  /** Logistic of evenly spaced logits in [-6, 6], rescaled, then passed through the logistic again. */
  function SigmoidSchedule(n: int, betaStart: real, betaEnd: real, num: Numerics): (r: Result<seq<real>>)
    ensures r.Ok? <==> n >= 0
    ensures r.Ok? ==> |r.value| == n
  {
    if n < 0 then Err(NegativeSteps)
    else
      var logits := Linspace(-6.0, 6.0, n).value;
      Ok(seq(n, k requires 0 <= k < n => num.sigmoid(Rescale(num.sigmoid(logits[k]), betaStart, betaEnd))))
  }

  function CosineAngle(i: int, n: int, num: Numerics): real
    requires n > 0
  {
    ((i as real) / (n as real) + CosineS) / (1.0 + CosineS) * num.pi / 2.0
  }

  function CosSquared(i: int, n: int, num: Numerics): real
    requires n > 0
  {
    var c := num.cos(CosineAngle(i, n, num));
    c * c
  }

  /** No denominator of the cosine schedule is zero. */
  predicate CosineDefined(n: int, num: Numerics) {
    forall i :: 0 <= i < n ==> CosSquared(i, n, num) != 0.0
  }

  /** Beta of step i: one minus the ratio of consecutive squared cosines, capped at MaxBeta. */
  function CosineBeta(i: int, n: int, num: Numerics): (b: real)
    requires n > 0 && CosSquared(i, n, num) != 0.0
    ensures b <= MaxBeta
  {
    Min(1.0 - CosSquared(i + 1, n, num) / CosSquared(i, n, num), MaxBeta)
  }

  /** One minus a ratio of squared cosines, capped at MaxBeta; a zero denominator raises. */
  function CosineSchedule(n: int, num: Numerics): (r: Result<seq<real>>)
    ensures r.Ok? <==> CosineDefined(n, num)
    ensures r.Ok? ==> |r.value| == (if n < 0 then 0 else n)
    ensures r.Ok? ==> forall k :: 0 <= k < |r.value| ==> r.value[k] <= MaxBeta
  {
    if n <= 0 then Ok([])
    else if !CosineDefined(n, num) then Err(ZeroDivision)
    else Ok(seq(n, i requires 0 <= i < n => CosineBeta(i, n, num)))
  }

  /** Half a cosine period from betaStart to betaEnd; the step divides by n - 1. */
  function CosineAnnealSchedule(n: int, betaStart: real, betaEnd: real, num: Numerics): (r: Result<seq<real>>)
    ensures r.Ok? <==> n != 1
    ensures r.Ok? ==> |r.value| == (if n < 0 then 0 else n)
  {
    if n <= 0 then Ok([])
    else if n == 1 then Err(ZeroDivision)
    else Ok(seq(n, t requires 0 <= t < n =>
                  betaStart + 0.5 * (betaEnd - betaStart) * (1.0 - num.cos((t as real) / ((n - 1) as real) * num.pi))))
  }

  // ---------------------------------------------------------------------------------------
  // Construction
  // ---------------------------------------------------------------------------------------

  /** The generator table, built eagerly: every generator runs, in the source's order. */
  function ScheduleTable(n: int, betaStart: real, betaEnd: real, num: Numerics): (r: Result<map<string, seq<real>>>)
    ensures r.Ok? <==> n >= 0 && n != 1 && CosineDefined(n, num)
    ensures n < 0 ==> r == Err(NegativeSteps)
    ensures n >= 0 && r.Err? ==> r == Err(ZeroDivision)
    ensures r.Ok? ==> r.value.Keys == TableKeys && forall key :: key in r.value ==> |r.value[key]| == n
  {
    // The constant, quadratic and sigmoid generators run between these, but once the
    // linear one has succeeded (n >= 0) none of them can fail.
    var linear := LinearSchedule(n, betaStart, betaEnd);
    if linear.Err? then Err(linear.error)
    else
      var cosine := CosineSchedule(n, num);
      if cosine.Err? then Err(cosine.error)
      else
        var anneal := CosineAnnealSchedule(n, betaStart, betaEnd, num);
        if anneal.Err? then Err(anneal.error)
        else
          Ok(map["linear" := linear.value,
                 "const" := ConstantSchedule(n, betaEnd).value,
                 "quad" := QuadraticSchedule(n, betaStart, betaEnd, num).value,
                 "sigmoid" := SigmoidSchedule(n, betaStart, betaEnd, num).value,
                 "cosine" := cosine.value,
                 "cosine_anneal" := anneal.value])
  }

  /** The betas the constructor stores: name check, then the eager table, then the lookup. */
  function SelectBetas(schedule: string, n: int, betaStart: real, betaEnd: real, num: Numerics): (r: Result<seq<real>>)
    ensures schedule !in ValidSchedules ==> r == Err(InvalidSchedule)
    ensures schedule in ValidSchedules && n < 0 ==> r == Err(NegativeSteps)
    ensures schedule in ValidSchedules && n == 1 ==> r == Err(ZeroDivision)
    ensures schedule == "jsd" && n >= 0 && n != 1 && CosineDefined(n, num) ==> r == Err(KeyError("jsd"))
    ensures r.Ok? <==> schedule in TableKeys && n >= 0 && n != 1 && CosineDefined(n, num)
    ensures r.Ok? ==> |r.value| == n
    ensures r.Ok? && schedule == "linear" ==> r == LinearSchedule(n, betaStart, betaEnd)
    ensures r.Ok? && schedule == "const" ==> r == ConstantSchedule(n, betaEnd)
    ensures r.Ok? && schedule == "quad" ==> r == QuadraticSchedule(n, betaStart, betaEnd, num)
    ensures r.Ok? && schedule == "sigmoid" ==> r == SigmoidSchedule(n, betaStart, betaEnd, num)
    ensures r.Ok? && schedule == "cosine" ==> r == CosineSchedule(n, num)
    ensures r.Ok? && schedule == "cosine_anneal" ==> r == CosineAnnealSchedule(n, betaStart, betaEnd, num)
  {
    if schedule !in ValidSchedules then Err(InvalidSchedule)
    else
      var table :- ScheduleTable(n, betaStart, betaEnd, num);
      if schedule in table then Ok(table[schedule]) else Err(KeyError(schedule))
  }

  // ---------------------------------------------------------------------------------------
  // Derived sequences
  // ---------------------------------------------------------------------------------------

  function OneMinus(s: seq<real>): (r: seq<real>)
    ensures |r| == |s| && forall k :: 0 <= k < |s| ==> r[k] + s[k] == 1.0
  {
    seq(|s|, k requires 0 <= k < |s| => 1.0 - s[k])
  }

  function SqrtAll(s: seq<real>, num: Numerics): (r: seq<real>)
    ensures |r| == |s|
    ensures forall k :: 0 <= k < |s| ==> r[k] == num.sqrt(s[k])
  {
    seq(|s|, k requires 0 <= k < |s| => num.sqrt(s[k]))
  }

  /** The product of all elements. */
  function Prod(s: seq<real>): real
    decreases |s|
  {
    if s == [] then 1.0 else Prod(s[..|s| - 1]) * s[|s| - 1]
  }

  /** Running product: entry k is the product of a[0..k]. */
  function CumProd(a: seq<real>): (r: seq<real>)
    ensures |r| == |a|
  {
    seq(|a|, k requires 0 <= k < |a| => Prod(a[..k + 1]))
  }

  // ---------------------------------------------------------------------------------------
  // The scheduler object
  // ---------------------------------------------------------------------------------------

  class NoiseScheduler {
    const schedule: string
    const nSteps: int
    const betaStart: real
    const betaEnd: real
    const betas: seq<real>
    const betasSqrt: seq<real>
    const alphas: seq<real>
    const alphasCumprod: seq<real>
    const alphasBarSqrt: seq<real>
    const oneMinusAlphasBarSqrt: seq<real>

    /** Every stored sequence is derived from the selected betas. */
    ghost predicate Valid(num: Numerics) {
      && SelectBetas(schedule, nSteps, betaStart, betaEnd, num) == Ok(betas)
      && betasSqrt == SqrtAll(betas, num)
      && alphas == OneMinus(betas)
      && alphasCumprod == CumProd(alphas)
      && alphasBarSqrt == SqrtAll(alphasCumprod, num)
      && oneMinusAlphasBarSqrt == SqrtAll(OneMinus(alphasCumprod), num)
    }

    /** Field assignments of a construction whose checks passed. */
    constructor (schedule: string, nSteps: int, betaStart: real, betaEnd: real, num: Numerics)
      requires SelectBetas(schedule, nSteps, betaStart, betaEnd, num).Ok?
      ensures this.schedule == schedule && this.nSteps == nSteps
      ensures this.betaStart == betaStart && this.betaEnd == betaEnd
      ensures Valid(num)
    {
      this.schedule := schedule;
      this.nSteps := nSteps;
      this.betaStart := betaStart;
      this.betaEnd := betaEnd;
      var b := SelectBetas(schedule, nSteps, betaStart, betaEnd, num).value;
      this.betas := b;
      this.betasSqrt := SqrtAll(b, num);
      var a := OneMinus(b);
      this.alphas := a;
      var cumprod := CumProd(a);
      this.alphasCumprod := cumprod;
      this.alphasBarSqrt := SqrtAll(cumprod, num);
      this.oneMinusAlphasBarSqrt := SqrtAll(OneMinus(cumprod), num);
    }
  }

  /** The constructor with its failure paths: the name assertion, the eager table, the lookup. */
  method Create(schedule: string, nSteps: int, betaStart: real, betaEnd: real, num: Numerics)
    returns (r: Result<NoiseScheduler>)
    ensures r.Err? <==> SelectBetas(schedule, nSteps, betaStart, betaEnd, num).Err?
    ensures r.Err? ==> r.error == SelectBetas(schedule, nSteps, betaStart, betaEnd, num).error
    ensures r.Ok? ==> fresh(r.value) && r.value.Valid(num)
    ensures r.Ok? ==> r.value.schedule == schedule && r.value.nSteps == nSteps
    ensures r.Ok? ==> r.value.betaStart == betaStart && r.value.betaEnd == betaEnd
  {
    var betas :- SelectBetas(schedule, nSteps, betaStart, betaEnd, num);
    var s := new NoiseScheduler(schedule, nSteps, betaStart, betaEnd, num);
    return Ok(s);
  }

  // ---------------------------------------------------------------------------------------
  // Per-step lookup
  // ---------------------------------------------------------------------------------------

  /** A gathered 1-D tensor together with the shape it is viewed as. */
  datatype Gathered = Gathered(shape: seq<nat>, values: seq<real>)

  /** Python's `[1] * k`: empty for k <= 0. */
  function Ones(k: int): (r: seq<nat>)
    ensures |r| == (if k <= 0 then 0 else k)
    ensures forall i :: 0 <= i < |r| ==> r[i] == 1
  {
    if k <= 0 then [] else seq(k, _ => 1)
  }

  function ShapeProduct(shape: seq<nat>): nat {
    if shape == [] then 1 else shape[0] * ShapeProduct(shape[1..])
  }

  /** Gather `input` at the step indices `t`, viewed as [len(t), 1, ..., 1] against a tensor of shape xShape. */
  function GetNoisyXAtT(input: seq<real>, t: seq<int>, xShape: seq<nat>): (r: Result<Gathered>)
    ensures r.Ok? <==> forall i :: 0 <= i < |t| ==> 0 <= t[i] < |input|
    ensures r.Ok? ==> r.value.shape == [|t|] + Ones(|xShape| - 1)
    ensures r.Ok? ==> |r.value.values| == |t| && forall i :: 0 <= i < |t| ==> r.value.values[i] == input[t[i]]
  {
    if exists i :: 0 <= i < |t| && !(0 <= t[i] < |input|) then Err(IndexOutOfBounds)
    else Ok(Gathered([|t|] + Ones(|xShape| - 1), seq(|t|, i requires 0 <= i < |t| => input[t[i]])))
  }

  // ---------------------------------------------------------------------------------------
  // Properties of the generators
  // ---------------------------------------------------------------------------------------

  /** The linear schedule starts at betaStart and, with two or more steps, ends at betaEnd. */
  lemma LinearScheduleEnds(n: int, betaStart: real, betaEnd: real)
    requires n >= 1
    ensures var r := LinearSchedule(n, betaStart, betaEnd);
            r.Ok? && |r.value| == n && r.value[0] == betaStart && (n >= 2 ==> r.value[n - 1] == betaEnd)
  {
  }

  /** With betaStart < betaEnd the linear schedule is strictly increasing. */
  lemma LinearScheduleIncreasing(n: int, betaStart: real, betaEnd: real)
    requires n >= 0 && betaStart < betaEnd
    ensures var r := LinearSchedule(n, betaStart, betaEnd);
            r.Ok? && forall i, j :: 0 <= i < j < n ==> r.value[i] < r.value[j]
  {
  }

  /** With betaStart <= betaEnd every entry of the linear schedule lies in [betaStart, betaEnd]. */
  lemma LinearScheduleBounds(n: int, betaStart: real, betaEnd: real)
    requires n >= 0 && betaStart <= betaEnd
    ensures var r := LinearSchedule(n, betaStart, betaEnd);
            r.Ok? && forall k :: 0 <= k < n ==> betaStart <= r.value[k] <= betaEnd
  {
    if n >= 2 {
      var r := LinearSchedule(n, betaStart, betaEnd).value;
      var step := (betaEnd - betaStart) / ((n - 1) as real);
      assert step >= 0.0;
      assert ((n - 1) as real) * step == betaEnd - betaStart;
      forall k | 0 <= k < n
        ensures betaStart <= r[k] <= betaEnd
      {
        assert r[k] == betaStart + (k as real) * step;
        assert (k as real) * step >= 0.0;
        assert ((n - 1) as real) * step - (k as real) * step == ((n - 1 - k) as real) * step;
        assert ((n - 1 - k) as real) * step >= 0.0;
      }
    }
  }

  /** The constant schedule is the linear schedule from betaEnd to betaEnd. */
  lemma ConstantIsFlatLinear(n: int, betaStart: real, betaEnd: real)
    ensures ConstantSchedule(n, betaEnd) == LinearSchedule(n, betaEnd, betaEnd)
  {
    if n >= 2 {
      var c := ConstantSchedule(n, betaEnd).value;
      var l := LinearSchedule(n, betaEnd, betaEnd).value;
      forall k | 0 <= k < n
        ensures c[k] == l[k]
      {
        assert (betaEnd - betaEnd) / ((n - 1) as real) == 0.0;
      }
      assert c == l;
    } else if n == 1 {
      assert ConstantSchedule(n, betaEnd).value == [betaEnd];
    }
  }

  /** The cosine-annealing schedule runs from betaStart to betaEnd when cos(0) = 1 and cos(pi) = -1. */
  lemma CosineAnnealEnds(n: int, betaStart: real, betaEnd: real, num: Numerics)
    requires n >= 2
    requires num.cos(0.0) == 1.0 && num.cos(num.pi) == -1.0
    ensures var r := CosineAnnealSchedule(n, betaStart, betaEnd, num);
            r.Ok? && r.value[0] == betaStart && r.value[n - 1] == betaEnd
  {
    assert (0 as real) / ((n - 1) as real) * num.pi == 0.0;
    assert ((n - 1) as real) / ((n - 1) as real) * num.pi == num.pi;
  }

  /**
   * The second logistic in the sigmoid schedule: for a logistic-like function (values in
   * [0, 1], at least 1/2 on non-negative arguments) and 0 <= betaStart <= betaEnd, every
   * entry is at least 1/2, so none lies in [betaStart, betaEnd] once betaEnd < 1/2.
   */
  lemma SigmoidScheduleAtLeastHalf(n: int, betaStart: real, betaEnd: real, num: Numerics)
    requires n >= 0 && 0.0 <= betaStart <= betaEnd
    requires forall z :: 0.0 <= num.sigmoid(z) <= 1.0
    requires forall z :: z >= 0.0 ==> num.sigmoid(z) >= 0.5
    ensures var r := SigmoidSchedule(n, betaStart, betaEnd, num);
            r.Ok? && forall k :: 0 <= k < n ==> r.value[k] >= 0.5 && (betaEnd < 0.5 ==> r.value[k] > betaEnd)
  {
  }

  // ---------------------------------------------------------------------------------------
  // Properties of the derived sequences
  // ---------------------------------------------------------------------------------------

  /** The running product starts at a[0] ... */
  lemma CumProdHead(a: seq<real>)
    requires |a| > 0
    ensures CumProd(a)[0] == a[0]
  {
    assert a[..1][..0] == [];
    assert Prod(a[..1]) == Prod(a[..1][..0]) * a[0];
  }

  /** ... and multiplies in one more alpha at each step. */
  lemma CumProdStep(a: seq<real>, k: nat)
    requires k + 1 < |a|
    ensures CumProd(a)[k + 1] == CumProd(a)[k] * a[k + 1]
  {
    assert a[..k + 2][..k + 1] == a[..k + 1];
  }

  /** The recurrence of the running product, for every index at once. */
  lemma CumProdRecurrence(a: seq<real>, c: seq<real>)
    requires c == CumProd(a)
    ensures |a| > 0 ==> c[0] == a[0]
    ensures forall k :: 0 < k < |a| ==> c[k] == c[k - 1] * a[k]
  {
    if |a| > 0 {
      CumProdHead(a);
    }
    forall k | 0 < k < |a|
      ensures c[k] == c[k - 1] * a[k]
    {
      CumProdStep(a, k - 1);
    }
  }

  lemma {:induction false} ProdInUnit(s: seq<real>)
    requires forall k :: 0 <= k < |s| ==> 0.0 <= s[k] <= 1.0
    ensures 0.0 <= Prod(s) <= 1.0
    decreases |s|
  {
    if s != [] {
      var init := s[..|s| - 1];
      ProdInUnit(init);
      assert 0.0 <= Prod(init) * s[|s| - 1] <= Prod(init);
    }
  }

  lemma {:induction false} ProdPositive(s: seq<real>)
    requires forall k :: 0 <= k < |s| ==> 0.0 < s[k]
    ensures Prod(s) > 0.0
    decreases |s|
  {
    if s != [] {
      ProdPositive(s[..|s| - 1]);
    }
  }

  /** q = p * x with p > 0 and x in (0, 1) lies strictly below any bound z >= p. */
  lemma ProductBelow(p: real, x: real, q: real, z: real)
    requires p > 0.0 && 0.0 < x < 1.0 && q == p * x && p <= z
    ensures q < z
  {
  }

  /** q = p * x with p >= 0 and x in [0, 1] lies in [0, z] for any bound z >= p. */
  lemma ProductAtMost(p: real, x: real, q: real, z: real)
    requires p >= 0.0 && 0.0 <= x <= 1.0 && q == p * x && p <= z
    ensures 0.0 <= q <= z
  {
  }

  lemma CumProdPositive(a: seq<real>, k: nat)
    requires forall m :: 0 <= m < |a| ==> 0.0 < a[m]
    requires k < |a|
    ensures CumProd(a)[k] > 0.0
  {
    ProdPositive(a[..k + 1]);
  }

  lemma CumProdInUnit(a: seq<real>, k: nat)
    requires forall m :: 0 <= m < |a| ==> 0.0 <= a[m] <= 1.0
    requires k < |a|
    ensures 0.0 <= CumProd(a)[k] <= 1.0
  {
    ProdInUnit(a[..k + 1]);
  }

  lemma {:induction false} CumProdNonIncreasingFrom(a: seq<real>, i: nat, j: nat)
    requires forall k :: 0 <= k < |a| ==> 0.0 <= a[k] <= 1.0
    requires i <= j < |a|
    ensures CumProd(a)[j] <= CumProd(a)[i]
    decreases j - i
  {
    if i < j {
      CumProdNonIncreasingFrom(a, i, j - 1);
      CumProdStep(a, j - 1);
      CumProdInUnit(a, j - 1);
      ProductAtMost(CumProd(a)[j - 1], a[j], CumProd(a)[j], CumProd(a)[i]);
    }
  }

  lemma {:induction false} CumProdDecreasingFrom(a: seq<real>, i: nat, j: nat)
    requires forall k :: 0 <= k < |a| ==> 0.0 < a[k] < 1.0
    requires i < j < |a|
    ensures CumProd(a)[j] < CumProd(a)[i]
    decreases j - i
  {
    if i < j - 1 {
      CumProdDecreasingFrom(a, i, j - 1);
    }
    CumProdStep(a, j - 1);
    CumProdPositive(a, j - 1);
    ProductBelow(CumProd(a)[j - 1], a[j], CumProd(a)[j], CumProd(a)[i]);
  }

  /** If every beta lies in [0, 1], alphas_cumprod lies in [0, 1] and never increases. */
  lemma AlphasCumprodNonIncreasing(betas: seq<real>)
    requires forall k :: 0 <= k < |betas| ==> 0.0 <= betas[k] <= 1.0
    ensures var c := CumProd(OneMinus(betas));
            && (forall k :: 0 <= k < |c| ==> 0.0 <= c[k] <= 1.0)
            && (forall i, j :: 0 <= i <= j < |c| ==> c[j] <= c[i])
  {
    var a := OneMinus(betas);
    var c := CumProd(a);
    forall k | 0 <= k < |c|
      ensures 0.0 <= c[k] <= 1.0
    {
      CumProdInUnit(a, k);
    }
    forall i, j | 0 <= i <= j < |c|
      ensures c[j] <= c[i]
    {
      CumProdNonIncreasingFrom(a, i, j);
    }
  }

  /** If every beta lies strictly inside (0, 1), alphas_cumprod strictly decreases. */
  lemma AlphasCumprodDecreasing(betas: seq<real>)
    requires forall k :: 0 <= k < |betas| ==> 0.0 < betas[k] < 1.0
    ensures var c := CumProd(OneMinus(betas));
            forall i, j :: 0 <= i < j < |c| ==> c[j] < c[i]
  {
    var a := OneMinus(betas);
    forall i, j | 0 <= i < j < |a|
      ensures CumProd(a)[j] < CumProd(a)[i]
    {
      CumProdDecreasingFrom(a, i, j);
    }
  }

  /**
   * Every stored sequence of a scheduler has one entry per step, alphas are one minus the
   * betas, and alphas_cumprod is their running product (see CumProdRecurrence).
   */
  lemma SchedulerSequences(s: NoiseScheduler, num: Numerics)
    requires s.Valid(num)
    ensures s.nSteps >= 0 && |s.betas| == s.nSteps
    ensures |s.betasSqrt| == |s.alphas| == |s.alphasCumprod| == s.nSteps
    ensures |s.alphasBarSqrt| == |s.oneMinusAlphasBarSqrt| == s.nSteps
    ensures forall k :: 0 <= k < s.nSteps ==> s.alphas[k] == 1.0 - s.betas[k]
    ensures s.alphasCumprod == CumProd(s.alphas)
  {
    assert SelectBetas(s.schedule, s.nSteps, s.betaStart, s.betaEnd, num).Ok?;
  }

  /**
   * The default scheduler ("linear", 1000 steps, betas from 1e-5 to 1e-2) starts and ends at the
   * configured betas, and alphas_cumprod at the last step is below its value at the first.
   */
  lemma DefaultLinearScheduler(s: NoiseScheduler, num: Numerics)
    requires s.Valid(num)
    requires s.schedule == "linear" && s.nSteps == 1000
    requires s.betaStart == 0.00001 && s.betaEnd == 0.01
    ensures s.betas[0] == 0.00001 && s.betas[999] == 0.01
    ensures s.alphasCumprod[999] < s.alphasCumprod[0]
  {
    LinearScheduleEnds(1000, 0.00001, 0.01);
    LinearScheduleBounds(1000, 0.00001, 0.01);
    AlphasCumprodDecreasing(s.betas);
  }

  // ---------------------------------------------------------------------------------------
  // Properties of the lookup
  // ---------------------------------------------------------------------------------------

  lemma {:induction false} OnesProduct(k: int)
    ensures ShapeProduct(Ones(k)) == 1
    decreases if k <= 0 then 0 else k
  {
    if k > 0 {
      OnesProduct(k - 1);
      assert Ones(k)[1..] == Ones(k - 1);
    }
  }

  /**
   * The gathered values can be viewed in the requested shape (same number of elements), the
   * shape has the rank of x (at least 1), and it broadcasts against x's shape whenever the
   * batch sizes agree.
   */
  lemma GatheredBroadcastsAgainstX(input: seq<real>, t: seq<int>, xShape: seq<nat>)
    requires GetNoisyXAtT(input, t, xShape).Ok?
    ensures var g := GetNoisyXAtT(input, t, xShape).value;
            && ShapeProduct(g.shape) == |g.values|
            && |g.shape| == (if |xShape| == 0 then 1 else |xShape|)
            && (|xShape| > 0 && xShape[0] == |t| ==>
                  forall d :: 0 <= d < |xShape| ==> Tensors.BroadcastDim(g.shape[d], xShape[d]) == Some(xShape[d]))
  {
    var g := GetNoisyXAtT(input, t, xShape).value;
    OnesProduct(|xShape| - 1);
    assert g.shape[1..] == Ones(|xShape| - 1);
  }
}
