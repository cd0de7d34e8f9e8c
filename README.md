# CARDS model utilities in Dafny

This project models the utilities behind CARDS (Classification and Regression Diffusion) in
`lightning_uq_box/models/cards.py`. It covers three parts.

- **The diffusion noise scheduler.** It checks the schedule name, builds the table of beta
  schedules (linear, constant, quadratic, sigmoid, cosine, cosine annealing) and picks one.
  It then derives `betas_sqrt`, `alphas`, `alphas_cumprod` and the two square-root sequences.
  A separate lookup gathers a schedule at a batch of step indices and reshapes the result for
  broadcasting.
- **The time-gated layer `ConditionalLinear` and the `DiffusionSequential` container.** The
  container passes the step indices to the gated stages and only the activation to every
  other stage.
- **The two guidance networks.** `ConditionalGuidedLinearModel` sizes its stack from its
  configuration and concatenates its inputs as its flags say. `ConditionalGuidedConvModel`
  checks its configuration against the encoder width and gates the encoded features before it
  calls a linear guided model.

Modules and files:

- `failures.dfy` (`Failures`): the exceptions the code can raise, plus `Option`, `Result` and
  `Outcome`.
- `tensors.dfy` (`Tensors`): rank-2 tensors over exact reals, the affine map of a linear
  layer, concatenation along the feature dimension and the broadcasting elementwise product.
- `noise_scheduler.dfy` (`NoiseSchedule`): the generators, the construction (a class with
  immutable fields and a `Create` method that returns the error the constructor would raise),
  the derived sequences and `get_noisy_x_at_t`.
- `layers.dfy` (`Layers`): `ConditionalLinear.forward`, the container as a function `Run` and
  as a loop method `Forward` proved equal to it, and how stage lists chain their widths.
- `guided_models.dfy` (`GuidedModels`): the two guidance models.

A layer's sizes (`Layer`) are kept apart from its learned tables (`Weights`).
`Fitted(layers, ws)` says that the tables have the sizes the layers declare. The library's
`sqrt`, `cos`, `sigmoid` and `pi` are the fields of a `Numerics` record and are left
uninterpreted. Activations and batch normalisation are opaque functions on matrices. Where a
lemma needs such a function to keep shapes, it says so with `ShapePreserving`.

Behaviour of the code that the model exposes as stated properties:

- `"jsd"` passes the name check but has no entry in the generator table, so construction with
  it raises a `KeyError`. This is part of the contract of `SelectBetas`.
- Every generator runs before the table is indexed. With `n_steps = 1`, cosine annealing
  divides by zero, so construction fails whatever schedule was asked for (`SelectBetas`).
- `get_noisy_x_at_t` is declared inside the class without `self`. Called on an instance, the
  instance would take the place of `input`. It is modelled as a free function of its three
  parameters.
- A gated layer with `n_outputs = 0` raises at `gamma.view(-1, 0)`: the inferred dimension of
  an empty tensor is ambiguous (`GateView`, `CondLinearForward`). Width lemmas about stacks
  therefore ask for non-zero gated widths.
- In the convolutional model's forward pass, the gated encoding has width `e`, and
  `[y_t, y_0_hat]` has width `y_dim = 2e`. Their broadcasting product is shape-valid only when
  `e <= 1` (`ConvProductNeedsNarrowEncoder`). Every configured model with `e >= 2` therefore
  fails in every forward pass (`ConvForwardRejectsWideEncoder`). With `e = 0` the gated
  connection layer has no outputs and fails at its view (`ConvForwardRejectsEmptyEncoder`).
  Only `e = 1` gives a working forward pass (`ConvForwardScalarEncoder`).
- The docstrings give `t` the shape `[1]`. A single step shared by the batch and one step per
  sample both broadcast against the batch, and the shape lemmas cover both.
- The sigmoid schedule applies the logistic twice. For `0 <= beta_start <= beta_end`, every
  entry is at least 1/2. With `beta_end < 1/2`, no entry falls in `[beta_start, beta_end]`
  (`SigmoidScheduleAtLeastHalf`).

## Model

| member | source | states |
|---|---|---|
| NoiseSchedule.LinearSchedule | lightning_uq_box/models/cards.py:65-67 | the linear generator fails exactly for a negative step count; otherwise `n_steps` entries, the first being `beta_start` |
| NoiseSchedule.Linspace | lightning_uq_box/models/cards.py:65-67 | `torch.linspace`: succeeds exactly for a non-negative step count and yields that many values |
| NoiseSchedule.LinearScheduleEnds | lightning_uq_box/models/cards.py:65-67 | the linear schedule has `n_steps` entries, starts at `beta_start` and, with two or more steps, ends at `beta_end` |
| NoiseSchedule.LinearScheduleIncreasing | lightning_uq_box/models/cards.py:65-67 | with `beta_start < beta_end` the linear schedule is strictly increasing |
| NoiseSchedule.LinearScheduleBounds | lightning_uq_box/models/cards.py:65-67 | with `beta_start <= beta_end` every linear entry lies in `[beta_start, beta_end]` |
| NoiseSchedule.ConstantSchedule | lightning_uq_box/models/cards.py:69-71 | `n_steps` entries, all equal to `beta_end`; a negative count raises |
| NoiseSchedule.ConstantIsFlatLinear | lightning_uq_box/models/cards.py:65-71 | the constant schedule equals the linear schedule from `beta_end` to `beta_end`, errors included |
| NoiseSchedule.QuadraticSchedule | lightning_uq_box/models/cards.py:73-78 | succeeds exactly for `n_steps >= 0`, with `n_steps` non-negative entries (squares) |
| NoiseSchedule.SigmoidSchedule | lightning_uq_box/models/cards.py:80-87 | succeeds exactly for `n_steps >= 0`, with `n_steps` entries |
| NoiseSchedule.SigmoidScheduleAtLeastHalf | lightning_uq_box/models/cards.py:80-87 | the double logistic makes every entry at least 1/2, hence above `beta_end` whenever `beta_end < 1/2` |
| NoiseSchedule.CosineBeta | lightning_uq_box/models/cards.py:91-113 | a cosine-schedule beta never exceeds 0.999 |
| NoiseSchedule.CosineSchedule | lightning_uq_box/models/cards.py:89-116 | succeeds exactly when no squared-cosine denominator is zero; `n_steps` entries (none when `n_steps <= 0`), each at most 0.999 |
| NoiseSchedule.CosineAnnealSchedule | lightning_uq_box/models/cards.py:118-128 | fails (division by `n_steps - 1`) exactly when `n_steps = 1`; otherwise `max(n_steps, 0)` entries |
| NoiseSchedule.CosineAnnealEnds | lightning_uq_box/models/cards.py:118-128 | with `cos 0 = 1` and `cos pi = -1`, the annealing schedule runs from `beta_start` to `beta_end` |
| NoiseSchedule.ScheduleTable | lightning_uq_box/models/cards.py:50-56 | the eager table succeeds exactly when `n_steps >= 0`, `n_steps != 1` and the cosine denominators are non-zero; a negative count raises first, otherwise a division by zero; its keys are the six generator names, each with `n_steps` entries |
| NoiseSchedule.SelectBetas | lightning_uq_box/models/cards.py:15-57 | an unknown name fails the assertion; a valid name with `n_steps = 1` raises a division by zero; `"jsd"` raises `KeyError` whenever the table itself succeeds; success exactly for the six table names on a successful table, returning that generator's `n_steps` betas |
| NoiseSchedule.OneMinus | lightning_uq_box/models/cards.py:60 | `alphas[k] + betas[k] = 1` entrywise, same length |
| NoiseSchedule.SqrtAll | lightning_uq_box/models/cards.py:59-63 | `torch.sqrt` on a sequence keeps its length and takes the square root of each entry |
| NoiseSchedule.CumProd | lightning_uq_box/models/cards.py:61 | the running product has the length of its input |
| NoiseSchedule.CumProdHead | lightning_uq_box/models/cards.py:61 | `alphas_cumprod[0] = alphas[0]` |
| NoiseSchedule.CumProdStep | lightning_uq_box/models/cards.py:61 | `alphas_cumprod[k+1] = alphas_cumprod[k] * alphas[k+1]` |
| NoiseSchedule.CumProdRecurrence | lightning_uq_box/models/cards.py:61 | the running product starts at the first alpha and multiplies in one alpha per step, for every index at once |
| NoiseSchedule.AlphasCumprodNonIncreasing | lightning_uq_box/models/cards.py:60-61 | betas in `[0, 1]` give an `alphas_cumprod` in `[0, 1]` that never increases |
| NoiseSchedule.AlphasCumprodDecreasing | lightning_uq_box/models/cards.py:60-61 | betas strictly inside `(0, 1)` give a strictly decreasing `alphas_cumprod` |
| NoiseSchedule.NoiseScheduler.constructor | lightning_uq_box/models/cards.py:45-63 | the fields are assigned in order and every stored sequence is derived from the selected betas (`Valid`) |
| NoiseSchedule.Create | lightning_uq_box/models/cards.py:25-63 | construction raises exactly the error `SelectBetas` gives; on success a fresh scheduler with the given settings and derived sequences |
| NoiseSchedule.SchedulerSequences | lightning_uq_box/models/cards.py:59-63 | every stored sequence of a constructed scheduler has `n_steps` entries, `alphas[k] = 1 - betas[k]`, and `alphas_cumprod` is the running product of the alphas |
| NoiseSchedule.DefaultLinearScheduler | lightning_uq_box/models/cards.py:25-67 | the default scheduler (linear, 1000 steps, 1e-5 to 1e-2) has first beta 1e-5, last beta 1e-2 and a smaller last `alphas_cumprod` than its first |
| NoiseSchedule.Ones | lightning_uq_box/models/cards.py:143 | `[1] * k` has `max(k, 0)` entries, all 1 |
| NoiseSchedule.GetNoisyXAtT | lightning_uq_box/models/cards.py:130-144 | succeeds exactly when every step index lies inside `input`; the shape is `[len(t)] + [1] * (rank(x) - 1)` and entry i is `input[t[i]]` |
| NoiseSchedule.GatheredBroadcastsAgainstX | lightning_uq_box/models/cards.py:141-144 | the reshape keeps the element count, has the rank of `x` (at least 1) and broadcasts against `x` when the batch sizes agree |
| Tensors.LinearMap | lightning_uq_box/models/cards.py:175 | a linear layer accepts exactly inputs of width `n_inputs` and yields `[N, n_outputs]` |
| Tensors.Concat | lightning_uq_box/models/cards.py:269-278 | concatenation along dimension 1 succeeds exactly for equal heights; each row is the first row followed by the second |
| Tensors.Mul | lightning_uq_box/models/cards.py:177 | the elementwise product succeeds exactly when both dimensions broadcast, has the broadcast shape, and entry `(i, j)` is the product of the entries each operand broadcasts to `(i, j)` (a size-1 dimension is read at index 0) |
| Tensors.MulSameShape | lightning_uq_box/models/cards.py:177 | operands of one shape always multiply, with the same shape, entry by entry |
| Layers.Embed | lightning_uq_box/models/cards.py:176 | the embedding lookup succeeds exactly when every index is below `n_steps`; row i is the gate row of `t[i]` |
| Layers.GateView | lightning_uq_box/models/cards.py:177 | `gamma.view(-1, n_outputs)` of an `[N, n_outputs]` gate keeps it when `n_outputs > 0` and raises when `n_outputs = 0` |
| Layers.CondLinearForward | lightning_uq_box/models/cards.py:165-178 | succeeds exactly for input width `n_inputs`, in-range steps, `n_outputs > 0` and broadcastable batch sizes; `n_outputs = 0` raises at the view; shape `[N, n_outputs]`; `out[i][j] = embed[t[i]][j] * lin(x)[i][j]` |
| Layers.CondLinearSharedStep | lightning_uq_box/models/cards.py:165-178 | with a single in-range step index, the layer succeeds exactly when `n_outputs > 0`, and every sample is gated by that step's row |
| Layers.GateSelectsStep | lightning_uq_box/models/cards.py:175-178 | two step batches whose gate rows differ at `j` give different outputs wherever the linear output is non-zero |
| Layers.Run | lightning_uq_box/models/cards.py:200-205 | an empty container returns its input; a one-stage container is that stage applied to the input (with `t` only if it is gated) |
| Layers.Forward | lightning_uq_box/models/cards.py:190-205 | the loop over the stages computes `Run`: stages in insertion order, `t` passed to the gated stages only, the first failure ends the pass |
| Layers.RunAppend | lightning_uq_box/models/cards.py:200-205 | running two stage lists in sequence is running their concatenation |
| Layers.RunIgnoresSteps | lightning_uq_box/models/cards.py:200-205 | a container without gated stages never depends on `t` |
| Layers.ChainedAppend | lightning_uq_box/models/cards.py:200-205 | stage lists whose widths chain `a` to `b` and `b` to `c` chain `a` to `c` when concatenated |
| Layers.RunChained | lightning_uq_box/models/cards.py:200-205 | a container whose widths chain, with non-zero gated widths, fed in-range steps (one per sample or one shared) succeeds, ends at the final width and keeps the batch size |
| GuidedModels.StackLayout | lightning_uq_box/models/cards.py:249-258 | the stack has `2 len(n_hidden) + 1` stages: pair k is `ConditionalLinear(sizes[k], sizes[k+1], n_steps)` then the activation, and the last is `Linear(sizes[-1], n_outputs)` |
| GuidedModels.StackChained | lightning_uq_box/models/cards.py:244-258 | with a width-preserving activation and non-zero hidden widths, the stack maps the first-layer width to `n_outputs`, and every gated stage has `n_steps` gate rows |
| GuidedModels.ConditionalGuidedLinearModel.constructor | lightning_uq_box/models/cards.py:211-258 | the settings are stored and the accumulated first-layer width and the loop-built stack are those the configuration determines (`Valid`) |
| GuidedModels.StepInput | lightning_uq_box/models/cards.py:269-278 | an enabled part that is `None` raises; success exactly when the enabled parts match `y_t` in height; each row is `y_t`, then `y_0_hat` if enabled, then `x` if enabled |
| GuidedModels.StepInputWidth | lightning_uq_box/models/cards.py:244-279 | parts of the configured widths concatenate to `y_dim + (cat_x ? x_dim : 0) + (cat_y_pred ? y_dim : 0)` |
| GuidedModels.ConditionalGuidedLinearModel.OutputIgnoresXAndY0Hat | lightning_uq_box/models/cards.py:269-279 | with both flags off, the output is the stack applied to `y_t`, whatever `x` and `y_0_hat` are |
| GuidedModels.ConditionalGuidedLinearModel.Output | lightning_uq_box/models/cards.py:260-279 | an enabled `None` part raises before any stage runs; otherwise the stack runs on the flag-selected concatenation, which is `y_t` alone with both flags off |
| GuidedModels.ConditionalGuidedLinearModel.OutputShape | lightning_uq_box/models/cards.py:260-279 | a configured model with non-zero hidden widths, fed parts of the configured widths and in-range steps (one per sample or one shared), yields `[N, n_outputs]` |
| GuidedModels.ConvConfig | lightning_uq_box/models/cards.py:305-317 | the checks in order: `cat_x` is rejected, then `cat_y_pred`, then `2e != y_dim` |
| GuidedModels.CreateConv | lightning_uq_box/models/cards.py:285-325 | construction fails exactly when a check fails, with that check's error; on success a configured model over the given inner model and encoder width |
| GuidedModels.ConditionalGuidedConvModel.constructor | lightning_uq_box/models/cards.py:305-325 | a model built after passing checks stores the inner model and `e`, copies `n_steps`, and its connection stages are the gated `e`-to-`e` layer, batch norm and softplus |
| GuidedModels.ConditionalGuidedConvModel.ConnectShape | lightning_uq_box/models/cards.py:321-340 | with `e > 0` and in-range steps (one per sample or one shared), the connection stages keep the normalised encoding at width `e` and the batch size |
| GuidedModels.ConvProductNeedsNarrowEncoder | lightning_uq_box/models/cards.py:315-344 | the product of an `[N, e]` encoding with an `[N, 2e]` target is shape-valid exactly when `e <= 1` |
| GuidedModels.ConvForwardRejectsWideEncoder | lightning_uq_box/models/cards.py:327-346 | a configured conv model with `e >= 2` fails every forward pass with a shape mismatch |
| GuidedModels.ConditionalGuidedConvModel.Output | lightning_uq_box/models/cards.py:327-346 | a successful pass had a successful connection, concatenation and product; with the inner flags off it is the inner stack run on that product |
| GuidedModels.ConvForwardRejectsEmptyEncoder | lightning_uq_box/models/cards.py:321-346 | with `e = 0`, every forward pass of a configured conv model raises at the gated connection layer's view |
| GuidedModels.ConvForwardScalarEncoder | lightning_uq_box/models/cards.py:327-346 | with `e = 1` and non-zero inner hidden widths, a configured conv model yields `[N, n_outputs]` |

## Left out

- Floating point: every value is an exact real, so `torch.linspace` rounding and float32 storage are not modelled.
- `sqrt`, `cos`, `sigmoid` and `pi` are uninterpreted. Only the lemmas that name a property of them (`CosineAnnealEnds`, `SigmoidScheduleAtLeastHalf`) assume it.
- NoiseSchedule.QuadraticSchedule: its values are stated only as non-negative squares, because the square roots are uninterpreted.
- NoiseSchedule.SigmoidSchedule: its values are stated only through `SigmoidScheduleAtLeastHalf`, because the logistic is uninterpreted.
- NoiseSchedule.CumProd: its entries are stated through `CumProdHead` and `CumProdStep` rather than in its own contract.
- A Python float `n_steps` or `beta` argument is not modelled: the step count is an `int` and the betas are reals.
- Parameter initialisation (`uniform_` on the gate table, the default initialisation of the linear layers) is not modelled. The weight, bias and gate tables are given `Weights`.
- The encoder and `_get_output_layer_name_and_module` are not part of this model. The encoder width `e` is a constructor parameter, and the encoder's output is an input of the conv model's `Output`.
- `BatchNorm1d` and `Softplus` are opaque functions on matrices. That `nn.BatchNorm1d(e, e)` passes `e` as the `eps` argument is not modelled.
- Tensors are rank 2 in the layers and models. `get_noisy_x_at_t` keeps the shape of `x` only as a list of dimensions.
- Layer widths and step counts of the models are natural numbers. The errors PyTorch raises for negative sizes are not modelled; a zero gated width is modelled and raises at the view.
- `t.to(input.device)`, autograd, training and the sampling loop are not modelled.
- Only the `ConditionalGuidedConvModel` encoder output and `None` operands are covered as misuse. Passing tensors of other ranks, or of a non-float type, is not modelled.
