# michigrad network layer in Dafny

A model of the composition layer of michigrad (`michigrad/nn.py`): `Neuron`,
`Layer` and `MLP`, together with the `Module` contract for enumerating
parameters and resetting gradients. The model covers:

- **Construction.** A neuron gets `nin` weights drawn from [-1, 1) and a bias of 0.
  A layer gets `nout` neurons and an activation tag. An MLP builds the arity
  chain `[nin] + nouts` and always tags its last layer "linear".
- **Parameter enumeration.** The order is each neuron's weights, then its bias.
  Neurons come in layer order, and layers in MLP order.
- **Forward pass.** A neuron computes its bias plus the weighted sum over the
  zipped weights and inputs. A layer chooses the activation by matching the tag
  against "relu", "sigmoid" and "tanh", and returns a bare scalar when it has
  exactly one neuron. An MLP folds its layers over the input from left to right.
- **`zero_grad`.** It resets every gradient and leaves every value unchanged.

Modules, one per component:

- `Seqs`: `len(range(n))`, `min`, and the flattening comprehension `[p for s in ss for p in s]`.
- `Signals`: what flows between layers. This is a bare scalar or a list. The module also holds the one error a forward pass can raise.
- `Engine`: the consumed interface of the engine's scalar. It has a value and a gradient; `relu`, `sigmoid` and `tanh` are here too.
- `Neurons`, `Layers`, `Mlps`: the three components.
- `Modules`: the closed union `Base | Neuron | Layer | MLP`, with `parameters()` and `zero_grad()`.

Modelling choices:

- Scalars are `real`, and a parameter is a `(value, grad)` pair.
- `relu` is taken to be `max(0, v)`, which is micrograd's rule; the engine is not part of this model.
- `sigmoid` and `tanh` are arbitrary functions supplied in an `Ops` record.
- `random.uniform(-1, 1)` becomes a draw function indexed by position (layer, neuron, weight). Its results have the subset type `Uniform` = [-1, 1). The interval is half-open because `uniform(a, b)` is `a + (b-a)*random()` and `random()` lies in [0, 1). Every lemma holds for every such function, so it holds for every outcome of the random initialisation.
- Layer sizes are Python `int`s. `range(n)` of a negative `n` is empty, and `RangeLen` models that.
- The `nonlin` argument is any Python value. It is modelled as a string or a boolean, since those are the values the library passes (the MLP default is `True`).

Behaviour of the code worth knowing:

- No length check is made on forward inputs. `zip` truncates, so a neuron uses only the common prefix of weights and inputs, and surplus inputs are ignored. `MLP(3, [4, 4, 1])` accepts a two-element input (`Mlps.ShortInputAccepted`).
- No configuration error is raised. A negative size acts as zero. An empty `nouts` fails only through the index error at `sz[-2]`, and that is a precondition here.
- The activation belongs to the layer and not to the neuron. It is selected at call time by a string match, so an unrecognised tag silently means identity.
- A layer with exactly one neuron returns a bare scalar. If the next layer has neurons, they call `zip` over that scalar. Assuming the engine's scalar is not iterable (see "## Left out"), this raises a type error, modelled as `Err(NotIterable)`. `MLP(2, [3, 1, 2])` therefore always fails (`Mlps.NarrowHiddenLayerFails`). `Mlps.RunSucceedsIff` gives the exact condition for success.

## Model

| member | source | states |
|---|---|---|
| Neurons.NewNeuron | michigrad/nn.py:15-17 | a new neuron has one weight per iteration of `range(nin)`, each the matching uniform draw in [-1, 1) with zero gradient, and a bias of exactly 0 |
| Neurons.FreshNeuronParams | michigrad/nn.py:28-30 | a new neuron's `parameters()` is its `nin` weights in construction order followed by the zero bias, `nin+1` entries in all |
| Neurons.NeuronParams | michigrad/nn.py:28-30 | `parameters()` is the weights in order followed by the bias; `Neurons.FreshNeuronParams` states it for a new neuron |
| Neurons.NeuronCall | michigrad/nn.py:19-25 | the neuron call succeeds exactly on a list input; `Neurons.NeuronCallIsAffine` states the value it computes |
| Neurons.Zip | michigrad/nn.py:22 | the zipped products stop at the shorter of weights and inputs, and entry `i` is `w[i]*x[i]` |
| Neurons.NeuronCallIsAffine | michigrad/nn.py:19-25 | the neuron call fails exactly on a bare-scalar input; on a list it equals `b + Σ_{i<min(|w|,|x|)} w[i]*x[i]`, the reference dot product, although Python's `sum` folds from the left starting at the bias |
| Neurons.NeuronIgnoresSurplusInputs | michigrad/nn.py:22 | inputs beyond the neuron's arity do not change its output; no length error is raised |
| Layers.Dispatch | michigrad/nn.py:51-55 | "relu", "sigmoid" and "tanh" each select their own op, and every other tag selects identity |
| Layers.UnrecognisedTagIsIdentity | michigrad/nn.py:55 | every tag other than the three recognised strings leaves the neuron output unchanged |
| Layers.KnownTagExamples | michigrad/nn.py:39-55 | "linear" and the boolean `True` both select identity, and the layer default "relu" selects the rectifier |
| Layers.NewLayer | michigrad/nn.py:39-46 | `Layer(nin, nout, nonlin)` holds `nout` fresh neurons of arity `nin`, stores the tag as given, and each weight is its own draw |
| Layers.LayerParams | michigrad/nn.py:60-62 | a parameter belongs to the layer's list exactly when it belongs to one of its neurons' lists; `Layers.LayerParamsLength` and `Layers.LayerParamAt` give the length and the order |
| Layers.LayerParamsLength | michigrad/nn.py:60-62 | a layer whose neurons all have `k` weights has `|neurons|*(k+1)` parameters |
| Layers.LayerParamAt | michigrad/nn.py:60-62 | entry `i` of neuron `j`'s parameters (its weights, then its bias) sits at position `j*(k+1)+i` of the layer's parameters |
| Layers.FreshLayerParams | michigrad/nn.py:43-62 | a new layer has `nout*(nin+1)` parameters, each with zero gradient and a value in [-1, 1) |
| Layers.Outputs | michigrad/nn.py:51-55 | the output list holds one entry per neuron, in order, each the neuron's output passed through the selected activation; it fails exactly when a bare scalar reaches at least one neuron |
| Signals.Unwrap | michigrad/nn.py:57 | the output is a bare scalar exactly when there is one output, and it carries exactly the outputs in order |
| Layers.LayerCall | michigrad/nn.py:48-58 | the call succeeds exactly on a list input or with no neurons, and returns a bare scalar exactly when there is one neuron; `Layers.LayerCallSpec` adds the value of each output |
| Layers.LayerCallSpec | michigrad/nn.py:48-58 | a layer call succeeds exactly on a list input or when the layer has no neurons; it returns a bare scalar exactly when there is one neuron, and output `j` is the activation of neuron `j`'s affine pre-activation |
| Layers.ReluLayerFloorsNegative | michigrad/nn.py:52 | a one-neuron ReLU layer whose weighted sum is negative outputs exactly 0 |
| Mlps.NewMlp | michigrad/nn.py:99-106 | for non-empty `nouts`, the MLP has `|nouts|` fresh layers; layer `i` maps `sz[i]` to `sz[i+1]`, the hidden layers carry the caller's tag, and the last carries "linear" |
| Mlps.FreshMlpStructure | michigrad/nn.py:99-106 | the first layer reads `nin` inputs, each later layer reads as many inputs as its predecessor has neurons, and the output layer's activation is identity whatever tag was requested |
| Mlps.MlpParams | michigrad/nn.py:115-117 | a parameter belongs to the MLP's list exactly when it belongs to one of its layers' lists; `Mlps.MlpParamAt` and `Mlps.FreshMlpParamAt` give the order, and `Mlps.FreshMlpParams` gives the length |
| Mlps.MlpParamAt | michigrad/nn.py:115-117 | entry `k` of layer `i`'s parameters sits at position `Offset(i) + k` of the MLP's parameters, where `Offset(i)` counts the parameters of layers `0..i-1`, so the layers' lists come in layer order |
| Mlps.FreshMlpParamAt | michigrad/nn.py:99-117 | in a new MLP, layer `i`'s parameters start at position `Σ_{l<i} nouts[l]*(sz[l]+1)` and follow in their own order |
| Mlps.FreshMlpParams | michigrad/nn.py:115-117 | a new MLP has `Σ_i nouts[i]*(sz[i]+1)` parameters, each with zero gradient and a value in [-1, 1) |
| Mlps.ThreeFourFourOneCount | michigrad/nn.py:115-117 | `MLP(3, [4, 4, 1])` has 41 parameters |
| Mlps.Run | michigrad/nn.py:109-113 | a successful pass over a non-empty stack returns a bare scalar exactly when the last layer has one neuron, and otherwise one output per neuron of the last layer; `Mlps.RunAppend` and `Mlps.RunSucceedsIff` give the fold and the success condition |
| Mlps.MlpCall | michigrad/nn.py:109-113 | the MLP's result has the shape of its last layer's output; `Mlps.FreshMlpForward` states it for a new MLP |
| Mlps.RunAppend | michigrad/nn.py:109-113 | the forward pass is a left fold: running a stack split in two equals running the first part and feeding its result to the second |
| Mlps.RunSucceedsIff | michigrad/nn.py:109-113 | the forward pass succeeds exactly when no bare scalar reaches a layer with neurons, whether that scalar is the input or a one-neuron layer's output |
| Mlps.FreshMlpForward | michigrad/nn.py:99-113 | a new MLP fed a list succeeds exactly when no width-1 hidden layer feeds a non-empty layer; its result is a bare scalar exactly when `nouts[-1] == 1`, and otherwise has `nouts[-1]` outputs |
| Mlps.DefaultMlpAllLinear | michigrad/nn.py:99-106 | with `nonlin` left at its default `True`, every layer of the MLP applies identity, hidden layers included |
| Mlps.ScalarHead | michigrad/nn.py:109-113 | `MLP(2, [3, 3, 1])` on two inputs returns a single bare scalar |
| Mlps.VectorHead | michigrad/nn.py:109-113 | `MLP(2, [3, 3, 2])` on two inputs returns a list of exactly two outputs |
| Mlps.ShortInputAccepted | michigrad/nn.py:109-113 | `MLP(3, [4, 4, 1])` on a two-element input succeeds; there is no shape error |
| Mlps.NarrowHiddenLayerFails | michigrad/nn.py:109-113 | `MLP(2, [3, 1, 2])` fails on every list input, because its one-neuron hidden layer hands a bare scalar to the next layer |
| Modules.ClearGrads | michigrad/nn.py:6-8 | the loop over the parameters keeps their number, order and values, and sets every gradient to 0 |
| Modules.Parameters | michigrad/nn.py:10-11 | a bare `Module` has no parameters; a neuron has one more parameter than weights; a layer's or MLP's list holds exactly the parameters of its children |
| Modules.ZeroGrad | michigrad/nn.py:6-8 | the parameters after the reset are those before it with every gradient set to 0; `Modules.ZeroGradClearsParameters` spells this out entry by entry |
| Modules.BaseModule | michigrad/nn.py:10-11 | a bare `Module` has no parameters, and `zero_grad` leaves it as it is |
| Modules.ZeroGradClearsParameters | michigrad/nn.py:6-8 | after `zero_grad`, `parameters()` has the same length, each entry keeps its value, and every gradient is 0, none skipped |
| Modules.ZeroGradIdempotent | michigrad/nn.py:6-8 | `zero_grad` twice equals `zero_grad` once |
| Modules.ZeroGradKeepsForward | michigrad/nn.py:6-8 | `zero_grad` changes no forward result of a neuron, layer or MLP |

## Left out

- The engine's scalar is reduced to a value and a gradient. Its computation graph, the backward pass and the gradient accumulation are not part of this model. `michigrad/engine.py` is not part of this model either.
- Floating point: values are exact reals. The left-to-right order of Python's `sum` is modelled, but rounding is not.
- `sigmoid` and `tanh` are left as arbitrary functions. `relu` is assumed to be `max(0, v)`.
- `Value` is assumed, as in micrograd, to define neither `__iter__` nor `__getitem__`, so `zip` over a bare scalar raises TypeError. The error model rests on this assumption: `Signals.NotIterable`, `Neurons.NeuronCall`, `Layers.Outputs`, `Mlps.RunSucceedsIff`, `Mlps.FreshMlpForward` and `Mlps.NarrowHiddenLayerFails`.
- The sequence of `random.uniform` calls is replaced by a draw function indexed by position. The order in which the calls happen is not modelled; only their range is.
- Object identity: parameters are values, not shared handles. `zero_grad` is modelled as returning the module with its owned parameters reset. `Modules.ZeroGradClearsParameters` states that this equals resetting every element of `parameters()`.
- `__repr__` (michigrad/nn.py:32-33, 64-69, 119-120) is left out, because it only formats text.
- The constructor inside the string literal at michigrad/nn.py:79-98 is dead code. So is the commented-out activation at line 26.
- `Layer`'s `**kwargs` are accepted and ignored by the source, so they do not appear.
- Arguments of the wrong Python type are not modelled. These are non-integer sizes, which make `range` raise, and input containers other than lists. A `nonlin` that is neither a string nor a boolean behaves like the boolean case, falling through to identity.
- The error raised on an empty `nouts` is not modelled; that case is a precondition of `Mlps.NewMlp`.
