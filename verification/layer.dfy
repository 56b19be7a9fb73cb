/** `Layer` of michigrad/nn.py: `nout` neurons of arity `nin` sharing one
    activation tag, chosen at call time by a closed string match. */
module Layers {
  import opened Seqs
  import opened Signals
  import opened Engine
  import opened Neurons

  /** The `nonlin` argument is an arbitrary Python value; the library passes
      strings ("relu", "sigmoid", "tanh", "linear") and the boolean `True`. */
  datatype Nonlin = Str(s: string) | Flag(b: bool)

  /** Default `nonlin` of `Layer(nin, nout)`. */
  const DefaultLayerNonlin: Nonlin := Str("relu")

  datatype Activation = Relu | Sigmoid | Tanh | Identity

  /** The `match self.nonlin` of `Layer.__call__`: each of the three
      recognised strings selects its op, and every other value, whatever its
      type, falls through to the wildcard case. */
  function Dispatch(t: Nonlin): (a: Activation)
    ensures a == Relu <==> t == Str("relu")
    ensures a == Sigmoid <==> t == Str("sigmoid")
    ensures a == Tanh <==> t == Str("tanh")
    ensures a == Identity <==> t !in {Str("relu"), Str("sigmoid"), Str("tanh")}
  {
    if t == Str("relu") then Relu
    else if t == Str("sigmoid") then Sigmoid
    else if t == Str("tanh") then Tanh
    else Identity
  }

  function Activate(a: Activation, ops: Ops, v: real): real
  {
    match a
    case Relu => ReluValue(v)
    case Sigmoid => ops.sigmoid(v)
    case Tanh => ops.tanh(v)
    case Identity => v
  }

  /** Any unrecognised tag leaves the neuron outputs untouched. */
  lemma UnrecognisedTagIsIdentity(t: Nonlin, ops: Ops, v: real)
    requires t !in {Str("relu"), Str("sigmoid"), Str("tanh")}
    ensures Activate(Dispatch(t), ops, v) == v
  {
  }

  /** "linear" and the MLP default `True` both select identity, while the
      layer default "relu" selects the rectifier. */
  lemma KnownTagExamples(ops: Ops, v: real)
    ensures Activate(Dispatch(Str("linear")), ops, v) == v
    ensures Activate(Dispatch(Flag(true)), ops, v) == v
    ensures Dispatch(DefaultLayerNonlin) == Relu
  {
  }

  datatype Layer = Layer(neurons: seq<Neuron>, nonlin: Nonlin)

  /** What `Layer(nin, nout, nonlin)` promises: one fresh neuron of arity
      `nin` per iteration of `range(nout)`, and the tag stored as given. */
  predicate FreshLayer(l: Layer, nin: int, nout: int, nonlin: Nonlin)
  {
    && |l.neurons| == RangeLen(nout)
    && l.nonlin == nonlin
    && forall j :: 0 <= j < |l.neurons| ==> FreshNeuron(l.neurons[j], nin)
  }

  /** `Layer(nin, nout, nonlin)`; neuron `j` takes its weights from `draw(j)`. */
  function NewLayer(nin: int, nout: int, nonlin: Nonlin, draw: nat -> nat -> Uniform): (l: Layer)
    ensures FreshLayer(l, nin, nout, nonlin)
    ensures forall j, i :: 0 <= j < |l.neurons| && 0 <= i < |l.neurons[j].w| ==>
              l.neurons[j].w[i].value == draw(j)(i)
  {
    var ns := seq(RangeLen(nout), j requires 0 <= j => NewNeuron(nin, draw(j)));
    assert forall j :: 0 <= j < |ns| ==> ns[j] == NewNeuron(nin, draw(j));
    Layer(ns, nonlin)
  }

  /** Every neuron of `l` has exactly `k` weights. */
  predicate HasArity(l: Layer, k: nat)
  {
    forall j :: 0 <= j < |l.neurons| ==> |l.neurons[j].w| == k
  }

  /** The parameter lists of the neurons, in neuron order. */
  function NeuronParamLists(ns: seq<Neuron>): (ss: seq<seq<Param>>)
    ensures |ss| == |ns|
    ensures forall j :: 0 <= j < |ns| ==> ss[j] == NeuronParams(ns[j])
  {
    if ns == [] then [] else [NeuronParams(ns[0])] + NeuronParamLists(ns[1..])
  }

  /** `parameters()`: the neurons' parameters concatenated in neuron order. */
  function LayerParams(l: Layer): (ps: seq<Param>)
    ensures forall p :: p in ps <==> exists j :: 0 <= j < |l.neurons| && p in NeuronParams(l.neurons[j])
  {
    FlattenMembers(NeuronParamLists(l.neurons));
    Flatten(NeuronParamLists(l.neurons))
  }

  /** With uniform arity `k`, the layer has `|neurons|*(k+1)` parameters. */
  lemma LayerParamsLength(l: Layer, k: nat)
    requires HasArity(l, k)
    ensures |LayerParams(l)| == |l.neurons| * (k + 1)
  {
    var ss := NeuronParamLists(l.neurons);
    FlattenLength(ss);
    OffsetUniform(ss, |ss|, k + 1);
  }

  /** With uniform arity `k`, entry `i` of neuron `j`'s parameters (its
      weights, then its bias at `i == k`) sits at position `j*(k+1)+i`. */
  lemma LayerParamAt(l: Layer, k: nat, j: nat, i: nat)
    requires HasArity(l, k)
    requires j < |l.neurons| && i <= k
    ensures j * (k + 1) + i < |LayerParams(l)|
    ensures LayerParams(l)[j * (k + 1) + i] == NeuronParams(l.neurons[j])[i]
  {
    var ss := NeuronParamLists(l.neurons);
    OffsetUniform(ss, j, k + 1);
    FlattenAt(ss, j, i);
  }

  /** `len(Layer(nin, nout).parameters()) == nout*(nin+1)`, and every
      parameter of a new layer has a zero gradient and a value in [-1, 1). */
  lemma FreshLayerParams(l: Layer, nin: int, nout: int, nonlin: Nonlin)
    requires FreshLayer(l, nin, nout, nonlin)
    ensures |LayerParams(l)| == RangeLen(nout) * (RangeLen(nin) + 1)
    ensures forall p :: p in LayerParams(l) ==> p.grad == 0.0 && -1.0 <= p.value < 1.0
  {
    assert HasArity(l, RangeLen(nin));
    LayerParamsLength(l, RangeLen(nin));
    var ss := NeuronParamLists(l.neurons);
    forall p | p in LayerParams(l)
      ensures p.grad == 0.0 && -1.0 <= p.value < 1.0
    {
      FlattenMember(ss, p);
      var j :| 0 <= j < |ss| && p in ss[j];
      FreshNeuronParams(l.neurons[j], nin);
    }
  }

  /** `[act(n(x)) for n in self.neurons]`: the neurons are called in order
      and the first error propagates. */
  function Outputs(ns: seq<Neuron>, a: Activation, ops: Ops, x: Signal): (r: Result<seq<real>>)
    ensures r.Ok? <==> (x.Vector? || ns == [])
    ensures r.Ok? ==> |r.out| == |ns|
    ensures r.Ok? ==> forall j :: 0 <= j < |ns| ==>
              r.out[j] == Activate(a, ops, NeuronCall(ns[j], x).out)
  {
    if ns == [] then Ok([])
    else match NeuronCall(ns[0], x)
      case Err(e) => Err(e)
      case Ok(v) =>
        match Outputs(ns[1..], a, ops, x)
        case Err(e) => Err(e)
        case Ok(vs) => Ok([Activate(a, ops, v)] + vs)
  }

  /** `Layer.__call__`. */
  function LayerCall(l: Layer, ops: Ops, x: Signal): (r: Result<Signal>)
    ensures r.Ok? <==> (x.Vector? || |l.neurons| == 0)
    ensures r.Ok? ==> (r.out.Scalar? <==> |l.neurons| == 1)
  {
    match Outputs(l.neurons, Dispatch(l.nonlin), ops, x)
    case Err(e) => Err(e)
    case Ok(out) => Ok(Unwrap(out))
  }

  /** A layer fails only when a bare scalar reaches at least one neuron. On
      success it returns a bare scalar exactly when it has one neuron, and
      its `j`-th output is neuron `j`'s pre-activation passed through the
      activation its tag selects. */
  lemma LayerCallSpec(l: Layer, ops: Ops, x: Signal)
    ensures LayerCall(l, ops, x).Ok? <==> (x.Vector? || |l.neurons| == 0)
    ensures LayerCall(l, ops, x).Ok? ==>
              && (LayerCall(l, ops, x).out.Scalar? <==> |l.neurons| == 1)
              && |Elements(LayerCall(l, ops, x).out)| == |l.neurons|
    ensures x.Vector? ==> forall j :: 0 <= j < |l.neurons| ==>
              Elements(LayerCall(l, ops, x).out)[j]
              == Activate(Dispatch(l.nonlin), ops, Affine(l.neurons[j], x.vs))
  {
    if x.Vector? {
      forall j | 0 <= j < |l.neurons|
        ensures Elements(LayerCall(l, ops, x).out)[j]
                == Activate(Dispatch(l.nonlin), ops, Affine(l.neurons[j], x.vs))
      {
        NeuronCallIsAffine(l.neurons[j], x);
      }
    }
  }

  /** A one-neuron ReLU layer whose weighted sum is negative outputs exactly 0. */
  lemma ReluLayerFloorsNegative(l: Layer, ops: Ops, xs: seq<real>)
    requires |l.neurons| == 1 && l.nonlin == Str("relu")
    requires Affine(l.neurons[0], xs) < 0.0
    ensures LayerCall(l, ops, Vector(xs)) == Ok(Scalar(0.0))
  {
    LayerCallSpec(l, ops, Vector(xs));
  }
}
