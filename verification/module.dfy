/** `Module` of michigrad/nn.py: parameter enumeration over the closed set of
    components, and `zero_grad`, which resets the gradient of every
    parameter through the handles `parameters()` returns. */
module Modules {
  import opened Seqs
  import opened Signals
  import opened Engine
  import opened Neurons
  import opened Layers
  import opened Mlps

  /** A bare `Module()` or one of the three components. */
  datatype Module = Base | NeuronUnit(neuron: Neuron) | LayerUnit(layer: Layer) | MlpUnit(mlp: Mlp)

  /** `parameters()`; the base class enumerates nothing. */
  function Parameters(mod: Module): (ps: seq<Param>)
    ensures mod.Base? ==> ps == []
    ensures mod.NeuronUnit? ==> |ps| == |mod.neuron.w| + 1
    ensures mod.LayerUnit? ==> forall p :: p in ps <==>
              exists j :: 0 <= j < |mod.layer.neurons| && p in NeuronParams(mod.layer.neurons[j])
    ensures mod.MlpUnit? ==> forall p :: p in ps <==>
              exists i :: 0 <= i < |mod.mlp.layers| && p in LayerParams(mod.mlp.layers[i])
  {
    match mod
    case Base => []
    case NeuronUnit(n) => NeuronParams(n)
    case LayerUnit(l) => LayerParams(l)
    case MlpUnit(m) => MlpParams(m)
  }

  /** The base class owns nothing: no parameters, and nothing to reset. */
  lemma BaseModule()
    ensures Parameters(Base) == []
    ensures ZeroGrad(Base) == Base
  {
  }

  /** `for p in ps: p.grad = 0` on a list of parameters. */
  function ClearGrads(ps: seq<Param>): (qs: seq<Param>)
    ensures |qs| == |ps|
    ensures forall i :: 0 <= i < |ps| ==> qs[i] == Param(ps[i].value, 0.0)
  {
    if ps == [] then [] else [Param(ps[0].value, 0.0)] + ClearGrads(ps[1..])
  }

  function ResetNeuron(n: Neuron): Neuron
  {
    Neuron(ClearGrads(n.w), Param(n.b.value, 0.0))
  }

  function ResetNeurons(ns: seq<Neuron>): (rs: seq<Neuron>)
    ensures |rs| == |ns|
    ensures forall j :: 0 <= j < |ns| ==> rs[j] == ResetNeuron(ns[j])
  {
    if ns == [] then [] else [ResetNeuron(ns[0])] + ResetNeurons(ns[1..])
  }

  function ResetLayer(l: Layer): Layer
  {
    Layer(ResetNeurons(l.neurons), l.nonlin)
  }

  function ResetLayers(ls: seq<Layer>): (rs: seq<Layer>)
    ensures |rs| == |ls|
    ensures forall i :: 0 <= i < |ls| ==> rs[i] == ResetLayer(ls[i])
  {
    if ls == [] then [] else [ResetLayer(ls[0])] + ResetLayers(ls[1..])
  }

  /** The module after `zero_grad()`: the writes through the parameter
      handles land in the parameters the module owns. */
  function ZeroGrad(mod: Module): (r: Module)
    ensures Parameters(r) == ClearGrads(Parameters(mod))
  {
    match mod
    case Base => Base
    case NeuronUnit(n) =>
      ResetNeuronParams(n);
      NeuronUnit(ResetNeuron(n))
    case LayerUnit(l) =>
      ResetLayerParams(l);
      LayerUnit(ResetLayer(l))
    case MlpUnit(m) =>
      ResetLayersParamLists(m.layers);
      ClearGradsFlatten(LayerParamLists(m.layers));
      MlpUnit(Mlp(ResetLayers(m.layers)))
  }

  function ClearEach(ss: seq<seq<Param>>): (rs: seq<seq<Param>>)
    ensures |rs| == |ss|
    ensures forall j :: 0 <= j < |ss| ==> rs[j] == ClearGrads(ss[j])
  {
    if ss == [] then [] else [ClearGrads(ss[0])] + ClearEach(ss[1..])
  }

  lemma ClearGradsAppend(a: seq<Param>, b: seq<Param>)
    ensures ClearGrads(a + b) == ClearGrads(a) + ClearGrads(b)
  {
    assert forall i :: 0 <= i < |a + b| ==> ClearGrads(a + b)[i] == (ClearGrads(a) + ClearGrads(b))[i];
  }

  lemma {:induction false} ClearGradsFlatten(ss: seq<seq<Param>>)
    ensures ClearGrads(Flatten(ss)) == Flatten(ClearEach(ss))
  {
    if ss != [] {
      ClearGradsAppend(ss[0], Flatten(ss[1..]));
      assert ClearEach(ss)[1..] == ClearEach(ss[1..]);
      ClearGradsFlatten(ss[1..]);
    }
  }

  lemma ResetNeuronParams(n: Neuron)
    ensures NeuronParams(ResetNeuron(n)) == ClearGrads(NeuronParams(n))
  {
    ClearGradsAppend(n.w, [n.b]);
  }

  lemma {:induction false} ResetNeuronParamLists(ns: seq<Neuron>)
    ensures NeuronParamLists(ResetNeurons(ns)) == ClearEach(NeuronParamLists(ns))
  {
    forall j | 0 <= j < |ns|
      ensures NeuronParamLists(ResetNeurons(ns))[j] == ClearEach(NeuronParamLists(ns))[j]
    {
      ResetNeuronParams(ns[j]);
    }
  }

  lemma ResetLayerParams(l: Layer)
    ensures LayerParams(ResetLayer(l)) == ClearGrads(LayerParams(l))
  {
    ResetNeuronParamLists(l.neurons);
    ClearGradsFlatten(NeuronParamLists(l.neurons));
  }

  lemma ResetLayersParamLists(ls: seq<Layer>)
    ensures LayerParamLists(ResetLayers(ls)) == ClearEach(LayerParamLists(ls))
  {
    forall i | 0 <= i < |ls|
      ensures LayerParamLists(ResetLayers(ls))[i] == ClearEach(LayerParamLists(ls))[i]
    {
      ResetLayerParams(ls[i]);
    }
  }

  /** `zero_grad()` has the effect of zeroing the gradient of every element
      of `parameters()`: after it, `parameters()` lists the same number of
      parameters with the same values in the same order, each with a zero
      gradient, none skipped. */
  lemma ZeroGradClearsParameters(mod: Module)
    ensures |Parameters(ZeroGrad(mod))| == |Parameters(mod)|
    ensures forall i :: 0 <= i < |Parameters(mod)| ==>
              Parameters(ZeroGrad(mod))[i].grad == 0.0 &&
              Parameters(ZeroGrad(mod))[i].value == Parameters(mod)[i].value
  {
  }

  lemma ResetNeuronIdempotent(n: Neuron)
    ensures ResetNeuron(ResetNeuron(n)) == ResetNeuron(n)
  {
    assert ClearGrads(ClearGrads(n.w)) == ClearGrads(n.w);
  }

  /** Calling `zero_grad()` twice is the same as calling it once. */
  lemma ZeroGradIdempotent(mod: Module)
    ensures ZeroGrad(ZeroGrad(mod)) == ZeroGrad(mod)
  {
    match mod
    case Base =>
    case NeuronUnit(n) => ResetNeuronIdempotent(n);
    case LayerUnit(l) =>
      forall j | 0 <= j < |l.neurons| ensures ResetNeuron(ResetNeuron(l.neurons[j])) == ResetNeuron(l.neurons[j]) {
        ResetNeuronIdempotent(l.neurons[j]);
      }
      assert ResetNeurons(ResetNeurons(l.neurons)) == ResetNeurons(l.neurons);
    case MlpUnit(m) =>
      forall i | 0 <= i < |m.layers| ensures ResetLayer(ResetLayer(m.layers[i])) == ResetLayer(m.layers[i]) {
        var ns := m.layers[i].neurons;
        forall j | 0 <= j < |ns| ensures ResetNeuron(ResetNeuron(ns[j])) == ResetNeuron(ns[j]) {
          ResetNeuronIdempotent(ns[j]);
        }
        assert ResetNeurons(ResetNeurons(ns)) == ResetNeurons(ns);
      }
      assert ResetLayers(ResetLayers(m.layers)) == ResetLayers(m.layers);
  }

  lemma ResetNeuronCall(n: Neuron, x: Signal)
    ensures NeuronCall(ResetNeuron(n), x) == NeuronCall(n, x)
  {
    if x.Vector? {
      var a, b := Zip(ResetNeuron(n).w, x.vs), Zip(n.w, x.vs);
      assert |a| == |b| && forall i :: 0 <= i < |a| ==> a[i] == b[i];
      assert a == b;
    }
  }

  lemma {:induction false} ResetOutputs(ns: seq<Neuron>, a: Activation, ops: Ops, x: Signal)
    ensures Outputs(ResetNeurons(ns), a, ops, x) == Outputs(ns, a, ops, x)
  {
    if ns != [] {
      ResetNeuronCall(ns[0], x);
      assert ResetNeurons(ns)[1..] == ResetNeurons(ns[1..]);
      ResetOutputs(ns[1..], a, ops, x);
    }
  }

  lemma {:induction false} ResetRun(ls: seq<Layer>, ops: Ops, x: Signal)
    ensures Run(ResetLayers(ls), ops, x) == Run(ls, ops, x)
  {
    if ls != [] {
      ResetOutputs(ls[0].neurons, Dispatch(ls[0].nonlin), ops, x);
      assert ResetLayers(ls)[1..] == ResetLayers(ls[1..]);
      match LayerCall(ls[0], ops, x)
      case Err(_) =>
      case Ok(y) => ResetRun(ls[1..], ops, y);
    }
  }

  /** `zero_grad()` touches only gradients: every forward pass computes the
      same result before and after it. */
  lemma ZeroGradKeepsForward(mod: Module, ops: Ops, x: Signal)
    ensures mod.NeuronUnit? ==> NeuronCall(ZeroGrad(mod).neuron, x) == NeuronCall(mod.neuron, x)
    ensures mod.LayerUnit? ==> LayerCall(ZeroGrad(mod).layer, ops, x) == LayerCall(mod.layer, ops, x)
    ensures mod.MlpUnit? ==> MlpCall(ZeroGrad(mod).mlp, ops, x) == MlpCall(mod.mlp, ops, x)
  {
    match mod
    case Base =>
    case NeuronUnit(n) => ResetNeuronCall(n, x);
    case LayerUnit(l) => ResetOutputs(l.neurons, Dispatch(l.nonlin), ops, x);
    case MlpUnit(m) => ResetRun(m.layers, ops, x);
  }
}
