/** `MLP` of michigrad/nn.py: a stack of layers with chained arities
    `[nin] + nouts`, the last one always built "linear"; the call threads the
    input through the layers in order. */
module Mlps {
  import opened Seqs
  import opened Signals
  import opened Engine
  import opened Neurons
  import opened Layers

  datatype Mlp = Mlp(layers: seq<Layer>)

  /** Default `nonlin` of `MLP(nin, nouts)`. */
  const DefaultMlpNonlin: Nonlin := Flag(true)

  /** Tag of the output layer, whatever the caller asked for. */
  const Linear: Nonlin := Str("linear")

  /** `sz = [nin] + nouts`: layer `i` maps `sz[i]` inputs to `sz[i+1]` outputs. */
  function Sizes(nin: int, nouts: seq<int>): seq<int>
  {
    [nin] + nouts
  }

  /** What `MLP(nin, nouts, nonlin)` promises: one fresh layer per entry of
      `nouts`, layer `i` of arity `sz[i] -> sz[i+1]`, tagged `nonlin`
      except the last, which is tagged "linear". */
  predicate FreshMlp(m: Mlp, nin: int, nouts: seq<int>, nonlin: Nonlin)
  {
    && |m.layers| == |nouts|
    && forall i :: 0 <= i < |nouts| ==>
         FreshLayer(m.layers[i], Sizes(nin, nouts)[i], nouts[i],
                    if i == |nouts| - 1 then Linear else nonlin)
  }

  /** `MLP(nin, nouts, nonlin)`: the hidden layers in a loop over
      `range(len(nouts)-1)`, then the output layer `Layer(sz[-2], sz[-1],
      "linear")`. Layer `i` takes its weights from `draw(i)`. An empty
      `nouts` makes `sz[-2]` raise an index error, hence the precondition. */
  function NewMlp(nin: int, nouts: seq<int>, nonlin: Nonlin, draw: nat -> nat -> nat -> Uniform): (m: Mlp)
    requires |nouts| > 0
    ensures FreshMlp(m, nin, nouts, nonlin)
  {
    var sz := Sizes(nin, nouts);
    var hidden := seq(|nouts| - 1, i requires 0 <= i < |nouts| - 1 =>
                    NewLayer(sz[i], sz[i + 1], nonlin, draw(i)));
    var layers := hidden + [NewLayer(sz[|sz| - 2], sz[|sz| - 1], Linear, draw(|nouts| - 1))];
    assert FreshMlp(Mlp(layers), nin, nouts, nonlin) by {
      forall i | 0 <= i < |nouts|
        ensures FreshLayer(layers[i], sz[i], nouts[i], if i == |nouts| - 1 then Linear else nonlin)
      {
        assert sz[i + 1] == nouts[i];
        if i < |nouts| - 1 {
          assert layers[i] == hidden[i] == NewLayer(sz[i], sz[i + 1], nonlin, draw(i));
          assert FreshLayer(layers[i], sz[i], sz[i + 1], nonlin);
        } else {
          assert |sz| - 2 == i && |sz| - 1 == i + 1;
          assert layers[i] == NewLayer(sz[i], sz[i + 1], Linear, draw(i));
          assert FreshLayer(layers[i], sz[i], sz[i + 1], Linear);
        }
      }
    }
    Mlp(layers)
  }

  /** The structural invariants of a new MLP: the first layer reads `nin`
      inputs, each later layer reads as many inputs as its predecessor has
      neurons, hidden layers keep the caller's tag and the output layer
      applies the identity whatever that tag is. */
  lemma FreshMlpStructure(m: Mlp, nin: int, nouts: seq<int>, nonlin: Nonlin)
    requires FreshMlp(m, nin, nouts, nonlin) && |nouts| > 0
    ensures HasArity(m.layers[0], RangeLen(nin))
    ensures forall i :: 0 <= i < |nouts| - 1 ==> HasArity(m.layers[i + 1], |m.layers[i].neurons|)
    ensures forall i :: 0 <= i < |nouts| ==> |m.layers[i].neurons| == RangeLen(nouts[i])
    ensures forall i :: 0 <= i < |nouts| - 1 ==> m.layers[i].nonlin == nonlin
    ensures m.layers[|nouts| - 1].nonlin == Linear
    ensures Dispatch(m.layers[|nouts| - 1].nonlin) == Identity
  {
    forall i | 0 <= i < |nouts| - 1
      ensures HasArity(m.layers[i + 1], |m.layers[i].neurons|)
    {
      assert FreshLayer(m.layers[i + 1], Sizes(nin, nouts)[i + 1], nouts[i + 1],
                        if i + 1 == |nouts| - 1 then Linear else nonlin);
    }
  }

  /** The parameter lists of the layers, in layer order. */
  function LayerParamLists(ls: seq<Layer>): (ss: seq<seq<Param>>)
    ensures |ss| == |ls|
    ensures forall i :: 0 <= i < |ls| ==> ss[i] == LayerParams(ls[i])
  {
    if ls == [] then [] else [LayerParams(ls[0])] + LayerParamLists(ls[1..])
  }

  /** `parameters()`: the layers' parameters concatenated in layer order. */
  function MlpParams(m: Mlp): (ps: seq<Param>)
    ensures forall p :: p in ps <==> exists i :: 0 <= i < |m.layers| && p in LayerParams(m.layers[i])
  {
    FlattenMembers(LayerParamLists(m.layers));
    Flatten(LayerParamLists(m.layers))
  }

  /** Reference count `Σ_i nouts[i] * (sz[i] + 1)` along the arity chain. */
  function ParamCount(nin: int, nouts: seq<int>): nat
    decreases |nouts|
  {
    if nouts == [] then 0
    else RangeLen(nouts[0]) * (RangeLen(nin) + 1) + ParamCount(nouts[0], nouts[1..])
  }

  /** The layer sizes a stack promises carry over to its tail, whose input
      size is `nouts[0]`. */
  lemma StackCountsTail(ls: seq<Layer>, nin: int, nouts: seq<int>)
    requires |ls| == |nouts| > 0
    requires forall k :: 0 <= k < |ls| ==>
               |LayerParams(ls[k])| == RangeLen(nouts[k]) * (RangeLen(Sizes(nin, nouts)[k]) + 1)
    ensures forall k :: 0 <= k < |ls| - 1 ==>
              |LayerParams(ls[1..][k])| == RangeLen(nouts[1..][k]) * (RangeLen(Sizes(nouts[0], nouts[1..])[k]) + 1)
  {
    forall k | 0 <= k < |ls| - 1
      ensures |LayerParams(ls[1..][k])| == RangeLen(nouts[1..][k]) * (RangeLen(Sizes(nouts[0], nouts[1..])[k]) + 1)
    {
      assert Sizes(nouts[0], nouts[1..])[k] == Sizes(nin, nouts)[k + 1];
    }
  }

  /** Layer `i` of a stack starts at `ParamCount(nin, nouts[..i])`. */
  lemma {:induction false} StackParamCount(ls: seq<Layer>, nin: int, nouts: seq<int>, i: nat)
    requires |ls| == |nouts| && i <= |ls|
    requires forall k :: 0 <= k < |ls| ==>
               |LayerParams(ls[k])| == RangeLen(nouts[k]) * (RangeLen(Sizes(nin, nouts)[k]) + 1)
    ensures Offset(LayerParamLists(ls), i) == ParamCount(nin, nouts[..i])
  {
    if i > 0 {
      assert LayerParamLists(ls)[1..] == LayerParamLists(ls[1..]);
      StackCountsTail(ls, nin, nouts);
      StackParamCount(ls[1..], nouts[0], nouts[1..], i - 1);
      assert nouts[..i][1..] == nouts[1..][..i - 1];
    }
  }

  /** Entry `k` of layer `i`'s parameters sits at position
      `Offset(..., i) + k` of the MLP's parameters: layer 0's parameters
      come first, then layer 1's, and so on. */
  lemma MlpParamAt(m: Mlp, i: nat, k: nat)
    requires i < |m.layers| && k < |LayerParams(m.layers[i])|
    ensures Offset(LayerParamLists(m.layers), i) + k < |MlpParams(m)|
    ensures MlpParams(m)[Offset(LayerParamLists(m.layers), i) + k] == LayerParams(m.layers[i])[k]
  {
    var ss := LayerParamLists(m.layers);
    assert ss[i] == LayerParams(m.layers[i]);
    FlattenAt(ss, i, k);
    assert MlpParams(m) == Flatten(ss);
  }

  /** In a new MLP, layer `i`'s parameters start right after the
      `ParamCount(nin, nouts[..i])` parameters of the layers before it. */
  lemma FreshMlpParamAt(m: Mlp, nin: int, nouts: seq<int>, nonlin: Nonlin, i: nat, k: nat)
    requires FreshMlp(m, nin, nouts, nonlin)
    requires i < |nouts| && k < |LayerParams(m.layers[i])|
    ensures ParamCount(nin, nouts[..i]) + k < |MlpParams(m)|
    ensures MlpParams(m)[ParamCount(nin, nouts[..i]) + k] == LayerParams(m.layers[i])[k]
  {
    FreshLayerCounts(m, nin, nouts, nonlin);
    StackParamCount(m.layers, nin, nouts, i);
    var start := Offset(LayerParamLists(m.layers), i);
    assert start == ParamCount(nin, nouts[..i]);
    MlpParamAt(m, i, k);
    assert MlpParams(m)[start + k] == LayerParams(m.layers[i])[k];
  }

  lemma FreshLayerCounts(m: Mlp, nin: int, nouts: seq<int>, nonlin: Nonlin)
    requires FreshMlp(m, nin, nouts, nonlin)
    ensures forall i :: 0 <= i < |m.layers| ==>
              |LayerParams(m.layers[i])| == RangeLen(nouts[i]) * (RangeLen(Sizes(nin, nouts)[i]) + 1)
  {
    forall i | 0 <= i < |m.layers|
      ensures |LayerParams(m.layers[i])| == RangeLen(nouts[i]) * (RangeLen(Sizes(nin, nouts)[i]) + 1)
    {
      FreshLayerParams(m.layers[i], Sizes(nin, nouts)[i], nouts[i],
                       if i == |nouts| - 1 then Linear else nonlin);
    }
  }

  /** `len(MLP(nin, nouts).parameters())` is `Σ_i nouts[i] * (sz[i] + 1)`,
      and every parameter of a new MLP has a zero gradient and a value in
      [-1, 1). */
  lemma FreshMlpParams(m: Mlp, nin: int, nouts: seq<int>, nonlin: Nonlin)
    requires FreshMlp(m, nin, nouts, nonlin)
    ensures |MlpParams(m)| == ParamCount(nin, nouts)
    ensures forall p :: p in MlpParams(m) ==> p.grad == 0.0 && -1.0 <= p.value < 1.0
  {
    FreshLayerCounts(m, nin, nouts, nonlin);
    var ss := LayerParamLists(m.layers);
    FlattenLength(ss);
    StackParamCount(m.layers, nin, nouts, |nouts|);
    assert nouts[..|nouts|] == nouts;
    forall p | p in MlpParams(m)
      ensures p.grad == 0.0 && -1.0 <= p.value < 1.0
    {
      FlattenMember(ss, p);
      var i :| 0 <= i < |ss| && p in ss[i];
      FreshLayerParams(m.layers[i], Sizes(nin, nouts)[i], nouts[i],
                       if i == |nouts| - 1 then Linear else nonlin);
    }
  }

  /** `MLP(3, [4, 4, 1])` has (3*4+4) + (4*4+4) + (4*1+1) == 41 parameters. */
  lemma ThreeFourFourOneCount(nonlin: Nonlin, draw: nat -> nat -> nat -> Uniform)
    ensures |MlpParams(NewMlp(3, [4, 4, 1], nonlin, draw))| == 41
  {
    FreshMlpParams(NewMlp(3, [4, 4, 1], nonlin, draw), 3, [4, 4, 1], nonlin);
    assert [4, 4, 1][1..] == [4, 1];
    assert [4, 1][1..] == [1];
    assert [1][1..] == [];
  }

  /** `for layer in self.layers: x = layer(x)`: a left fold of the layers
      over the input, stopping at the first error. */
  function Run(layers: seq<Layer>, ops: Ops, x: Signal): (r: Result<Signal>)
    ensures r.Ok? && |layers| > 0 ==>
              && (r.out.Scalar? <==> |layers[|layers| - 1].neurons| == 1)
              && |Elements(r.out)| == |layers[|layers| - 1].neurons|
  {
    if layers == [] then Ok(x)
    else
      LayerCallSpec(layers[0], ops, x);
      match LayerCall(layers[0], ops, x)
      case Err(e) => Err(e)
      case Ok(y) => Run(layers[1..], ops, y)
  }

  /** `MLP.__call__`. */
  function MlpCall(m: Mlp, ops: Ops, x: Signal): (r: Result<Signal>)
    ensures r.Ok? && |m.layers| > 0 ==>
              && (r.out.Scalar? <==> |m.layers[|m.layers| - 1].neurons| == 1)
              && |Elements(r.out)| == |m.layers[|m.layers| - 1].neurons|
  {
    Run(m.layers, ops, x)
  }

  /** Running a stack split in two is running the first part, then feeding
      its output to the second. */
  lemma {:induction false} RunAppend(a: seq<Layer>, b: seq<Layer>, ops: Ops, x: Signal)
    ensures Run(a + b, ops, x) ==
              match Run(a, ops, x)
              case Err(e) => Err(e)
              case Ok(y) => Run(b, ops, y)
  {
    if a != [] {
      assert (a + b)[1..] == a[1..] + b;
      match LayerCall(a[0], ops, x)
      case Err(_) =>
      case Ok(y) => RunAppend(a[1..], b, ops, y);
    } else {
      assert a + b == b;
    }
  }

  /** No layer with exactly one neuron (which returns a bare scalar) is
      followed by a layer that has neurons to call on it. */
  predicate NoScalarIntoNeurons(layers: seq<Layer>)
  {
    forall i :: 0 <= i < |layers| - 1 && |layers[i].neurons| == 1 ==> |layers[i + 1].neurons| == 0
  }

  /** The forward pass succeeds exactly when no bare scalar, neither the
      input nor a one-neuron layer's output, reaches a layer with neurons. */
  lemma {:induction false} RunSucceedsIff(layers: seq<Layer>, ops: Ops, x: Signal)
    ensures Run(layers, ops, x).Ok? <==>
              && (x.Scalar? && |layers| > 0 ==> |layers[0].neurons| == 0)
              && NoScalarIntoNeurons(layers)
  {
    if layers != [] {
      LayerCallSpec(layers[0], ops, x);
      match LayerCall(layers[0], ops, x)
      case Err(_) =>
      case Ok(y) =>
        RunSucceedsIff(layers[1..], ops, y);
        assert forall i :: 0 <= i < |layers| - 1 ==> layers[1..][i] == layers[i + 1];
        if NoScalarIntoNeurons(layers[1..]) && (y.Scalar? && |layers| > 1 ==> |layers[1].neurons| == 0) {
          assert NoScalarIntoNeurons(layers);
        }
    }
  }

  /** For a new MLP fed a list: the call raises no error unless a hidden
      layer of width one feeds a layer with neurons, and the result is a
      bare scalar exactly when the last entry of `nouts` is 1, otherwise a
      list of `nouts[-1]` outputs. The input length is never checked. */
  lemma FreshMlpForward(m: Mlp, nin: int, nouts: seq<int>, nonlin: Nonlin, ops: Ops, xs: seq<real>)
    requires FreshMlp(m, nin, nouts, nonlin) && |nouts| > 0
    ensures MlpCall(m, ops, Vector(xs)).Ok? <==>
              forall i :: 0 <= i < |nouts| - 1 && RangeLen(nouts[i]) == 1 ==> RangeLen(nouts[i + 1]) == 0
    ensures MlpCall(m, ops, Vector(xs)).Ok? ==>
              && (MlpCall(m, ops, Vector(xs)).out.Scalar? <==> RangeLen(nouts[|nouts| - 1]) == 1)
              && |Elements(MlpCall(m, ops, Vector(xs)).out)| == RangeLen(nouts[|nouts| - 1])
  {
    FreshMlpStructure(m, nin, nouts, nonlin);
    RunSucceedsIff(m.layers, ops, Vector(xs));
  }

  /** `MLP(2, [3, 3, 1])` on two inputs returns one bare scalar. */
  lemma ScalarHead(nonlin: Nonlin, draw: nat -> nat -> nat -> Uniform, ops: Ops, x0: real, x1: real)
    ensures MlpCall(NewMlp(2, [3, 3, 1], nonlin, draw), ops, Vector([x0, x1])).Ok?
    ensures MlpCall(NewMlp(2, [3, 3, 1], nonlin, draw), ops, Vector([x0, x1])).out.Scalar?
  {
    FreshMlpForward(NewMlp(2, [3, 3, 1], nonlin, draw), 2, [3, 3, 1], nonlin, ops, [x0, x1]);
  }

  /** `MLP(2, [3, 3, 2])` on two inputs returns a list of exactly two outputs. */
  lemma VectorHead(nonlin: Nonlin, draw: nat -> nat -> nat -> Uniform, ops: Ops, x0: real, x1: real)
    ensures MlpCall(NewMlp(2, [3, 3, 2], nonlin, draw), ops, Vector([x0, x1])).Ok?
    ensures MlpCall(NewMlp(2, [3, 3, 2], nonlin, draw), ops, Vector([x0, x1])).out.Vector?
    ensures |MlpCall(NewMlp(2, [3, 3, 2], nonlin, draw), ops, Vector([x0, x1])).out.vs| == 2
  {
    FreshMlpForward(NewMlp(2, [3, 3, 2], nonlin, draw), 2, [3, 3, 2], nonlin, ops, [x0, x1]);
  }

  /** `MLP(3, [4, 4, 1])` accepts a two-element input: the first layer's
      neurons simply ignore their third weight. */
  lemma ShortInputAccepted(nonlin: Nonlin, draw: nat -> nat -> nat -> Uniform, ops: Ops, x0: real, x1: real)
    ensures MlpCall(NewMlp(3, [4, 4, 1], nonlin, draw), ops, Vector([x0, x1])).Ok?
  {
    FreshMlpForward(NewMlp(3, [4, 4, 1], nonlin, draw), 3, [4, 4, 1], nonlin, ops, [x0, x1]);
  }

  /** `MLP(2, [3, 1, 2])` always fails: its one-neuron hidden layer hands a
      bare scalar to neurons that zip over it. */
  lemma NarrowHiddenLayerFails(nonlin: Nonlin, draw: nat -> nat -> nat -> Uniform, ops: Ops, xs: seq<real>)
    ensures MlpCall(NewMlp(2, [3, 1, 2], nonlin, draw), ops, Vector(xs)) == Err(NotIterable)
  {
    var m := NewMlp(2, [3, 1, 2], nonlin, draw);
    FreshMlpForward(m, 2, [3, 1, 2], nonlin, ops, xs);
    assert RangeLen([3, 1, 2][1]) == 1;
  }

  /** With `nonlin` left at its default `True`, no layer of an MLP applies
      a nonlinearity: the hidden layers fall through the string match and
      the output layer is "linear". */
  lemma DefaultMlpAllLinear(nin: int, nouts: seq<int>, draw: nat -> nat -> nat -> Uniform)
    requires |nouts| > 0
    ensures forall i :: 0 <= i < |nouts| ==>
              Dispatch(NewMlp(nin, nouts, DefaultMlpNonlin, draw).layers[i].nonlin) == Identity
  {
  }
}
