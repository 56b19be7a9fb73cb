/** `Neuron` of michigrad/nn.py: a weight per input and a bias; its call is
    the bias plus the weighted sum over the zipped weights and inputs. */
module Neurons {
  import opened Seqs
  import opened Signals
  import opened Engine

  datatype Neuron = Neuron(w: seq<Param>, b: Param)

  /** What `Neuron(nin)` promises of a new neuron: one weight per iteration
      of `range(nin)`, each drawn from [-1, 1) with a zero gradient, and a
      bias of exactly zero. */
  predicate FreshNeuron(n: Neuron, nin: int)
  {
    && |n.w| == RangeLen(nin)
    && n.b == Param(0.0, 0.0)
    && forall i :: 0 <= i < |n.w| ==> n.w[i].grad == 0.0 && -1.0 <= n.w[i].value < 1.0
  }

  /** `Neuron(nin)`; `draw(i)` is the `i`-th call of `random.uniform(-1, 1)`. */
  function NewNeuron(nin: int, draw: nat -> Uniform): (n: Neuron)
    ensures FreshNeuron(n, nin)
    ensures forall i :: 0 <= i < |n.w| ==> n.w[i].value == draw(i)
  {
    Neuron(seq(RangeLen(nin), i requires 0 <= i => Param(draw(i), 0.0)), Param(0.0, 0.0))
  }

  /** `parameters()`: the weights in construction order, then the bias. */
  function NeuronParams(n: Neuron): (ps: seq<Param>)
    ensures |ps| == |n.w| + 1
    ensures forall i :: 0 <= i < |n.w| ==> ps[i] == n.w[i]
    ensures ps[|n.w|] == n.b
  {
    n.w + [n.b]
  }

  lemma FreshNeuronParams(n: Neuron, nin: int)
    requires FreshNeuron(n, nin)
    ensures |NeuronParams(n)| == RangeLen(nin) + 1
    ensures forall i :: 0 <= i < RangeLen(nin) ==> NeuronParams(n)[i] == n.w[i]
    ensures NeuronParams(n)[RangeLen(nin)] == Param(0.0, 0.0)
    ensures forall p :: p in NeuronParams(n) ==> p.grad == 0.0 && -1.0 <= p.value < 1.0
  {
  }

  /** The products `wi*xi for wi, xi in zip(w, xs)`: `zip` stops at the
      shorter of the two lists. */
  function Zip(w: seq<Param>, xs: seq<real>): (ts: seq<real>)
    ensures |ts| == Min(|w|, |xs|)
    ensures forall i :: 0 <= i < |ts| ==> ts[i] == w[i].value * xs[i]
  {
    if w == [] || xs == [] then [] else [w[0].value * xs[0]] + Zip(w[1..], xs[1..])
  }

  /** `sum(ts, start)`: Python adds the terms to `start` from left to right. */
  function SumFrom(start: real, ts: seq<real>): real
    decreases |ts|
  {
    if ts == [] then start else SumFrom(start + ts[0], ts[1..])
  }

  /** Reference dot product of the first `k` weights and inputs. */
  function Dot(w: seq<Param>, xs: seq<real>, k: nat): real
    requires k <= |w| && k <= |xs|
  {
    if k == 0 then 0.0 else Dot(w, xs, k - 1) + w[k - 1].value * xs[k - 1]
  }

  /** The neuron's pre-activation on `xs`: bias plus the dot product over the
      common prefix of weights and inputs. */
  function Affine(n: Neuron, xs: seq<real>): real
  {
    n.b.value + Dot(n.w, xs, Min(|n.w|, |xs|))
  }

  /** `Neuron.__call__`: no activation is applied here; the layer applies it. */
  function NeuronCall(n: Neuron, x: Signal): (r: Result<real>)
    ensures r.Ok? <==> x.Vector?
  {
    match x
    case Scalar(_) => Err(NotIterable)
    case Vector(xs) => Ok(SumFrom(n.b.value, Zip(n.w, xs)))
  }

  lemma {:induction false} DotTail(w: seq<Param>, xs: seq<real>, k: nat)
    requires 1 <= k <= |w| && k <= |xs|
    ensures Dot(w, xs, k) == w[0].value * xs[0] + Dot(w[1..], xs[1..], k - 1)
  {
    if k > 1 {
      DotTail(w, xs, k - 1);
    }
  }

  lemma {:induction false} SumFromZip(start: real, w: seq<Param>, xs: seq<real>)
    ensures SumFrom(start, Zip(w, xs)) == start + Dot(w, xs, Min(|w|, |xs|))
    decreases |w|
  {
    if w != [] && xs != [] {
      var ts := Zip(w, xs);
      assert ts[1..] == Zip(w[1..], xs[1..]);
      SumFromZip(start + w[0].value * xs[0], w[1..], xs[1..]);
      DotTail(w, xs, Min(|w|, |xs|));
    }
  }

  /** The call succeeds exactly on a list input, and then computes
      `b + Σ_{i < min(|w|, |x|)} w[i]*x[i]` with no length check. */
  lemma NeuronCallIsAffine(n: Neuron, x: Signal)
    ensures NeuronCall(n, x).Ok? <==> x.Vector?
    ensures x.Vector? ==> NeuronCall(n, x).out == Affine(n, x.vs)
  {
    if x.Vector? {
      SumFromZip(n.b.value, n.w, x.vs);
    }
  }

  lemma {:induction false} DotPrefix(w: seq<Param>, xs: seq<real>, ys: seq<real>, k: nat)
    requires k <= |w| && k <= |xs|
    ensures Dot(w, xs + ys, k) == Dot(w, xs, k)
  {
    if k > 0 {
      DotPrefix(w, xs, ys, k - 1);
    }
  }

  /** Inputs beyond the neuron's arity are ignored rather than rejected. */
  lemma NeuronIgnoresSurplusInputs(n: Neuron, xs: seq<real>, ys: seq<real>)
    requires |xs| >= |n.w|
    ensures NeuronCall(n, Vector(xs + ys)) == NeuronCall(n, Vector(xs))
  {
    NeuronCallIsAffine(n, Vector(xs + ys));
    NeuronCallIsAffine(n, Vector(xs));
    DotPrefix(n.w, xs, ys, |n.w|);
  }
}
