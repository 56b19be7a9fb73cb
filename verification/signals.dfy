/** The values that flow between layers of the network, and the one error
    the forward pass can raise. */
module Signals {

  /** What a layer returns and the next one receives: a bare scalar (a layer
      with exactly one neuron unwraps its output) or a list of scalars. */
  datatype Signal = Scalar(v: real) | Vector(vs: seq<real>)

  /** `zip(self.w, x)` raises a type error when `x` is a bare scalar: the
      engine's scalar is not iterable. */
  datatype Error = NotIterable

  datatype Result<T> = Ok(out: T) | Err(error: Error)

  /** The scalars a signal carries, in order. */
  function Elements(s: Signal): seq<real>
  {
    match s
    case Scalar(v) => [v]
    case Vector(vs) => vs
  }

  /** `out[0] if len(out) == 1 else out`: a single output is returned bare,
      any other number of outputs (zero included) as a list. */
  function Unwrap(out: seq<real>): (s: Signal)
    ensures s.Scalar? <==> |out| == 1
    ensures Elements(s) == out
  {
    if |out| == 1 then Scalar(out[0]) else Vector(out)
  }
}
