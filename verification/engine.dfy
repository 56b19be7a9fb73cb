/** The part of the autodiff engine's scalar that the network layer relies
    on: a value, a gradient, and the activation ops. */
module Engine {

  /** A draw of `random.uniform(-1, 1)`, that is `-1 + 2*random()` with
      `random()` in [0, 1): the value can be -1 but never 1. */
  type Uniform = r: real | -1.0 <= r < 1.0 witness 0.0

  /** A trainable scalar as the network sees it: its data and its
      accumulated gradient. `Value(v)` is `Param(v, 0.0)`. */
  datatype Param = Param(value: real, grad: real)

  /** The engine's `relu`: negative inputs floor to zero. */
  function ReluValue(v: real): real
  {
    if v < 0.0 then 0.0 else v
  }

  /** The engine's `sigmoid` and `tanh`, left abstract. */
  datatype Ops = Ops(sigmoid: real -> real, tanh: real -> real)
}
