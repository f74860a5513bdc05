/** The transcendental functions the strategies call (PHP's exp, log, tanh,
    sin and cos). They are left uninterpreted: a library value carries them,
    and the only fact assumed of them is that exp is positive, which makes the
    sigmoid's division well defined. */
module Maths {

  /** The values exp takes. */
  type PositiveReal = r: real | r > 0.0 witness 1.0

  datatype Library = Library(
    exp: real -> PositiveReal,
    log: real -> real,
    tanh: real -> real,
    sin: real -> real,
    cos: real -> real)
}
