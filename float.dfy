/**
 * Single-precision values as the compressor meets them, and the C maths
 * library it calls.
 *
 * A value is either finite (modelled by a real, without rounding) or
 * non-finite (NaN or an infinity; the two are not told apart). Arithmetic
 * with a non-finite operand gives a non-finite result; a comparison with a
 * non-finite operand is false and `fminf`/`fmaxf` ignore it. Both rules are
 * those of a NaN; an infinity compares and orders as an extreme value in C,
 * which this model does not follow.
 */
module Float {

  datatype Num = Fin(v: real) | NonFin

  function Abs(x: real): real {
    if x < 0.0 then -x else x
  }

  /** `a + b` */
  function Add(a: Num, b: Num): Num {
    if a.Fin? && b.Fin? then Fin(a.v + b.v) else NonFin
  }

  /** `a - b` */
  function Sub(a: Num, b: Num): Num {
    if a.Fin? && b.Fin? then Fin(a.v - b.v) else NonFin
  }

  /** `a * b` */
  function Mul(a: Num, b: Num): Num {
    if a.Fin? && b.Fin? then Fin(a.v * b.v) else NonFin
  }

  /** `isless (a, b)`: false whenever an operand is not finite */
  predicate Less(a: Num, b: Num) {
    a.Fin? && b.Fin? && a.v < b.v
  }

  /** `fmaxf (x, y)` for a finite `x`: a non-finite `y` is ignored */
  function Max(x: real, y: Num): real {
    if y.Fin? && x < y.v then y.v else x
  }

  /** `fminf (x, y)` for a finite `x`: a non-finite `y` is ignored */
  function Min(x: real, y: Num): real {
    if y.Fin? && y.v < x then y.v else x
  }

  /** The functions of the C maths library the compressor uses, on finite arguments. */
  datatype Libm = Libm(
    exp10: real -> real,  // exp10f, or powf (10.f, x)
    ln: real -> real,     // logf, for positive arguments
    exp: real -> real,    // expf
    log10: real -> real   // log10f, for positive arguments
  )

  /** The laws of the maths library that the compressor relies on. */
  ghost predicate Lawful(m: Libm) {
    && (forall x :: m.exp10(x) > 0.0)
    && (forall x :: m.exp(x) > 0.0)
    && m.exp10(0.0) == 1.0
    && m.exp10(-1.0) == 0.1
    && m.exp(0.0) == 1.0
  }

  /** `logf (x)`: non-finite (-inf or NaN) unless `x` is positive */
  function Logf(m: Libm, x: real): Num {
    if x > 0.0 then Fin(m.ln(x)) else NonFin
  }

  /** `expf (x)` */
  function Expf(m: Libm, x: Num): Num {
    if x.Fin? then Fin(m.exp(x.v)) else NonFin
  }
}
