/** Java values the rest of the model is built on: the 32-bit `int`, the 32-bit
    `float` with Java's `!=` on it, nullable references and thrown exceptions. */
module JavaLang {

  /** Java's `int`: a two's-complement 32-bit integer. */
  newtype int32 = x: int | -0x8000_0000 <= x < 0x8000_0000

  /** A nullable reference: `None` stands for Java's `null`. */
  datatype Option<+T> = None | Some(value: T)

  /** The outcome of a call that either returns a value or throws a
      `RuntimeException` carrying a message. */
  datatype Result<+T> = Ok(value: T) | Thrown(message: string)

  /** Java's `float`, kept as its IEEE 754 binary32 bit pattern. Only equality
      tests are modelled on it, no arithmetic. */
  datatype Float32 = Float32(bits: bv32)

  /** The value of a `float` field that was never assigned: `0.0f`. */
  const PositiveZero: Float32 := Float32(0)

  /** `1.0f`. */
  const PositiveOne: Float32 := Float32(0x3F80_0000)

  /** `-0.0f`, which Java's `!=` does not tell apart from `0.0f`. */
  const NegativeZero: Float32 := Float32(0x8000_0000)

  /** All exponent bits set and a non-zero fraction. */
  predicate IsNaN(f: Float32) {
    f.bits & 0x7F80_0000 == 0x7F80_0000 && f.bits & 0x007F_FFFF != 0
  }

  /** `+0.0f` or `-0.0f`. */
  predicate IsZero(f: Float32) {
    f.bits & 0x7FFF_FFFF == 0
  }

  /** Java's `a != b` on two `float` values: true when either is NaN, false for
      two zeros of any sign, and otherwise true exactly when the values differ. */
  predicate FloatNotEqual(a: Float32, b: Float32) {
    IsNaN(a) || IsNaN(b) || (!(IsZero(a) && IsZero(b)) && a.bits != b.bits)
  }

  /** Off NaN, `!=` never reports a value as different from itself. */
  lemma FloatNotEqualIrreflexive(x: Float32)
    requires !IsNaN(x)
    ensures !FloatNotEqual(x, x)
  {
  }

  /** A NaN differs from everything, itself included. */
  lemma NaNAlwaysDiffers(x: Float32, y: Float32)
    requires IsNaN(x)
    ensures FloatNotEqual(x, y) && FloatNotEqual(y, x)
  {
  }

  /** Off NaN and the pair of signed zeros, `!=` is exact inequality: there is no tolerance. */
  lemma FloatNotEqualIsExact(a: Float32, b: Float32)
    requires !IsNaN(a) && !IsNaN(b) && !(IsZero(a) && IsZero(b))
    ensures FloatNotEqual(a, b) <==> a != b
  {
  }

  /** `0.0f != -0.0f` is false although the bit patterns differ. */
  lemma SignedZerosCompareEqual()
    ensures PositiveZero != NegativeZero
    ensures !FloatNotEqual(PositiveZero, NegativeZero)
  {
  }
}
