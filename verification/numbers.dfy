/** Fixed-width integers, opaque floating-point values and the SDK's tagged
    `number.Number`. Nothing in the model does floating-point arithmetic: a float is
    carried as its IEEE-754 bit pattern and only ever copied. */
module Numbers {

  /** A Go `int64`. */
  newtype Int64 = x: int | -0x8000_0000_0000_0000 <= x < 0x8000_0000_0000_0000

  /** A Go `uint64`. */
  newtype Uint64 = x: int | 0 <= x < 0x1_0000_0000_0000_0000

  const TwoTo64: int := 0x1_0000_0000_0000_0000

  /** A Go `float64`, held as its binary64 bit pattern. */
  datatype Float64 = Float64(bits: Uint64)

  /** The float64 values 0.0 and 1.0. */
  const PositiveZero: Float64 := Float64(0)
  const PositiveOne: Float64 := Float64(0x3FF0_0000_0000_0000)

  /** The numeric kind an instrument declares. Any kind other than the two the
      exporter knows is kept with the name it prints as. */
  datatype NumberKind = Int64Kind | Float64Kind | OtherNumberKind(name: string)

  /** `number.Number`: 64 raw bits whose reading depends on a `NumberKind`. */
  datatype Number = Number(raw: Uint64)

  /** `Number.CoerceToInt64` and `Number.CoerceToFloat64`. They live in the SDK's
      number package, so the model takes them as given functions of the number and
      the kind it is read as. */
  datatype Coercion = Coercion(
    toInt64: (Number, NumberKind) -> Int64,
    toFloat64: (Number, NumberKind) -> Float64)
}
