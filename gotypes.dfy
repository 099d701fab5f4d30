/**
 * The Go value types that the logging facade passes around: fixed-width integers
 * (as ranges over Dafny's unbounded `int`), nillable pointers, and the values the
 * facade only stores and never inspects (floats, complex numbers, times, interface
 * values), which are opaque here.
 */
module GoTypes {

  newtype Int8 = x: int | -0x80 <= x < 0x80
  newtype Int16 = x: int | -0x8000 <= x < 0x8000
  newtype Int32 = x: int | -0x8000_0000 <= x < 0x8000_0000
  newtype Int64 = x: int | -0x8000_0000_0000_0000 <= x < 0x8000_0000_0000_0000
  newtype Uint8 = x: int | 0 <= x < 0x100
  newtype Uint16 = x: int | 0 <= x < 0x1_0000
  newtype Uint32 = x: int | 0 <= x < 0x1_0000_0000
  newtype Uint64 = x: int | 0 <= x < 0x1_0000_0000_0000_0000

  /** Go's `int` and `uint`, taken at their 64-bit width. */
  newtype Int = x: int | -0x8000_0000_0000_0000 <= x < 0x8000_0000_0000_0000
  newtype Uint = x: int | 0 <= x < 0x1_0000_0000_0000_0000
  newtype Uintptr = x: int | 0 <= x < 0x1_0000_0000_0000_0000

  /** Go's `byte`, the element of a `[]byte` buffer. */
  type Byte = Uint8

  /** `time.Duration` is a count of nanoseconds held in an int64. */
  newtype Duration = x: int | -0x8000_0000_0000_0000 <= x < 0x8000_0000_0000_0000

  /** Values the facade stores without looking inside them. */
  type Float64(==)
  type Float32(==)
  type Complex128(==)
  type Complex64(==)
  type Time(==)
  /** A `fmt.Stringer` interface value (possibly nil). */
  type Stringer(==)
  /** An `error` interface value (possibly nil). */
  type Error(==)
  /** Any other dynamically typed value held in an `any`. */
  type Dynamic(==)

  /** A Go pointer `*T`: either nil or the address of a `T`, read through `deref`. */
  datatype Ptr<T> = Nil | Ref(deref: T)
}
