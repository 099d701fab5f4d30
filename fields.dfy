/**
 * Structured log fields: a key, a type tag from a fixed enumeration, and a payload
 * whose shape the tag determines. One constructor per primitive type, a nil-safe
 * variant taking a pointer for each, and the special forms Binary, Stringer, Error,
 * NamedError, Stack and StackSkip.
 */
module Fields {
  import GoTypes

  /** The type tag, in declaration order; UnknownType is the zero value. */
  datatype FieldType =
    | UnknownType
    | BinaryType
    | BoolType
    | Complex128Type
    | Complex64Type
    | DurationType
    | Float64Type
    | Float32Type
    | Int64Type
    | Int32Type
    | Int16Type
    | Int8Type
    | StringType
    | TimeType
    | Uint64Type
    | Uint32Type
    | Uint16Type
    | Uint8Type
    | UintptrType
    | StringerType
    | ErrorType
    | StackType

  /** The tag's numeric value as a Go `uint8`. */
  function Code(t: FieldType): (c: GoTypes.Uint8)
    ensures c < 22
    ensures c == 0 <==> t == UnknownType
  {
    match t
    case UnknownType => 0
    case BinaryType => 1
    case BoolType => 2
    case Complex128Type => 3
    case Complex64Type => 4
    case DurationType => 5
    case Float64Type => 6
    case Float32Type => 7
    case Int64Type => 8
    case Int32Type => 9
    case Int16Type => 10
    case Int8Type => 11
    case StringType => 12
    case TimeType => 13
    case Uint64Type => 14
    case Uint32Type => 15
    case Uint16Type => 16
    case Uint8Type => 17
    case UintptrType => 18
    case StringerType => 19
    case ErrorType => 20
    case StackType => 21
  }

  /** Distinct tags have distinct codes. */
  lemma CodeInjective(a: FieldType, b: FieldType)
    requires Code(a) == Code(b)
    ensures a == b
  {
  }

  /** The Go types a nil-safe constructor takes a pointer to. */
  datatype GoKind =
    | BoolKind
    | Complex128Kind
    | Complex64Kind
    | DurationKind
    | Float64Kind
    | Float32Kind
    | IntKind
    | Int64Kind
    | Int32Kind
    | Int16Kind
    | Int8Kind
    | StringKind
    | TimeKind
    | UintKind
    | Uint64Kind
    | Uint32Kind
    | Uint16Kind
    | Uint8Kind
    | UintptrKind

  /**
   * The payload, Go's `any` restricted to what the constructors store: a typed nil
   * pointer, a value of each primitive type, and any other value, uninterpreted.
   */
  datatype Payload =
    | NilPointer(elem: GoKind)
    | BytesValue(bytes: array<GoTypes.Byte>)
    | BoolValue(boolean: bool)
    | Complex128Value(c128: GoTypes.Complex128)
    | Complex64Value(c64: GoTypes.Complex64)
    | DurationValue(duration: GoTypes.Duration)
    | Float64Value(f64: GoTypes.Float64)
    | Float32Value(f32: GoTypes.Float32)
    | IntValue(i: GoTypes.Int)
    | Int64Value(i64: GoTypes.Int64)
    | Int32Value(i32: GoTypes.Int32)
    | Int16Value(i16: GoTypes.Int16)
    | Int8Value(i8: GoTypes.Int8)
    | StringValue(str: string)
    | TimeValue(time: GoTypes.Time)
    | Uint64Value(u64: GoTypes.Uint64)
    | Uint32Value(u32: GoTypes.Uint32)
    | Uint16Value(u16: GoTypes.Uint16)
    | Uint8Value(u8: GoTypes.Uint8)
    | UintptrValue(uptr: GoTypes.Uintptr)
    | StringerValue(stringer: GoTypes.Stringer)
    | ErrorValue(err: GoTypes.Error)
    | Other(dynamic: GoTypes.Dynamic)

  datatype Field = Field(key: string, typ: FieldType, val: Payload) {
    function Key(): string { key }
    function Type(): FieldType { typ }
    function Value(): Payload { val }
  }

  /** The tag and the payload agree; an UnknownType field may carry anything. */
  predicate WellTyped(f: Field) {
    match f.typ
    case UnknownType => true
    case BinaryType => f.val.BytesValue?
    case BoolType => f.val.BoolValue?
    case Complex128Type => f.val.Complex128Value?
    case Complex64Type => f.val.Complex64Value?
    case DurationType => f.val.DurationValue?
    case Float64Type => f.val.Float64Value?
    case Float32Type => f.val.Float32Value?
    case Int64Type => f.val.Int64Value?
    case Int32Type => f.val.Int32Value?
    case Int16Type => f.val.Int16Value?
    case Int8Type => f.val.Int8Value?
    case StringType => f.val.StringValue?
    case TimeType => f.val.TimeValue?
    case Uint64Type => f.val.Uint64Value?
    case Uint32Type => f.val.Uint32Value?
    case Uint16Type => f.val.Uint16Value?
    case Uint8Type => f.val.Uint8Value?
    case UintptrType => f.val.UintptrValue?
    case StringerType => f.val.StringerValue?
    case ErrorType => f.val.ErrorValue?
    case StackType => f.val.IntValue?
  }

  /** A field with an untyped value. */
  function Any(key: string, value: Payload): (f: Field)
    ensures f.Key() == key && f.Type() == UnknownType && f.Value() == value
    ensures WellTyped(f)
  {
    Field(key, UnknownType, value)
  }

  /**
   * A field carrying a copy of the caller's buffer: a new array of the same length
   * and contents, so that later writes to the caller's buffer do not reach the field.
   */
  method Binary(key: string, value: array<GoTypes.Byte>) returns (f: Field)
    ensures f.Key() == key && f.Type() == BinaryType && f.Value().BytesValue?
    ensures fresh(f.Value().bytes)
    ensures f.Value().bytes[..] == value[..]
    ensures WellTyped(f)
  {
    var val := new GoTypes.Byte[value.Length];
    forall i | 0 <= i < value.Length {
      val[i] := value[i];
    }
    f := Field(key, BinaryType, BytesValue(val));
  }

  /** Writing to the buffer after Binary leaves the field's bytes as they were. */
  method BinaryThenOverwrite(key: string, value: array<GoTypes.Byte>, b: GoTypes.Byte) returns (f: Field)
    modifies value
    ensures f.Value().BytesValue? && f.Value().bytes[..] == old(value[..])
    ensures forall i :: 0 <= i < value.Length ==> value[i] == b
  {
    f := Binary(key, value);
    forall i | 0 <= i < value.Length {
      value[i] := b;
    }
  }

  function Bool(key: string, value: bool): (f: Field)
    ensures f.Key() == key && f.Type() == BoolType && f.Value() == BoolValue(value)
    ensures WellTyped(f)
  {
    Field(key, BoolType, BoolValue(value))
  }

  function Boolp(key: string, value: GoTypes.Ptr<bool>): (f: Field)
    ensures value.Nil? ==> f.Key() == key && f.Type() == UnknownType && f.Value() == NilPointer(BoolKind)
    ensures value.Ref? ==> f == Bool(key, value.deref)
    ensures WellTyped(f)
  {
    if value.Nil? then Any(key, NilPointer(BoolKind)) else Bool(key, value.deref)
  }

  function Complex128(key: string, value: GoTypes.Complex128): (f: Field)
    ensures f.Key() == key && f.Type() == Complex128Type && f.Value() == Complex128Value(value)
    ensures WellTyped(f)
  {
    Field(key, Complex128Type, Complex128Value(value))
  }

  function Complex128p(key: string, value: GoTypes.Ptr<GoTypes.Complex128>): (f: Field)
    ensures value.Nil? ==> f.Key() == key && f.Type() == UnknownType && f.Value() == NilPointer(Complex128Kind)
    ensures value.Ref? ==> f == Complex128(key, value.deref)
    ensures WellTyped(f)
  {
    if value.Nil? then Any(key, NilPointer(Complex128Kind)) else Complex128(key, value.deref)
  }

  function Complex64(key: string, value: GoTypes.Complex64): (f: Field)
    ensures f.Key() == key && f.Type() == Complex64Type && f.Value() == Complex64Value(value)
    ensures WellTyped(f)
  {
    Field(key, Complex64Type, Complex64Value(value))
  }

  function Complex64p(key: string, value: GoTypes.Ptr<GoTypes.Complex64>): (f: Field)
    ensures value.Nil? ==> f.Key() == key && f.Type() == UnknownType && f.Value() == NilPointer(Complex64Kind)
    ensures value.Ref? ==> f == Complex64(key, value.deref)
    ensures WellTyped(f)
  {
    if value.Nil? then Any(key, NilPointer(Complex64Kind)) else Complex64(key, value.deref)
  }

  function Duration(key: string, value: GoTypes.Duration): (f: Field)
    ensures f.Key() == key && f.Type() == DurationType && f.Value() == DurationValue(value)
    ensures WellTyped(f)
  {
    Field(key, DurationType, DurationValue(value))
  }

  function Durationp(key: string, value: GoTypes.Ptr<GoTypes.Duration>): (f: Field)
    ensures value.Nil? ==> f.Key() == key && f.Type() == UnknownType && f.Value() == NilPointer(DurationKind)
    ensures value.Ref? ==> f == Duration(key, value.deref)
    ensures WellTyped(f)
  {
    if value.Nil? then Any(key, NilPointer(DurationKind)) else Duration(key, value.deref)
  }

  function Float64(key: string, value: GoTypes.Float64): (f: Field)
    ensures f.Key() == key && f.Type() == Float64Type && f.Value() == Float64Value(value)
    ensures WellTyped(f)
  {
    Field(key, Float64Type, Float64Value(value))
  }

  function Float64p(key: string, value: GoTypes.Ptr<GoTypes.Float64>): (f: Field)
    ensures value.Nil? ==> f.Key() == key && f.Type() == UnknownType && f.Value() == NilPointer(Float64Kind)
    ensures value.Ref? ==> f == Float64(key, value.deref)
    ensures WellTyped(f)
  {
    if value.Nil? then Any(key, NilPointer(Float64Kind)) else Float64(key, value.deref)
  }

  function Float32(key: string, value: GoTypes.Float32): (f: Field)
    ensures f.Key() == key && f.Type() == Float32Type && f.Value() == Float32Value(value)
    ensures WellTyped(f)
  {
    Field(key, Float32Type, Float32Value(value))
  }

  function Float32p(key: string, value: GoTypes.Ptr<GoTypes.Float32>): (f: Field)
    ensures value.Nil? ==> f.Key() == key && f.Type() == UnknownType && f.Value() == NilPointer(Float32Kind)
    ensures value.Ref? ==> f == Float32(key, value.deref)
    ensures WellTyped(f)
  {
    if value.Nil? then Any(key, NilPointer(Float32Kind)) else Float32(key, value.deref)
  }

  /** A field of int, widened to a Int64Type payload without change of value. */
  function Int(key: string, value: GoTypes.Int): (f: Field)
    ensures f.Key() == key && f.Type() == Int64Type && f.Value().Int64Value?
    ensures f.Value().i64 as int == value as int
    ensures WellTyped(f)
  {
    Field(key, Int64Type, Int64Value(value as GoTypes.Int64))
  }

  /** The nil case records a nil `*int64`, not a nil `*int`. */
  function Intp(key: string, value: GoTypes.Ptr<GoTypes.Int>): (f: Field)
    ensures value.Nil? ==> f.Key() == key && f.Type() == UnknownType && f.Value() == NilPointer(Int64Kind)
    ensures value.Ref? ==> f == Int(key, value.deref)
    ensures WellTyped(f)
  {
    if value.Nil? then Any(key, NilPointer(Int64Kind)) else Int(key, value.deref)
  }

  function Int64(key: string, value: GoTypes.Int64): (f: Field)
    ensures f.Key() == key && f.Type() == Int64Type && f.Value() == Int64Value(value)
    ensures WellTyped(f)
  {
    Field(key, Int64Type, Int64Value(value))
  }

  function Int64p(key: string, value: GoTypes.Ptr<GoTypes.Int64>): (f: Field)
    ensures value.Nil? ==> f.Key() == key && f.Type() == UnknownType && f.Value() == NilPointer(Int64Kind)
    ensures value.Ref? ==> f == Int64(key, value.deref)
    ensures WellTyped(f)
  {
    if value.Nil? then Any(key, NilPointer(Int64Kind)) else Int64(key, value.deref)
  }

  function Int32(key: string, value: GoTypes.Int32): (f: Field)
    ensures f.Key() == key && f.Type() == Int32Type && f.Value() == Int32Value(value)
    ensures WellTyped(f)
  {
    Field(key, Int32Type, Int32Value(value))
  }

  function Int32p(key: string, value: GoTypes.Ptr<GoTypes.Int32>): (f: Field)
    ensures value.Nil? ==> f.Key() == key && f.Type() == UnknownType && f.Value() == NilPointer(Int32Kind)
    ensures value.Ref? ==> f == Int32(key, value.deref)
    ensures WellTyped(f)
  {
    if value.Nil? then Any(key, NilPointer(Int32Kind)) else Int32(key, value.deref)
  }

  function Int16(key: string, value: GoTypes.Int16): (f: Field)
    ensures f.Key() == key && f.Type() == Int16Type && f.Value() == Int16Value(value)
    ensures WellTyped(f)
  {
    Field(key, Int16Type, Int16Value(value))
  }

  function Int16p(key: string, value: GoTypes.Ptr<GoTypes.Int16>): (f: Field)
    ensures value.Nil? ==> f.Key() == key && f.Type() == UnknownType && f.Value() == NilPointer(Int16Kind)
    ensures value.Ref? ==> f == Int16(key, value.deref)
    ensures WellTyped(f)
  {
    if value.Nil? then Any(key, NilPointer(Int16Kind)) else Int16(key, value.deref)
  }

  function Int8(key: string, value: GoTypes.Int8): (f: Field)
    ensures f.Key() == key && f.Type() == Int8Type && f.Value() == Int8Value(value)
    ensures WellTyped(f)
  {
    Field(key, Int8Type, Int8Value(value))
  }

  function Int8p(key: string, value: GoTypes.Ptr<GoTypes.Int8>): (f: Field)
    ensures value.Nil? ==> f.Key() == key && f.Type() == UnknownType && f.Value() == NilPointer(Int8Kind)
    ensures value.Ref? ==> f == Int8(key, value.deref)
    ensures WellTyped(f)
  {
    if value.Nil? then Any(key, NilPointer(Int8Kind)) else Int8(key, value.deref)
  }

  function String(key: string, value: string): (f: Field)
    ensures f.Key() == key && f.Type() == StringType && f.Value() == StringValue(value)
    ensures WellTyped(f)
  {
    Field(key, StringType, StringValue(value))
  }

  function Stringp(key: string, value: GoTypes.Ptr<string>): (f: Field)
    ensures value.Nil? ==> f.Key() == key && f.Type() == UnknownType && f.Value() == NilPointer(StringKind)
    ensures value.Ref? ==> f == String(key, value.deref)
    ensures WellTyped(f)
  {
    if value.Nil? then Any(key, NilPointer(StringKind)) else String(key, value.deref)
  }

  function Time(key: string, value: GoTypes.Time): (f: Field)
    ensures f.Key() == key && f.Type() == TimeType && f.Value() == TimeValue(value)
    ensures WellTyped(f)
  {
    Field(key, TimeType, TimeValue(value))
  }

  function Timep(key: string, value: GoTypes.Ptr<GoTypes.Time>): (f: Field)
    ensures value.Nil? ==> f.Key() == key && f.Type() == UnknownType && f.Value() == NilPointer(TimeKind)
    ensures value.Ref? ==> f == Time(key, value.deref)
    ensures WellTyped(f)
  {
    if value.Nil? then Any(key, NilPointer(TimeKind)) else Time(key, value.deref)
  }

  /** A field of uint, widened to a Uint64Type payload without change of value. */
  function Uint(key: string, value: GoTypes.Uint): (f: Field)
    ensures f.Key() == key && f.Type() == Uint64Type && f.Value().Uint64Value?
    ensures f.Value().u64 as int == value as int
    ensures WellTyped(f)
  {
    Field(key, Uint64Type, Uint64Value(value as GoTypes.Uint64))
  }

  /** The nil case records a nil `*uint64`, not a nil `*uint`. */
  function Uintp(key: string, value: GoTypes.Ptr<GoTypes.Uint>): (f: Field)
    ensures value.Nil? ==> f.Key() == key && f.Type() == UnknownType && f.Value() == NilPointer(Uint64Kind)
    ensures value.Ref? ==> f == Uint(key, value.deref)
    ensures WellTyped(f)
  {
    if value.Nil? then Any(key, NilPointer(Uint64Kind)) else Uint(key, value.deref)
  }

  function Uint64(key: string, value: GoTypes.Uint64): (f: Field)
    ensures f.Key() == key && f.Type() == Uint64Type && f.Value() == Uint64Value(value)
    ensures WellTyped(f)
  {
    Field(key, Uint64Type, Uint64Value(value))
  }

  function Uint64p(key: string, value: GoTypes.Ptr<GoTypes.Uint64>): (f: Field)
    ensures value.Nil? ==> f.Key() == key && f.Type() == UnknownType && f.Value() == NilPointer(Uint64Kind)
    ensures value.Ref? ==> f == Uint64(key, value.deref)
    ensures WellTyped(f)
  {
    if value.Nil? then Any(key, NilPointer(Uint64Kind)) else Uint64(key, value.deref)
  }

  function Uint32(key: string, value: GoTypes.Uint32): (f: Field)
    ensures f.Key() == key && f.Type() == Uint32Type && f.Value() == Uint32Value(value)
    ensures WellTyped(f)
  {
    Field(key, Uint32Type, Uint32Value(value))
  }

  function Uint32p(key: string, value: GoTypes.Ptr<GoTypes.Uint32>): (f: Field)
    ensures value.Nil? ==> f.Key() == key && f.Type() == UnknownType && f.Value() == NilPointer(Uint32Kind)
    ensures value.Ref? ==> f == Uint32(key, value.deref)
    ensures WellTyped(f)
  {
    if value.Nil? then Any(key, NilPointer(Uint32Kind)) else Uint32(key, value.deref)
  }

  function Uint16(key: string, value: GoTypes.Uint16): (f: Field)
    ensures f.Key() == key && f.Type() == Uint16Type && f.Value() == Uint16Value(value)
    ensures WellTyped(f)
  {
    Field(key, Uint16Type, Uint16Value(value))
  }

  function Uint16p(key: string, value: GoTypes.Ptr<GoTypes.Uint16>): (f: Field)
    ensures value.Nil? ==> f.Key() == key && f.Type() == UnknownType && f.Value() == NilPointer(Uint16Kind)
    ensures value.Ref? ==> f == Uint16(key, value.deref)
    ensures WellTyped(f)
  {
    if value.Nil? then Any(key, NilPointer(Uint16Kind)) else Uint16(key, value.deref)
  }

  function Uint8(key: string, value: GoTypes.Uint8): (f: Field)
    ensures f.Key() == key && f.Type() == Uint8Type && f.Value() == Uint8Value(value)
    ensures WellTyped(f)
  {
    Field(key, Uint8Type, Uint8Value(value))
  }

  function Uint8p(key: string, value: GoTypes.Ptr<GoTypes.Uint8>): (f: Field)
    ensures value.Nil? ==> f.Key() == key && f.Type() == UnknownType && f.Value() == NilPointer(Uint8Kind)
    ensures value.Ref? ==> f == Uint8(key, value.deref)
    ensures WellTyped(f)
  {
    if value.Nil? then Any(key, NilPointer(Uint8Kind)) else Uint8(key, value.deref)
  }

  function Uintptr(key: string, value: GoTypes.Uintptr): (f: Field)
    ensures f.Key() == key && f.Type() == UintptrType && f.Value() == UintptrValue(value)
    ensures WellTyped(f)
  {
    Field(key, UintptrType, UintptrValue(value))
  }

  function Uintptrp(key: string, value: GoTypes.Ptr<GoTypes.Uintptr>): (f: Field)
    ensures value.Nil? ==> f.Key() == key && f.Type() == UnknownType && f.Value() == NilPointer(UintptrKind)
    ensures value.Ref? ==> f == Uintptr(key, value.deref)
    ensures WellTyped(f)
  {
    if value.Nil? then Any(key, NilPointer(UintptrKind)) else Uintptr(key, value.deref)
  }

  function Stringer(key: string, value: GoTypes.Stringer): (f: Field)
    ensures f.Key() == key && f.Type() == StringerType && f.Value() == StringerValue(value)
    ensures WellTyped(f)
  {
    Field(key, StringerType, StringerValue(value))
  }

  /** An error field under the fixed key "error". */
  function Error(err: GoTypes.Error): (f: Field)
    ensures f.Key() == "error" && f.Type() == ErrorType && f.Value() == ErrorValue(err)
    ensures WellTyped(f)
  {
    Field("error", ErrorType, ErrorValue(err))
  }

  function NamedError(key: string, err: GoTypes.Error): (f: Field)
    ensures f.Key() == key && f.Type() == ErrorType && f.Value() == ErrorValue(err)
    ensures WellTyped(f)
  {
    Field(key, ErrorType, ErrorValue(err))
  }

  /**
   * A request for a stack trace of the calling goroutine: only the number of frames
   * to skip is recorded; capturing the trace is left to the backend.
   */
  function Stack(key: string): (f: Field)
    ensures f.Key() == key && f.Type() == StackType && f.Value() == IntValue(0)
    ensures WellTyped(f)
  {
    Field(key, StackType, IntValue(0))
  }

  function StackSkip(key: string, skip: GoTypes.Int): (f: Field)
    ensures f.Key() == key && f.Type() == StackType && f.Value() == IntValue(skip)
    ensures WellTyped(f)
  {
    Field(key, StackType, IntValue(skip))
  }

  /** `Error` is `NamedError` under the key "error"; `Stack` is `StackSkip` with no frames skipped. */
  lemma SugarForms(key: string, err: GoTypes.Error)
    ensures Error(err) == NamedError("error", err)
    ensures Stack(key) == StackSkip(key, 0)
  {
  }

  /** Go's `int` is recorded exactly as Int64 would record it, nil pointer included. */
  lemma IntWidensToInt64(key: string, i: GoTypes.Int)
    ensures Int(key, i) == Int64(key, i as GoTypes.Int64)
    ensures Intp(key, GoTypes.Ref(i)) == Int64(key, i as GoTypes.Int64)
    ensures Intp(key, GoTypes.Nil) == Int64p(key, GoTypes.Nil)
  {
  }

  /** Go's `uint` is recorded exactly as Uint64 would record it, nil pointer included. */
  lemma UintWidensToUint64(key: string, u: GoTypes.Uint)
    ensures Uint(key, u) == Uint64(key, u as GoTypes.Uint64)
    ensures Uintp(key, GoTypes.Ref(u)) == Uint64(key, u as GoTypes.Uint64)
    ensures Uintp(key, GoTypes.Nil) == Uint64p(key, GoTypes.Nil)
  {
  }

  /**
   * The constructor a well-typed field's tag points to, applied to the field's key
   * and payload. A binary payload is rebuilt as is: Binary itself would copy it.
   */
  function Rebuild(f: Field): Field
    requires WellTyped(f)
  {
    match f.typ
    case UnknownType => Any(f.key, f.val)
    case BinaryType => Field(f.key, BinaryType, BytesValue(f.val.bytes))
    case BoolType => Bool(f.key, f.val.boolean)
    case Complex128Type => Complex128(f.key, f.val.c128)
    case Complex64Type => Complex64(f.key, f.val.c64)
    case DurationType => Duration(f.key, f.val.duration)
    case Float64Type => Float64(f.key, f.val.f64)
    case Float32Type => Float32(f.key, f.val.f32)
    case Int64Type => Int64(f.key, f.val.i64)
    case Int32Type => Int32(f.key, f.val.i32)
    case Int16Type => Int16(f.key, f.val.i16)
    case Int8Type => Int8(f.key, f.val.i8)
    case StringType => String(f.key, f.val.str)
    case TimeType => Time(f.key, f.val.time)
    case Uint64Type => Uint64(f.key, f.val.u64)
    case Uint32Type => Uint32(f.key, f.val.u32)
    case Uint16Type => Uint16(f.key, f.val.u16)
    case Uint8Type => Uint8(f.key, f.val.u8)
    case UintptrType => Uintptr(f.key, f.val.uptr)
    case StringerType => Stringer(f.key, f.val.stringer)
    case ErrorType => NamedError(f.key, f.val.err)
    case StackType => StackSkip(f.key, f.val.i)
  }

  /** Every well-typed field is exactly what the constructor for its tag returns. */
  lemma WellTypedFieldsAreConstructed(f: Field)
    requires WellTyped(f)
    ensures Rebuild(f) == f
  {
  }
}
