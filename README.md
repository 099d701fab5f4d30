# Logging facade: levels, fields, context fields, no-op backend, factory registry

A Dafny model of the core of a Go logging facade (`package logging`). The facade
lets application code emit structured log records without binding to a backend.
The model covers four parts of it:

- **Levels** (`levels.dfy`, module `Levels`). A level is a signed 32-bit ordinal.
  Debug=-1, Info=0, Warn=1, Error=2 and Off=3 are named. The model has the two
  constant name tables, `String`, the threshold test `Enabled`, `MarshalYAML`, and
  `UnmarshalYAML`. Decoding is split into a pure `ParseLevel` and the method
  `LevelCell.UnmarshalYAML`, which writes the level only on success.
- **Fields** (`fields.dfy`, module `Fields`). A field is a key, a `FieldType` tag and
  a payload. The payload is a datatype with one variant per tag, a typed nil pointer
  `NilPointer(kind)`, a plain Go `int` (what `Stack`/`StackSkip` store), and an
  uninterpreted `Other` value for anything else an `any` may hold. Every
  constructor is modelled. `Binary` is a method that copies the caller's array into
  a fresh one. `WellTyped` states that the tag and the payload agree.
- **Context fields** (`fieldcontext.dfy`, module `FieldContext`). A context is a
  persistent chain of layers. `NewContext` pushes a field list. `Lookup` walks
  outwards to the nearest list, as `ctx.Value(fieldKey{})` does.
  `WithContextField` hands that list to a logger's `WithField`.
- **No-op backend** (`nop.go`, module `Nop` in `nop.dfy`) and **factory registry**
  (`factory.go`, module `Registry` in `registry.dfy`). The registry is a class with
  one mutable cell holding an immutable `StoredFactory` holder. Its constructor
  plays the part of Go's `init`. `GetFactory` reads the cell and `SwapFactory`
  replaces it. Two ghost fields record every factory swapped in and every factory
  handed back, so the contracts can speak about whole histories.

Supporting modules: `Wrappers` (Option, Result), `GoTypes` (Go's fixed-width
integers, pointers, and opaque stand-ins for float, complex, time, `fmt.Stringer`,
`error` and other dynamic values), and `Loggers`. `Loggers` models the `Logger` and
`Factory` interfaces as sum types. A Logger is the no-op logger or another backend,
seen only through the fields it has accumulated; this is the shape of the `tl` test
logger in field_test.go. A Factory is nil, the no-op factory, or another backend's.
The context operations live in their own module, separate from `Fields`, because
they need `Loggers`, and `Loggers` needs `Fields`.

Three points where the code's behaviour is easy to misread:

- A nested `NewContext` **shadows** the outer field list; the two lists are not merged.
  `context.WithValue` stores one value per layer, and lookup stops at the nearest
  layer. `FieldContext.NestedContextShadows` states this.
- `GetFactory` always finds a non-nil holder in the cell, but the factory inside it
  can be nil: after `SwapFactory(nil)`, `GetFactory` returns nil.
  `Registry.CurrentNilness` states both halves.
- The level tests expect the empty YAML document `""` to decode without error. That
  is because the YAML decoder never calls `UnmarshalYAML` for an empty document.
  `UnmarshalYAML` itself rejects empty text, and so does the model
  (`Levels.ParseRejectExamples`).

## Model

| member | source | states |
|---|---|---|
| Levels.NamedLevelsOrdered | level.go:13-24 | the named levels are -1, 0, 1, 2, 3, strictly ordered Debug < Info < Warn < Error < Off; a value has a name iff it lies in Debug..Off |
| Levels.NameTablesInverse | level.go:26-41 | `LevelName` and `LevelValue` are mutually inverse on their whole domains |
| Levels.String | level.go:43-48 | the five named levels give "DEBUG", "INFO", "WARN", "ERROR", "OFF"; every value below Debug or above Off gives "OFF"; the result is always a key of `LevelValue` that maps back to the level, or to Off for an unnamed value |
| Levels.Enabled | level.go:56-65 | a threshold l enables p iff p < Off and l <= p |
| Levels.EnabledMonotone | level.go:60-65 | if l enables p and p <= q < Off then l enables q |
| Levels.LowerThresholdEnablesMore | level.go:60-65 | a lower threshold enables everything a higher one does |
| Levels.OffNeverEnabled | level.go:60-65 | no threshold enables Off or any value above it; the Off threshold enables nothing |
| Levels.ThresholdEnablesItself | level.go:56-59 | every threshold below Off enables its own level |
| Levels.WarnThresholdExamples | level_test.go:54-100 | Warn enables Warn and Error but not Debug, Info or Off |
| Levels.ToUpperAt | level.go:74 | upper-casing maps each character independently (ASCII letters to upper case, everything else unchanged) and keeps the length |
| Levels.TrimSplit | level.go:73 | every text is its trimmed core between two runs of quote characters, and the core neither starts nor ends with a quote |
| Levels.TrimOfPadded | level.go:73 | conversely, trimming a core wrapped in quote runs gives back exactly that core; quote-only text trims to empty |
| Levels.ToUpperConcat | level.go:74 | upper-casing distributes over concatenation |
| Levels.UpperOfQuotes | level.go:73-74 | upper-casing leaves text made only of quote characters unchanged, so it stays quote-only |
| Levels.NameIsUpperUnquoted | level.go:26-48 | every level name is non-empty, already upper case, and neither starts nor ends with a quote |
| Levels.TrimQuotesToUpperCommute | level.go:73-74 | trimming quotes and upper-casing commute |
| Levels.ErrorMessage | level.go:79 | the error message ends with the rejected text exactly as given, after a non-empty prefix |
| Levels.ErrorMessageInjective | level.go:79 | two unknown-level errors with the same message were raised for the same text |
| Levels.ParseLevel | level.go:71-79 | succeeds iff the trimmed, upper-cased text is a key of `LevelValue`; on success the level is named and its name is that key; on failure the error carries the original text |
| Levels.ParseAcceptsPaddedName | level.go:72-77 | a level name in any letter case, wrapped in any runs of `"` and `'`, parses to that level |
| Levels.ParseIgnoresCase | level.go:74-75 | two texts that agree up to ASCII case both parse or both fail, and parse to the same level |
| Levels.ParseRejectsOnlyQuotes | level.go:73-79 | text made only of quote characters (the empty text included) is an unknown level |
| Levels.ParseAcceptExamples | level_test.go:167-186 | "INFO", "debug", "Warn", "'ERROR'" and "\"OFF\"" parse to Info, Debug, Warn, Error and Off |
| Levels.ParseRejectExamples | level_test.go:163-202 | "0", "vv", "abc", "", "''" and "\"\"" are rejected |
| Levels.ParseUnquoted | level.go:73-74 | a non-empty text that neither starts nor ends with a quote is canonicalised by upper-casing alone |
| Levels.MarshalYAML | level.go:67-69 | never fails; the text produced parses back to the level, or to Off for an unnamed value |
| Levels.MarshalRoundTrip | level.go:67-78 | for each named level, unmarshalling its marshalled text gives the level back |
| Levels.LevelCell.constructor | level.go:11 | a cell holds the level it is created with |
| Levels.LevelCell.UnmarshalYAML | level.go:71-79 | on success the cell holds the parsed level and no error is returned; on failure the unknown-level error is returned and the cell is unchanged |
| Fields.Code | field.go:9-56 | the tag's `uint8` value is below 22 and is 0 exactly for UnknownType |
| Fields.CodeInjective | field.go:11-56 | distinct tags have distinct numeric values |
| Fields.Any | field.go:74-81 | key and value unchanged, tag UnknownType, read back by `Key`, `Type`, `Value` |
| Fields.Binary | field.go:83-88 | key unchanged, tag BinaryType, the payload a freshly allocated array with the input's length and contents |
| Fields.BinaryThenOverwrite | field.go:83-88 | overwriting the caller's buffer after `Binary` leaves the field's bytes equal to the buffer's old contents |
| Fields.Bool | field.go:91-93 | key unchanged, tag BoolType, the `bool` value unchanged as payload; well-typed |
| Fields.Boolp | field.go:96-101 | nil gives UnknownType with a nil `*bool` payload; a pointer to v gives exactly `Bool(key, v)`; well-typed |
| Fields.Complex128 | field.go:104-106 | key unchanged, tag Complex128Type, the `complex128` value unchanged as payload; well-typed |
| Fields.Complex128p | field.go:110-115 | nil gives UnknownType with a nil `*complex128` payload; a pointer to v gives exactly `Complex128(key, v)`; well-typed |
| Fields.Complex64 | field.go:118-120 | key unchanged, tag Complex64Type, the `complex64` value unchanged as payload; well-typed |
| Fields.Complex64p | field.go:124-129 | nil gives UnknownType with a nil `*complex64` payload; a pointer to v gives exactly `Complex64(key, v)`; well-typed |
| Fields.Duration | field.go:132-134 | key unchanged, tag DurationType, the `time.Duration` value unchanged as payload; well-typed |
| Fields.Durationp | field.go:138-143 | nil gives UnknownType with a nil `*time.Duration` payload; a pointer to v gives exactly `Duration(key, v)`; well-typed |
| Fields.Float64 | field.go:146-148 | key unchanged, tag Float64Type, the `float64` value unchanged as payload; well-typed |
| Fields.Float64p | field.go:152-157 | nil gives UnknownType with a nil `*float64` payload; a pointer to v gives exactly `Float64(key, v)`; well-typed |
| Fields.Float32 | field.go:160-162 | key unchanged, tag Float32Type, the `float32` value unchanged as payload; well-typed |
| Fields.Float32p | field.go:166-171 | nil gives UnknownType with a nil `*float32` payload; a pointer to v gives exactly `Float32(key, v)`; well-typed |
| Fields.Int | field.go:174-176 | key unchanged, tag Int64Type, an int64 payload equal in value to the `int` argument; well-typed |
| Fields.Intp | field.go:180-185 | nil gives UnknownType with a nil `*int64` (not `*int`) payload; a pointer to v gives exactly `Int(key, v)`; well-typed |
| Fields.Int64 | field.go:188-190 | key unchanged, tag Int64Type, the `int64` value unchanged as payload; well-typed |
| Fields.Int64p | field.go:194-199 | nil gives UnknownType with a nil `*int64` payload; a pointer to v gives exactly `Int64(key, v)`; well-typed |
| Fields.Int32 | field.go:202-204 | key unchanged, tag Int32Type, the `int32` value unchanged as payload; well-typed |
| Fields.Int32p | field.go:208-213 | nil gives UnknownType with a nil `*int32` payload; a pointer to v gives exactly `Int32(key, v)`; well-typed |
| Fields.Int16 | field.go:216-218 | key unchanged, tag Int16Type, the `int16` value unchanged as payload; well-typed |
| Fields.Int16p | field.go:222-227 | nil gives UnknownType with a nil `*int16` payload; a pointer to v gives exactly `Int16(key, v)`; well-typed |
| Fields.Int8 | field.go:230-232 | key unchanged, tag Int8Type, the `int8` value unchanged as payload; well-typed |
| Fields.Int8p | field.go:236-241 | nil gives UnknownType with a nil `*int8` payload; a pointer to v gives exactly `Int8(key, v)`; well-typed |
| Fields.String | field.go:244-246 | key unchanged, tag StringType, the `string` value unchanged as payload; well-typed |
| Fields.Stringp | field.go:250-255 | nil gives UnknownType with a nil `*string` payload; a pointer to v gives exactly `String(key, v)`; well-typed |
| Fields.Time | field.go:258-260 | key unchanged, tag TimeType, the `time.Time` value unchanged as payload; well-typed |
| Fields.Timep | field.go:264-269 | nil gives UnknownType with a nil `*time.Time` payload; a pointer to v gives exactly `Time(key, v)`; well-typed |
| Fields.Uint | field.go:272-274 | key unchanged, tag Uint64Type, a uint64 payload equal in value to the `uint` argument; well-typed |
| Fields.Uintp | field.go:278-283 | nil gives UnknownType with a nil `*uint64` (not `*uint`) payload; a pointer to v gives exactly `Uint(key, v)`; well-typed |
| Fields.Uint64 | field.go:286-288 | key unchanged, tag Uint64Type, the `uint64` value unchanged as payload; well-typed |
| Fields.Uint64p | field.go:292-297 | nil gives UnknownType with a nil `*uint64` payload; a pointer to v gives exactly `Uint64(key, v)`; well-typed |
| Fields.Uint32 | field.go:300-302 | key unchanged, tag Uint32Type, the `uint32` value unchanged as payload; well-typed |
| Fields.Uint32p | field.go:306-311 | nil gives UnknownType with a nil `*uint32` payload; a pointer to v gives exactly `Uint32(key, v)`; well-typed |
| Fields.Uint16 | field.go:314-316 | key unchanged, tag Uint16Type, the `uint16` value unchanged as payload; well-typed |
| Fields.Uint16p | field.go:320-325 | nil gives UnknownType with a nil `*uint16` payload; a pointer to v gives exactly `Uint16(key, v)`; well-typed |
| Fields.Uint8 | field.go:328-330 | key unchanged, tag Uint8Type, the `uint8` value unchanged as payload; well-typed |
| Fields.Uint8p | field.go:334-339 | nil gives UnknownType with a nil `*uint8` payload; a pointer to v gives exactly `Uint8(key, v)`; well-typed |
| Fields.Uintptr | field.go:342-344 | key unchanged, tag UintptrType, the `uintptr` value unchanged as payload; well-typed |
| Fields.Uintptrp | field.go:348-353 | nil gives UnknownType with a nil `*uintptr` payload; a pointer to v gives exactly `Uintptr(key, v)`; well-typed |
| Fields.Stringer | field.go:355-358 | key unchanged, tag StringerType, the Stringer stored by reference as payload |
| Fields.Error | field.go:360-363 | key "error", tag ErrorType, the error as payload |
| Fields.NamedError | field.go:365-368 | key unchanged, tag ErrorType, the error as payload |
| Fields.Stack | field.go:370-373 | key unchanged, tag StackType, payload the Go int 0: a request to capture a stack, not a captured stack |
| Fields.StackSkip | field.go:375-379 | key unchanged, tag StackType, payload the skip count |
| Fields.SugarForms | field.go:360-379 | `Error(err)` equals `NamedError("error", err)`; `Stack(k)` equals `StackSkip(k, 0)` |
| Fields.IntWidensToInt64 | field.go:173-199 | `Int` and `Intp` record exactly what `Int64` and `Int64p` record, nil pointer included |
| Fields.UintWidensToUint64 | field.go:271-297 | `Uint` and `Uintp` record exactly what `Uint64` and `Uint64p` record, nil pointer included |
| Fields.WellTypedFieldsAreConstructed | field.go:68-379 | every field whose tag and payload agree is exactly what the constructor for its tag returns on its key and payload, binary fields excepted, which are rebuilt around the same array |
| Nop.NewNopLoggerFactory | nop.go:3-5 | returns the no-op factory |
| Nop.Logger | nop.go:9 | every name yields the no-op logger |
| Nop.Enabled | nop.go:13 | false for every level |
| Nop.EnabledAgreesWithOff | nop.go:13 | the no-op logger agrees with the Off threshold on every level |
| Nop.WithField | nop.go:30 | returns the receiver whatever fields are passed |
| Nop.WithFieldIdempotent | nop.go:30 | any number of repeated `WithField` calls still yield the receiver |
| Nop.Log | nop.go:14-29 | each of the sixteen logging methods leaves the program's state unchanged |
| Nop.LogAllNoEffect | nop.go:14-29 | any sequence of logging calls leaves the state unchanged |
| Loggers.WithField | logger.go:140-146 | the no-op logger returns itself; another backend keeps its name and carries its old fields followed by the new ones |
| FieldContext.LookupIsNearestLayer | field.go:391 | lookup yields the nearest attached field list, or nothing when no list is attached |
| FieldContext.NewContext | field.go:383-386 | the new context's lookup yields exactly the given list; the layers beneath are kept unchanged |
| FieldContext.NestedContextShadows | field.go:383-386 | an inner attachment shadows the outer one; both stay in the chain, nearest first |
| FieldContext.ValueLayerTransparent | field.go:381-391 | a layer under another key does not hide the fields beneath it |
| FieldContext.WithContextField | field.go:388-399 | no list or an empty list gives the logger itself; otherwise `logger.WithField` with the attached fields |
| FieldContext.BackendReceivesNearestFields | field.go:388-399 | a backend ends up with its own fields followed by the nearest attached list, in order |
| FieldContext.NopIgnoresContext | field.go:388-399 | the no-op logger is returned unchanged whatever the context holds |
| FieldContext.WithContextFieldExamples | field_test.go:847-870 | background context and empty list give the logger itself; one attached field gives `logger.WithField(f)` |
| Registry.DefaultFactory | factory.go:7-9 | start-up installs the no-op factory, which is not nil |
| Registry.Returns | factory.go:37-39 | a history of swaps hands back one factory per swap |
| Registry.ReturnsAt | factory.go:7-39 | the first swap hands back the no-op default; the i-th hands back the argument of the (i-1)-th |
| Registry.SwapBackRestores | factory.go:37-39 | swapping f in and the returned factory back restores the cell; the two swaps return the old factory and f |
| Registry.CurrentNilness | factory.go:24-39 | the cell's factory is non-nil if nil was never swapped in; after swapping nil in it is nil |
| Registry.FactoryStore.constructor | factory.go:7-9 | the cell starts holding the no-op factory, with empty histories |
| Registry.FactoryStore.GetFactory | factory.go:29-31 | returns exactly the stored factory and changes nothing; it is non-nil if nil was never swapped in |
| Registry.FactoryStore.SwapFactory | factory.go:37-39 | stores a new holder for the argument and returns the factory stored just before; both histories grow by one |
| Registry.SwapAndRestore | factory_test.go:22-39 | swapping f in returns the current factory, a read then sees f, and swapping back restores the cell and returns f |

## Left out

- Atomicity of the registry cell: `atomic.Value` load and swap are modelled as single sequential steps on one object; concurrent callers are not modelled.
- Pointer identity: the no-op logger and factory are stateless values here. Go allocates `&nopLogger{}` per call and `WithField` returns the same pointer. Go does not guarantee that pointers to distinct zero-size values differ, so the model keeps only value equality.
- The registry is a process global in Go; here it is one `FactoryStore` object that callers share. The test-only direct `factoryStore.Store` at factory_test.go:25 is not modelled.
- YAML decoding: `UnmarshalYAML` is modelled on the scalar text `value.Value` only; the yaml.v3 library and its handling of empty documents are not part of this model.
- Levels.ToUpperAt: upper-casing is ASCII only; Go's Unicode case mapping (for example the dotless ı becoming I, which would make "ınfo" parse as Info) is not modelled.
- `LevelName` and `LevelValue` are mutable exported maps in Go; they are constant tables here.
- Float, complex, `time.Time`, `fmt.Stringer`, `error` and other dynamic payloads are opaque values; nothing formats or compares them beyond equality.
- Go's `int` and `uint` are taken as 64 bits wide, so `Int` and `Uint` widen without loss.
- Loggers.WithField: the behaviour of another backend is only the field accumulation the facade's contract asks for; how it renders fields, resolves duplicate keys, or which levels it enables is backend policy and not modelled.
- The Logger and Factory interfaces (logger.go) are modelled only as far as `WithField` and the factory cell need them; the hook decorator (hook/hook.go) is not part of this model.
- FieldContext.NewContext: in Go the stored list is the caller's own slice, not a copy, so later writes to that slice change what the context, and `WithContextField`, hand on; the model stores the list as a persistent value and does not capture that aliasing (unlike `Binary`, which copies).
- WellTypedFieldsAreConstructed: a binary field is not re-derived from `Binary`, which always allocates a fresh array; the lemma only rebuilds it around the same array, and `Binary`'s own contract covers the copy.
- The internals of `context.Context` (deadlines, cancellation, other keys' lookup) are not modelled; other keys appear only as opaque `ValueLayer` entries.
