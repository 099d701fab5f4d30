/**
 * The no-op backend: a logger factory and a logger that hold no state, report every
 * level as disabled, discard fields and ignore every logging call.
 */
module Nop {
  import Levels
  import Fields

  datatype NopLogger = NopLogger
  datatype NopLoggerFactory = NopLoggerFactory

  function NewNopLoggerFactory(): (f: NopLoggerFactory)
    ensures f == NopLoggerFactory
  {
    NopLoggerFactory
  }

  /** Every name yields a no-op logger; the name plays no part. */
  function Logger(factory: NopLoggerFactory, name: string): (l: NopLogger)
    ensures l == NopLogger
  {
    NopLogger
  }

  /** No level is enabled, from Debug through Off and beyond. */
  function Enabled(n: NopLogger, level: Levels.Level): (r: bool)
    ensures !r
  {
    false
  }

  /** The no-op logger behaves as a logger whose threshold is Off. */
  lemma EnabledAgreesWithOff(n: NopLogger, p: Levels.Level)
    ensures Enabled(n, p) == Levels.Enabled(Levels.OffLevel, p)
  {
  }

  /** Adding fields gives back the receiver itself. */
  function WithField(n: NopLogger, fields: seq<Fields.Field>): (r: NopLogger)
    ensures r == n
  {
    n
  }

  /** Wrapping the result again, any number of times, still gives the receiver. */
  function WithFieldRepeated(n: NopLogger, batches: seq<seq<Fields.Field>>): NopLogger
    decreases |batches|
  {
    if batches == [] then n else WithFieldRepeated(WithField(n, batches[0]), batches[1..])
  }

  lemma {:induction false} WithFieldIdempotent(n: NopLogger, batches: seq<seq<Fields.Field>>)
    ensures WithFieldRepeated(n, batches) == n
    decreases |batches|
  {
    if batches != [] {
      WithFieldIdempotent(WithField(n, batches[0]), batches[1..]);
    }
  }

  /** The four severities of the logging methods. */
  datatype Severity = Debug | Info | Warn | Error

  /**
   * The four shapes of a logging method: print-style arguments, println-style
   * arguments, a format string with arguments, and a message with fields.
   */
  datatype CallShape =
    | Print(args: seq<Fields.Payload>)
    | Println(lineArgs: seq<Fields.Payload>)
    | Printf(format: string, formatArgs: seq<Fields.Payload>)
    | Structured(message: string, fields: seq<Fields.Field>)

  /** One call of one of the sixteen logging methods, Debug through Errorw. */
  datatype LogCall = LogCall(severity: Severity, shape: CallShape)

  /**
   * A logging method applied to the state `s` of the rest of the program; the
   * no-op logger changes nothing.
   */
  function Log<S>(n: NopLogger, call: LogCall, s: S): (r: S)
    ensures r == s
  {
    s
  }

  function LogAll<S>(n: NopLogger, calls: seq<LogCall>, s: S): S
    decreases |calls|
  {
    if calls == [] then s else LogAll(n, calls[1..], Log(n, calls[0], s))
  }

  /** Any sequence of logging calls leaves the state as it was. */
  lemma {:induction false} LogAllNoEffect<S>(n: NopLogger, calls: seq<LogCall>, s: S)
    ensures LogAll(n, calls, s) == s
    decreases |calls|
  {
    if calls != [] {
      LogAllNoEffect(n, calls[1..], Log(n, calls[0], s));
    }
  }
}
