/**
 * Fields carried by a context: NewContext layers a field list over a context, and
 * WithContextField hands the nearest such list to a logger.
 */
module FieldContext {
  import opened Wrappers
  import Fields
  import Loggers
  import Nop
  import GoTypes

  /**
   * A persistent chain of context layers. Field lists live under the package's
   * private key; values under any other key sit in ValueLayer and are never
   * confused with them.
   */
  datatype Context =
    | Background
    | FieldLayer(parent: Context, fields: seq<Fields.Field>)
    | ValueLayer(parent: Context, key: GoTypes.Dynamic, value: GoTypes.Dynamic)

  /** The field list under the private key, found by walking outwards to the nearest one. */
  function Lookup(ctx: Context): Option<seq<Fields.Field>> {
    match ctx
    case Background => None
    case FieldLayer(_, fields) => Some(fields)
    case ValueLayer(parent, _, _) => Lookup(parent)
  }

  /** Every attached field list, nearest first. */
  function Layers(ctx: Context): seq<seq<Fields.Field>> {
    match ctx
    case Background => []
    case FieldLayer(parent, fields) => [fields] + Layers(parent)
    case ValueLayer(parent, _, _) => Layers(parent)
  }

  /** Lookup sees exactly the nearest attached list and nothing beyond it. */
  lemma {:induction false} LookupIsNearestLayer(ctx: Context)
    ensures Lookup(ctx) == if Layers(ctx) == [] then None else Some(Layers(ctx)[0])
  {
    match ctx
    case Background =>
    case FieldLayer(_, _) =>
    case ValueLayer(parent, _, _) => LookupIsNearestLayer(parent);
  }

  /** A new layer on top of `ctx`; `ctx` itself is left as it was. */
  function NewContext(ctx: Context, fields: seq<Fields.Field>): (c: Context)
    ensures Lookup(c) == Some(fields)
    ensures Layers(c) == [fields] + Layers(ctx)
  {
    FieldLayer(ctx, fields)
  }

  /** An inner attachment shadows an outer one rather than merging with it. */
  lemma NestedContextShadows(ctx: Context, outer: seq<Fields.Field>, inner: seq<Fields.Field>)
    ensures Lookup(NewContext(NewContext(ctx, outer), inner)) == Some(inner)
    ensures Layers(NewContext(NewContext(ctx, outer), inner)) == [inner, outer] + Layers(ctx)
  {
  }

  /** A layer under another key does not hide the fields beneath it. */
  lemma ValueLayerTransparent(ctx: Context, key: GoTypes.Dynamic, value: GoTypes.Dynamic)
    ensures Lookup(ValueLayer(ctx, key, value)) == Lookup(ctx)
  {
  }

  /**
   * The logger with the context's fields added; without an attached list, or with
   * an empty one, the logger itself.
   */
  function WithContextField(ctx: Context, logger: Loggers.Logger): (r: Loggers.Logger)
    ensures Lookup(ctx).None? ==> r == logger
    ensures Lookup(ctx).Some? && Lookup(ctx).value == [] ==> r == logger
    ensures Lookup(ctx).Some? && Lookup(ctx).value != [] ==> r == Loggers.WithField(logger, Lookup(ctx).value)
  {
    match Lookup(ctx)
    case None => logger
    case Some(fields) => if |fields| == 0 then logger else Loggers.WithField(logger, fields)
  }

  /** A backend logger ends up with its own fields followed by the nearest attached list. */
  lemma BackendReceivesNearestFields(ctx: Context, name: string, own: seq<Fields.Field>)
    ensures WithContextField(ctx, Loggers.Backend(name, own))
         == Loggers.Backend(name, own + if Layers(ctx) == [] then [] else Layers(ctx)[0])
  {
    LookupIsNearestLayer(ctx);
    if Layers(ctx) != [] && Layers(ctx)[0] == [] {
      assert own + [] == own;
    }
  }

  /** Context fields never change the no-op logger. */
  lemma NopIgnoresContext(ctx: Context)
    ensures WithContextField(ctx, Loggers.NopBackend(Nop.NopLogger)) == Loggers.NopBackend(Nop.NopLogger)
  {
  }

  /** The three cases of the context tests: nothing attached, an empty list, one field. */
  lemma WithContextFieldExamples(logger: Loggers.Logger, f: Fields.Field)
    ensures WithContextField(Background, logger) == logger
    ensures WithContextField(NewContext(Background, []), logger) == logger
    ensures WithContextField(NewContext(Background, [f]), logger) == Loggers.WithField(logger, [f])
  {
  }
}
