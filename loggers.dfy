/**
 * The Logger and Factory interfaces, as far as the rest of the model needs them:
 * a Logger is the no-op logger or some other backend, seen only through the fields
 * it has accumulated; a Factory is nil, the no-op factory, or another backend's.
 */
module Loggers {
  import Fields
  import Nop

  datatype Logger =
    | NopBackend(nop: Nop.NopLogger)
    | Backend(name: string, fields: seq<Fields.Field>)

  /**
   * `WithField`: the no-op logger returns itself; any other backend returns a logger
   * carrying its earlier fields followed by the new ones, in order.
   */
  function WithField(l: Logger, fields: seq<Fields.Field>): (r: Logger)
    ensures l.NopBackend? ==> r == l
    ensures l.Backend? ==> r.Backend? && r.name == l.name && r.fields == l.fields + fields
  {
    match l
    case NopBackend(n) => NopBackend(Nop.WithField(n, fields))
    case Backend(name, fs) => Backend(name, fs + fields)
  }

  datatype Factory =
    | NilFactory
    | NopFactory(nop: Nop.NopLoggerFactory)
    | BackendFactory(id: string)
}
