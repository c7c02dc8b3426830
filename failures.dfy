/** The error values and panic values that flow through the request pipeline.

    Go code in this service signals expected failures with `error` return values
    and unexpected ones with `panic`. The model makes both explicit: `Err` is the
    closed set of error values that can arise in the core, and every handler and
    middleware returns an `Outcome` that is either `Normal` or `Panic(value)`. */
module Failures {

  /** The Go `error` values that can arise in the modelled core. */
  datatype Err =
    // database/sql sentinels
    | NoRows                  // sql.ErrNoRows: a single-row query matched nothing
    | TxDone                  // sql.ErrTxDone: the transaction was already committed or rolled back
    // PostgreSQL errors, as reported through lib/pq
    | UniqueViolation         // urls.name is UNIQUE
    | ForeignKeyViolation     // hits.url_id REFERENCES urls(id)
    | OutOfRange              // the 32-bit `hits` column would overflow
    | SequenceExhausted       // the `serial` id sequence reached its maximum
    | TransactionAborted      // a statement issued after an earlier statement failed
    | InFailedTransaction     // commit of a transaction in which a statement failed
    // failures of the database connection itself (a parameter of the model)
    | Driver(msg: string)
    // a Go runtime error, e.g. slicing an empty path
    | Runtime(msg: string)
    // errors.New / fmt.Errorf
    | Text(msg: string)

  /** A value passed to Go's `panic`: either an `error` or something else (here: a string). */
  datatype PanicValue = ErrorValue(err: Err) | StringValue(s: string)

  /** How a handler call ended: it returned, or it panicked with a value. */
  datatype Outcome = Normal | Panic(value: PanicValue)

  /** The type switch in panicHandler's deferred function: an `error` is kept, any
      other panic value becomes `errors.New(fmt.Sprint(value))`. */
  function AsError(p: PanicValue): (e: Err)
    ensures p.ErrorValue? ==> e == p.err
    ensures p.StringValue? ==> e == Text(p.s)
  {
    match p
    case ErrorValue(err) => err
    case StringValue(s) => Text(s)
  }
}
