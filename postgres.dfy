/**
 * The parts of the PostgreSQL driver that the repository touches, as
 * opaque values: parameter types, bound values, result rows, the client
 * handle and prepared-statement handles. What the database does with a
 * query is not modelled; it is an oracle that the caller supplies.
 */
module Postgres {

  const I64Min: int := -0x8000_0000_0000_0000
  const I64Limit: int := 0x8000_0000_0000_0000

  /** Rust's `i64`. */
  type Int64 = x: int | I64Min <= x < I64Limit

  /** `postgres_types::Type`: the types the repository declares or binds. */
  datatype SqlType = TEXT | TIMESTAMPTZ | INT8

  /** A value bound to a parameter or read from a column; timestamps count nanoseconds since the Unix epoch. */
  datatype SqlValue = Text(s: string) | TimestampTz(nanos: int) | Int8(n: Int64)

  /** The type that a bound value is sent as. */
  function TypeOf(v: SqlValue): SqlType {
    match v
    case Text(_) => TEXT
    case TimestampTz(_) => TIMESTAMPTZ
    case Int8(_) => INT8
  }

  /** A result row: its columns by name. */
  datatype Row = Row(columns: map<string, SqlValue>)

  /** An open connection's client handle. */
  datatype Client = Client(id: nat)

  /** A statement prepared on the server. */
  datatype Statement = Statement(id: nat)

  /** What a data operation sends: query text and positional parameters. */
  datatype Query = Query(text: string, params: seq<SqlValue>)

  /** What the database answers: the rows, or the driver's error text. */
  datatype Reply = Rows(rows: seq<Row>) | Failure(message: string)
}
