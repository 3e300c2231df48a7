/**
 * A registered statement: its query text, its declared parameter types, and
 * the handle of its prepared form once it has been prepared. The
 * repository module declares its own struct of the same name, with the same
 * fields, `new`, `prepare` and `to_statement`; this class stands for both.
 * Only this one has `Debug`.
 */
module RepoStatements {
  import opened Wrappers
  import opened Postgres
  import Errors

  /** How the driver's `prepare_typed`, raced against the one-second timeout, turned out. */
  datatype PrepareOutcome =
    | Prepared(handle: Statement)
    | DriverError(message: string)
    | TimedOut

  /** `tokio::time::error::Elapsed`'s display text. */
  const ElapsedText := "deadline has elapsed"

  /** What `to_statement` hands to the driver: the prepared statement, or the raw query text. */
  datatype StatementRef = PreparedRef(handle: Statement) | RawText(text: string)

  /** The fields that `Debug` shows: the handle itself is reduced to whether there is one. */
  datatype DebugView = DebugView(statement: string, types: seq<SqlType>, prepared: bool)

  /** The error `prepare` reports on a timeout. */
  function TimeoutError(statement: string): Errors.Error {
    Errors.Db("Failed to prepare statement " + statement + ", error: " + ElapsedText)
  }

  class RepoStatement {
    const statement: string
    const types: seq<SqlType>
    var prepared: Option<Statement>

    /** `RepoStatement::new`: unprepared. */
    constructor (statement: string, types: seq<SqlType>)
      ensures this.statement == statement && this.types == types && prepared == None
    {
      this.statement := statement;
      this.types := types;
      prepared := None;
    }

    /**
     * `prepare`: prepares the text with the declared types on the client.
     * `prepareTyped` is the driver and timer together; a driver error inside
     * the time limit panics (`unwrap`).
     */
    method Prepare(client: Client, prepareTyped: (Client, string, seq<SqlType>) -> PrepareOutcome)
      returns (r: Result<(), Errors.Error>)
      requires !prepareTyped(client, statement, types).DriverError?
      modifies this`prepared
      ensures var outcome := prepareTyped(client, statement, types);
              && (outcome.Prepared? ==> r == Ok(()) && prepared == Some(outcome.handle))
              && (outcome.TimedOut? ==> r == Err(TimeoutError(statement)) && prepared == old(prepared))
      ensures r.Ok? ==> ToStatement() == PreparedRef(prepared.value)
    {
      var outcome := prepareTyped(client, statement, types);
      match outcome
      case Prepared(handle) =>
        prepared := Some(handle);
        r := Ok(());
      case TimedOut =>
        r := Err(TimeoutError(statement));
    }

    /** `to_statement`: the prepared handle when there is one, the raw text otherwise. */
    function ToStatement(): (r: StatementRef)
      reads this
      ensures r.RawText? <==> prepared.None?
      ensures r.RawText? ==> r.text == statement
      ensures r.PreparedRef? ==> prepared == Some(r.handle)
    {
      match prepared
      case Some(x) => PreparedRef(x)
      case None => RawText(statement)
    }

    /** `Debug::fmt`. */
    function Debug(): (d: DebugView)
      reads this
      ensures d.statement == statement && d.types == types && d.prepared == prepared.Some?
    {
      DebugView(statement, types, prepared.Some?)
    }
  }

  /** `Debug` hides the handle: statements that differ only in which handle they hold print alike. */
  lemma DebugHidesHandle(a: RepoStatement, b: RepoStatement)
    requires a.statement == b.statement && a.types == b.types
    requires a.prepared.Some? && b.prepared.Some?
    ensures a.Debug() == b.Debug()
  {
  }

  /** The timeout message names the statement it was preparing. */
  lemma TimeoutErrorNamesStatement(statement: string)
    ensures var m := TimeoutError(statement).message;
            "Failed to prepare statement " + statement <= m
  {
  }
}
