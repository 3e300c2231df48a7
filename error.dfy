/**
 * The crate's error type and how it is displayed and converted.
 * `Error::DbError` and `Error::ConfigError`, as some modules spell them,
 * are the variants `Db` and `Configuration`.
 */
module Errors {
  import opened Wrappers

  /** Every variant carries its cause as text; for `Io` that is the `io::Error`'s own display text. */
  datatype Error =
    | Io(message: string)
    | Db(message: string)
    | Configuration(message: string)
    | Server(message: string)
    | Unspecified(message: string)

  /** What actix-web is handed: an HTTP error response, its status code and its body text. */
  datatype HttpError = HttpError(status: nat, message: string)

  /** The status code of `ErrorInternalServerError`. */
  const InternalServerErrorStatus: nat := 500

  function Prefix(e: Error): string {
    match e
    case Io(_) => "IO error: "
    case Db(_) => "Database error: "
    case Configuration(_) => "Config error: "
    case Unspecified(_) => "Unspecified error: "
    case Server(_) => "Server error: "
  }

  /** `Display::fmt`: the variant's prefix followed by the payload. */
  function Display(e: Error): (s: string)
    ensures Prefix(e) <= s && s[|Prefix(e)|..] == e.message
  {
    Prefix(e) + e.message
  }

  /** Reads a displayed error back: the inverse of `Display`. */
  function Parse(s: string): Option<Error> {
    if "IO error: " <= s then Some(Io(s[10..]))
    else if "Database error: " <= s then Some(Db(s[16..]))
    else if "Config error: " <= s then Some(Configuration(s[14..]))
    else if "Unspecified error: " <= s then Some(Unspecified(s[19..]))
    else if "Server error: " <= s then Some(Server(s[14..]))
    else None
  }

  predicate SameVariant(a: Error, b: Error) {
    (a.Io? && b.Io?) || (a.Db? && b.Db?) || (a.Configuration? && b.Configuration?) ||
    (a.Server? && b.Server?) || (a.Unspecified? && b.Unspecified?)
  }

  /** The five prefixes are pairwise distinct, and none is a prefix of another. */
  lemma PrefixesExclusive(a: Error, b: Error)
    ensures !SameVariant(a, b) ==> !(Prefix(a) <= Prefix(b)) && Prefix(a) != Prefix(b)
  {
    assert Prefix(a)[0] in "IDCUS" && Prefix(b)[0] in "IDCUS";
    if !SameVariant(a, b) {
      assert Prefix(a)[0] != Prefix(b)[0];
    }
  }

  lemma ParseDisplay(e: Error)
    ensures Parse(Display(e)) == Some(e)
  {
    var s := Display(e);
    assert s == Prefix(e) + e.message;
    match e
    case Io(m) =>
    case Db(m) =>
      assert s[0] == 'D';
    case Configuration(m) =>
      assert s[0] == 'C';
    case Unspecified(m) =>
      assert s[0] == 'U';
    case Server(m) =>
      assert s[0] == 'S';
  }

  /** The displayed text determines the error: its variant and its payload. */
  lemma DisplayInjective(a: Error, b: Error)
    ensures Display(a) == Display(b) ==> a == b
  {
    ParseDisplay(a);
    ParseDisplay(b);
  }

  /** `From<&str>`. */
  function FromStr(s: string): (e: Error)
    ensures Parse(Display(e)) == Some(Unspecified(s))
  {
    ParseDisplay(Unspecified(s));
    Unspecified(s)
  }

  /** `From<io::Error>`, the io error being given by its display text. */
  function FromIo(cause: string): (e: Error)
    ensures Parse(Display(e)) == Some(Io(cause))
  {
    ParseDisplay(Io(cause));
    Io(cause)
  }

  /** `From<serde_json::Error>`, the JSON error being given by its display text. */
  function FromJson(cause: string): (e: Error)
    ensures Parse(Display(e)) == Some(Configuration(cause))
  {
    ParseDisplay(Configuration(cause));
    Configuration(cause)
  }

  /** `From<tokio_postgres::Error>`, the driver error being given by its display text. */
  function FromDriver(cause: string): (e: Error)
    ensures Parse(Display(e)) == Some(Db(cause))
  {
    ParseDisplay(Db(cause));
    Db(cause)
  }

  /** `From<actix_web::Error>`, the actix error being given by its display text. */
  function FromActix(cause: string): (e: Error)
    ensures Parse(Display(e)) == Some(Server(cause))
  {
    ParseDisplay(Server(cause));
    Server(cause)
  }

  /** `From<Error> for actix_web::Error`: an internal server error carrying the displayed text. */
  function ToActix(e: Error): (h: HttpError)
    ensures h.status == InternalServerErrorStatus
    ensures Parse(h.message) == Some(e)
  {
    ParseDisplay(e);
    HttpError(InternalServerErrorStatus, Display(e))
  }
}
