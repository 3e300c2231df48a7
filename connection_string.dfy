/**
 * The database section of the configuration, turned into a connection
 * descriptor, and that descriptor's rendering as a libpq-style
 * `key=value` connection string.
 */
module ConnectionStrings {
  import opened Wrappers
  import opened Decimal
  import opened JsonValues
  import Errors
  import Configs

  const ErrConfigNoUser := "No user specified in db config"
  const ErrConfigNoHost := "No host specified in db config"

  datatype ConnectionString = ConnectionString(
    user: string,
    host: string,
    password: Option<string>,
    dbname: Option<string>,
    options: Option<string>,
    application_name: Option<string>,
    sslmode: Option<string>,
    port: Option<string>,
    connect_timeout: Option<string>,
    keepalives: Option<string>,
    keepalives_idle: Option<string>,
    target_session_attrs: Option<string>,
    channel_binding: Option<string>)

  /** The keys of the optional fields, in the order they are rendered. */
  const OptionalKeys: seq<string> := [
    "password", "dbname", "options", "application_name", "sslmode", "port",
    "connect_timeout", "keepalives", "keepalives_idle", "target_session_attrs", "channel_binding"]

  /** Position of `port` in `OptionalKeys`; every other optional field is read as a plain string. */
  const PortIndex: nat := 5

  /** The optional fields paired with their keys, in rendering order. */
  function Optionals(cs: ConnectionString): (r: seq<(string, Option<string>)>)
    ensures |r| == |OptionalKeys| && forall k :: 0 <= k < |r| ==> r[k].0 == OptionalKeys[k]
  {
    [("password", cs.password), ("dbname", cs.dbname), ("options", cs.options),
     ("application_name", cs.application_name), ("sslmode", cs.sslmode), ("port", cs.port),
     ("connect_timeout", cs.connect_timeout), ("keepalives", cs.keepalives),
     ("keepalives_idle", cs.keepalives_idle), ("target_session_attrs", cs.target_session_attrs),
     ("channel_binding", cs.channel_binding)]
  }

  // ---------------------------------------------------------------- reading the db section

  /** `as_str().unwrap()` panics on a `user`, or (once `user` is read) a `host`, that is not a string. */
  predicate DbReadable(db: Json) {
    && (Member(db, "user").Some? ==> Member(db, "user").value.Str?)
    && (Member(db, "user").Some? && Member(db, "host").Some? ==> Member(db, "host").value.Str?)
  }

  /** An optional string field: kept only when present and a JSON string. */
  function OptionalString(db: Json, key: string): (r: Option<string>)
    ensures r.Some? <==> Member(db, key).Some? && Member(db, key).value.Str?
    ensures r.Some? ==> Member(db, key) == Some(Str(r.value))
  {
    match Member(db, key)
    case Some(x) => AsStr(x)
    case None => None
  }

  /** `port`: kept when the value's JSON text parses as a `u16`, and then as that number's text. */
  function PortField(db: Json): Option<string> {
    match Member(db, "port")
    case None => None
    case Some(x) =>
      match ParseU16(TextForm(x))
      case Some(n) => Some(NatText(n))
      case None => None
  }

  /** Which JSON values get through the port filter: exactly the integers from 0 to 65535. */
  lemma PortFieldKeepsExactlyU16(db: Json)
    ensures PortField(db) == match Member(db, "port")
                             case Some(Int(i)) => if 0 <= i < U16Limit then Some(NatText(i)) else None
                             case _ => None
  {
    match Member(db, "port")
    case None =>
    case Some(x) =>
      var t := TextForm(x);
      match x
      case Null => ParseU16RejectsForeignChar(t, 0);
      case Bool(b) => ParseU16RejectsForeignChar(t, 0);
      case Int(i) =>
        if i < 0 {
          ParseU16RejectsForeignChar(t, 0);
        } else {
          ParseU16OfNatText(i);
        }
      case Float(f) =>
        var k :| 0 <= k < |f| && (f[k] == '.' || f[k] == 'e');
        ParseU16RejectsForeignChar(t, k);
      case Str(s) => ParseU16RejectsForeignChar(t, 0);
      case Array(items) => ParseU16RejectsForeignChar(t, 0);
      case Object(members) => ParseU16RejectsForeignChar(t, 0);
  }

  /** The descriptor built from a db section whose `user` and `host` have been read. */
  function FromSection(db: Json, user: string, host: string): ConnectionString {
    ConnectionString(
      user := user,
      host := host,
      password := OptionalString(db, "password"),
      dbname := OptionalString(db, "dbname"),
      options := OptionalString(db, "options"),
      application_name := OptionalString(db, "application_name"),
      sslmode := OptionalString(db, "sslmode"),
      port := PortField(db),
      connect_timeout := OptionalString(db, "connect_timeout"),
      keepalives := OptionalString(db, "keepalives"),
      keepalives_idle := OptionalString(db, "keepalives_idle"),
      target_session_attrs := OptionalString(db, "target_session_attrs"),
      channel_binding := OptionalString(db, "channel_binding"))
  }

  /**
   * Every optional field but `port` holds the member of that name when it
   * is a JSON string and nothing otherwise.
   */
  lemma FromSectionStrings(db: Json, user: string, host: string)
    ensures var cs := FromSection(db, user, host);
            forall k :: 0 <= k < |OptionalKeys| && k != PortIndex ==>
              Optionals(cs)[k].1 == OptionalString(db, OptionalKeys[k])
  {
    var cs := FromSection(db, user, host);
    var o := Optionals(cs);
    assert o[0].1 == cs.password && o[1].1 == cs.dbname && o[2].1 == cs.options;
    assert o[3].1 == cs.application_name && o[4].1 == cs.sslmode && o[6].1 == cs.connect_timeout;
    assert o[7].1 == cs.keepalives && o[8].1 == cs.keepalives_idle;
    assert o[9].1 == cs.target_session_attrs && o[10].1 == cs.channel_binding;
  }

  /** `port` holds the text of an integer member from 0 to 65535 and nothing otherwise. */
  lemma FromSectionPort(db: Json, user: string, host: string)
    ensures FromSection(db, user, host).port == match Member(db, "port")
                                               case Some(Int(i)) => if 0 <= i < U16Limit then Some(NatText(i)) else None
                                               case _ => None
  {
    PortFieldKeepsExactlyU16(db);
  }

  /** `Config::db`: `user` is looked for first, then `host`; both are required. */
  function Db(config: Configs.Config): (r: Result<ConnectionString, Errors.Error>)
    requires DbReadable(Configs.Index(config, "db"))
    ensures var db := Configs.Index(config, "db");
            Member(db, "user").None? ==> r == Err(Errors.Configuration(ErrConfigNoUser))
    ensures var db := Configs.Index(config, "db");
            Member(db, "user").Some? && Member(db, "host").None? ==> r == Err(Errors.Configuration(ErrConfigNoHost))
    ensures var db := Configs.Index(config, "db");
            r.Ok? <==> Member(db, "user").Some? && Member(db, "host").Some?
    ensures var db := Configs.Index(config, "db");
            r.Ok? ==> && Member(db, "user") == Some(Str(r.value.user))
                      && Member(db, "host") == Some(Str(r.value.host))
                      && r.value == FromSection(db, r.value.user, r.value.host)
  {
    var json := Configs.Index(config, "db");
    match Member(json, "user")
    case None => Err(Errors.Configuration(ErrConfigNoUser))
    case Some(u) =>
      match Member(json, "host")
      case None => Err(Errors.Configuration(ErrConfigNoHost))
      case Some(h) => Ok(FromSection(json, AsStr(u).value, AsStr(h).value))
  }

  // ---------------------------------------------------------------- rendering

  function Token(key: string, value: string): string {
    key + "=" + value
  }

  /** The tokens that a list of (key, optional value) entries renders to: one per present value. */
  function Emit(entries: seq<(string, Option<string>)>): seq<string> {
    if entries == [] then []
    else
      var last := entries[|entries| - 1];
      Emit(entries[..|entries| - 1]) + (if last.1.Some? then [Token(last.0, last.1.value)] else [])
  }

  /** The positions of the entries that hold a value, in increasing order. */
  function Present(entries: seq<(string, Option<string>)>): seq<nat> {
    if entries == [] then []
    else
      Present(entries[..|entries| - 1]) + (if entries[|entries| - 1].1.Some? then [|entries| - 1] else [])
  }

  /** Every field with its key: `user` and `host` first, then the optional ones. */
  function Entries(cs: ConnectionString): seq<(string, Option<string>)> {
    [("user", Some(cs.user)), ("host", Some(cs.host))] + Optionals(cs)
  }

  function Tokens(cs: ConnectionString): seq<string> {
    Emit(Entries(cs))
  }

  /** `Vec::join(" ")`. */
  function Join(tokens: seq<string>, sep: string): string {
    if tokens == [] then "" else if |tokens| == 1 then tokens[0] else tokens[0] + sep + Join(tokens[1..], sep)
  }

  /** The connection string: the tokens separated by single spaces. */
  function Render(cs: ConnectionString): string {
    Join(Tokens(cs), " ")
  }

  /**
   * The emitted tokens are exactly the present entries, each rendered as
   * `key=value`, in entry order.
   */
  lemma {:induction false} EmitIsPresentInOrder(entries: seq<(string, Option<string>)>)
    ensures |Emit(entries)| == |Present(entries)|
    ensures forall a :: 0 <= a < |Present(entries)| ==>
              Present(entries)[a] < |entries| && entries[Present(entries)[a]].1.Some? &&
              Emit(entries)[a] == Token(entries[Present(entries)[a]].0, entries[Present(entries)[a]].1.value)
    ensures forall a, b :: 0 <= a < b < |Present(entries)| ==> Present(entries)[a] < Present(entries)[b]
    ensures forall i :: 0 <= i < |entries| && entries[i].1.Some? ==> i in Present(entries)
  {
    if entries != [] {
      var init := entries[..|entries| - 1];
      EmitIsPresentInOrder(init);
      assert forall i :: 0 <= i < |init| ==> init[i] == entries[i];
    }
  }

  lemma {:induction false} EmitAppend(a: seq<(string, Option<string>)>, b: seq<(string, Option<string>)>)
    ensures Emit(a + b) == Emit(a) + Emit(b)
    decreases |b|
  {
    if b == [] {
      assert a + b == a;
    } else {
      var b' := b[..|b| - 1];
      assert (a + b)[..|a + b| - 1] == a + b';
      assert (a + b)[|a + b| - 1] == b[|b| - 1];
      EmitAppend(a, b');
    }
  }

  lemma EmitRequired(user: string, host: string)
    ensures Emit([("user", Some(user)), ("host", Some(host))]) == [Token("user", user), Token("host", host)]
  {
    var required := [("user", Some(user)), ("host", Some(host))];
    assert required[..1] == [("user", Some(user))];
    assert required[..1][..0] == [];
    assert Emit(required[..1]) == [Token("user", user)];
  }

  /** `ConnectionString::as_string`. */
  method AsString(cs: ConnectionString) returns (s: string)
    ensures s == Render(cs)
  {
    var strings := [Token("user", cs.user), Token("host", cs.host)];
    var optionals := Optionals(cs);
    for i := 0 to |optionals|
      invariant strings == [Token("user", cs.user), Token("host", cs.host)] + Emit(optionals[..i])
    {
      var (key, value) := optionals[i];
      assert optionals[..i + 1][..i] == optionals[..i];
      if value.Some? {
        strings := strings + [Token(key, value.value)];
      }
    }
    assert optionals[..|optionals|] == optionals;
    EmitRequired(cs.user, cs.host);
    EmitAppend([("user", Some(cs.user)), ("host", Some(cs.host))], optionals);
    s := Join(strings, " ");
  }

  /** `Display::fmt`: writes what `as_string` renders. */
  method Fmt(cs: ConnectionString) returns (s: string)
    ensures s == Render(cs)
  {
    s := AsString(cs);
  }

  /** Number of optional fields holding a value. */
  function PresentCount(cs: ConnectionString): nat {
    |Present(Optionals(cs))|
  }

  /**
   * The rendering starts with `user=<user> host=<host>`; after those come
   * the present optional fields, each once, as `key=value`, in the fixed
   * order of `OptionalKeys`; absent fields emit nothing.
   */
  lemma TokensInFixedOrder(cs: ConnectionString)
    ensures |Tokens(cs)| >= 2
    ensures Tokens(cs)[0] == Token("user", cs.user) && Tokens(cs)[1] == Token("host", cs.host)
    ensures |Tokens(cs)| == 2 + PresentCount(cs)
    ensures forall a :: 2 <= a < |Tokens(cs)| ==>
              var k := Present(Optionals(cs))[a - 2];
              k < |OptionalKeys| && Optionals(cs)[k].1.Some? &&
              Tokens(cs)[a] == Token(OptionalKeys[k], Optionals(cs)[k].1.value)
    ensures forall a, b :: 0 <= a < b < PresentCount(cs) ==> Present(Optionals(cs))[a] < Present(Optionals(cs))[b]
    ensures forall k :: 0 <= k < |OptionalKeys| && Optionals(cs)[k].1.Some? ==> k in Present(Optionals(cs))
  {
    EmitRequired(cs.user, cs.host);
    EmitAppend([("user", Some(cs.user)), ("host", Some(cs.host))], Optionals(cs));
    EmitIsPresentInOrder(Optionals(cs));
  }

  /** The rendered string itself begins with `user=<user> host=<host>`. */
  lemma RenderBegins(cs: ConnectionString)
    ensures Token("user", cs.user) + " " + Token("host", cs.host) <= Render(cs)
  {
    TokensInFixedOrder(cs);
    var t := Tokens(cs);
    if |t| == 2 {
      assert Join(t, " ") == t[0] + " " + t[1];
    } else {
      assert Join(t, " ") == t[0] + " " + (t[1] + " " + Join(t[2..], " "));
    }
  }

  /** `Default`. */
  function Default(): ConnectionString {
    ConnectionString("postgres", "localhost", None, None, None, None, None, None, None, None, None, None, None)
  }

  lemma {:induction false} EmitNothing(entries: seq<(string, Option<string>)>)
    requires forall i :: 0 <= i < |entries| ==> entries[i].1.None?
    ensures Emit(entries) == []
  {
    if entries != [] {
      EmitNothing(entries[..|entries| - 1]);
    }
  }

  /** A descriptor with no optional field renders as `user=<user> host=<host>`. */
  lemma RenderRequiredOnly(cs: ConnectionString)
    requires forall k :: 0 <= k < |Optionals(cs)| ==> Optionals(cs)[k].1.None?
    ensures Render(cs) == Token("user", cs.user) + " " + Token("host", cs.host)
  {
    EmitNothing(Optionals(cs));
    EmitRequired(cs.user, cs.host);
    EmitAppend([("user", Some(cs.user)), ("host", Some(cs.host))], Optionals(cs));
    var t := Tokens(cs);
    assert t == [Token("user", cs.user), Token("host", cs.host)];
    assert Join(t, " ") == t[0] + " " + t[1];
  }

  /** The default descriptor renders as `user=postgres host=localhost`. */
  lemma DefaultRenders()
    ensures Render(Default()) == "user=postgres host=localhost"
  {
    RenderRequiredOnly(Default());
  }
}
