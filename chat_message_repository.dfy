/**
 * The message repository: the catalogue of its three statements, the
 * connection state machine (no client before `connect`, a client and the
 * three registered statements after it), and the three data operations,
 * each specified by the query it sends and by how it maps the reply.
 * The database is an oracle that the caller passes in: what it does with
 * the SQL is not modelled.
 */
module Dal {
  import opened Wrappers
  import opened Decimal
  import opened Postgres
  import Errors
  import Configs
  import opened ChatMessages
  import ConnectionStrings
  import opened RepoStatements

  datatype ChatRepoStatement = Insert | GetByChannel | GetByUser

  /** The statements in the order `prepare_statements` registers them. */
  const AllStatements: seq<ChatRepoStatement> := [Insert, GetByChannel, GetByUser]

  /**
   * A statement text as written in the source: SQL fragments with `$n`
   * placeholders between them, first to last.
   */
  datatype Template =
    | Done
    | Fragment(sql: string, rest: Template)
    | Placeholder(index: nat, rest: Template)

  function Render(t: Template): string {
    match t
    case Done => ""
    case Fragment(f, r) => f + Render(r)
    case Placeholder(n, r) => "$" + NatText(n) + Render(r)
  }

  /** The placeholder numbers of a template, in order. */
  function Params(t: Template): seq<nat> {
    match t
    case Done => []
    case Fragment(_, r) => Params(r)
    case Placeholder(n, r) => [n] + Params(r)
  }

  const InsertHead: string := "INSERT INTO chat_messages (text, channel, " + "username, timestamp) VALUES ("
  const ByChannelHead: string := "SELECT * FROM chat_messages " + "WHERE channel = "
  const ByChannelTail: string := " ORDER BY timestamp DESC LIMIT "
  const ByUserHead: string := "SELECT * FROM chat_messages " + "WHERE username = "

  function StatementTemplate(s: ChatRepoStatement): Template {
    match s
    case Insert =>
      Fragment(InsertHead, Placeholder(1, Fragment(", ", Placeholder(2, Fragment(", ",
        Placeholder(3, Fragment(", ", Placeholder(4, Fragment(") RETURNING *", Done)))))))))
    case GetByChannel => Fragment(ByChannelHead, Placeholder(1, Fragment(ByChannelTail, Placeholder(2, Done))))
    case GetByUser => Fragment(ByUserHead, Placeholder(1, Done))
  }

  /** `ChatRepoStatement::as_string`. */
  function AsString(s: ChatRepoStatement): string {
    Render(StatementTemplate(s))
  }

  /** The texts are the source's query strings, fragment by fragment. */
  lemma InsertText()
    ensures AsString(Insert) == InsertHead + "$1" + ", " + "$2" + ", " + "$3" + ", " + "$4" + ") RETURNING *"
  {
    assert NatText(1) == "1" && NatText(2) == "2" && NatText(3) == "3" && NatText(4) == "4";
  }

  lemma GetByChannelText()
    ensures AsString(GetByChannel) == ByChannelHead + "$1" + ByChannelTail + "$2"
  {
    assert NatText(1) == "1" && NatText(2) == "2";
  }

  lemma GetByUserText()
    ensures AsString(GetByUser) == ByUserHead + "$1"
  {
    assert NatText(1) == "1";
  }

  /** `ChatRepoStatement::get_types`. */
  function GetTypes(s: ChatRepoStatement): seq<SqlType> {
    match s
    case Insert => [TEXT, TEXT, TEXT, TIMESTAMPTZ]
    case GetByChannel => [TEXT]
    case GetByUser => [TEXT]
  }

  /** How many values a query of this statement binds. */
  function ParamCount(s: ChatRepoStatement): nat {
    |Params(StatementTemplate(s))|
  }

  // ---------------------------------------------------------------- placeholders

  function LeadingDigits(s: string): (n: nat)
    ensures n <= |s|
    ensures forall i :: 0 <= i < n ==> IsDigit(s[i])
    ensures n < |s| ==> !IsDigit(s[n])
  {
    if s != [] && IsDigit(s[0]) then 1 + LeadingDigits(s[1..]) else 0
  }

  /**
   * The numbers of the `$n` placeholders of a query text, in order of
   * appearance, the way the server numbers the parameters of a statement.
   */
  function Placeholders(text: string): seq<nat>
    decreases |text|
  {
    if text == [] then []
    else if text[0] == '$' then
      var n := LeadingDigits(text[1..]);
      if n == 0 then Placeholders(text[1..])
      else [DigitsValue(text[1..1 + n])] + Placeholders(text[1 + n..])
    else Placeholders(text[1..])
  }

  predicate Plain(s: string) {
    forall i :: 0 <= i < |s| ==> s[i] != '$'
  }

  /** A template whose fragments hold no `$` and whose placeholders are not followed by a digit. */
  predicate WellFormed(t: Template) {
    match t
    case Done => true
    case Fragment(f, r) => Plain(f) && WellFormed(r)
    case Placeholder(_, r) =>
      && (r.Done? || (r.Fragment? && r.sql != [] && !IsDigit(r.sql[0])))
      && WellFormed(r)
  }

  lemma {:induction false} SkipPlain(a: string, b: string)
    requires Plain(a)
    ensures Placeholders(a + b) == Placeholders(b)
  {
    if a != [] {
      assert (a + b)[0] == a[0];
      assert (a + b)[1..] == a[1..] + b;
      assert Placeholders(a + b) == Placeholders((a + b)[1..]);
      SkipPlain(a[1..], b);
    } else {
      assert a + b == b;
    }
  }

  lemma {:induction false} LeadingDigitsOf(d: string, rest: string)
    requires AllDigits(d)
    requires rest == [] || !IsDigit(rest[0])
    ensures LeadingDigits(d + rest) == |d|
  {
    if d != [] {
      assert (d + rest)[0] == d[0];
      assert (d + rest)[1..] == d[1..] + rest;
      LeadingDigitsOf(d[1..], rest);
    } else {
      assert d + rest == rest;
    }
  }

  lemma AtPlaceholder(text: string)
    requires text != [] && text[0] == '$' && LeadingDigits(text[1..]) > 0
    ensures var k := LeadingDigits(text[1..]);
            Placeholders(text) == [DigitsValue(text[1..1 + k])] + Placeholders(text[1 + k..])
  {
  }

  lemma OneParam(n: nat, rest: string)
    requires rest == [] || !IsDigit(rest[0])
    ensures Placeholders("$" + NatText(n) + rest) == [n] + Placeholders(rest)
  {
    var d := NatText(n);
    var t := "$" + d + rest;
    assert t[1..] == d + rest;
    LeadingDigitsOf(d, rest);
    AtPlaceholder(t);
    assert t[1..1 + |d|] == d;
    assert t[1 + |d|..] == rest;
    DigitsValueOfNatText(n);
  }

  /** The placeholders of a rendered well-formed template are its parameters. */
  lemma {:induction false} PlaceholdersOfRender(t: Template)
    requires WellFormed(t)
    ensures Placeholders(Render(t)) == Params(t)
  {
    match t
    case Done =>
    case Fragment(f, r) =>
      PlaceholdersOfRender(r);
      SkipPlain(f, Render(r));
    case Placeholder(n, r) =>
      PlaceholdersOfRender(r);
      assert Render(r) == [] || !IsDigit(Render(r)[0]) by {
        if r.Fragment? {
          assert Render(r) == r.sql + Render(r.rest);
        }
      }
      OneParam(n, Render(r));
  }

  lemma {:induction false} PlainAppend(a: string, b: string)
    requires Plain(a) && Plain(b)
    ensures Plain(a + b)
  {
    forall i | 0 <= i < |a + b| ensures (a + b)[i] != '$' {
      if i >= |a| {
        assert (a + b)[i] == b[i - |a|];
      }
    }
  }

  lemma InsertWellFormed()
    ensures WellFormed(StatementTemplate(Insert))
  {
    PlainAppend("INSERT INTO chat_messages (text, channel, ", "username, timestamp) VALUES (");
    assert Plain(", ") && Plain(") RETURNING *");
  }

  lemma GetByChannelWellFormed()
    ensures WellFormed(StatementTemplate(GetByChannel))
  {
    PlainAppend("SELECT * FROM chat_messages ", "WHERE channel = ");
    assert Plain(ByChannelTail);
  }

  lemma GetByUserWellFormed()
    ensures WellFormed(StatementTemplate(GetByUser))
  {
    PlainAppend("SELECT * FROM chat_messages ", "WHERE username = ");
  }

  lemma TemplatesWellFormed(s: ChatRepoStatement)
    ensures WellFormed(StatementTemplate(s))
  {
    match s
    case Insert => InsertWellFormed();
    case GetByChannel => GetByChannelWellFormed();
    case GetByUser => GetByUserWellFormed();
  }

  /** The placeholders the server finds in a statement's text are the parameters of its template. */
  lemma PlaceholdersOfStatement(s: ChatRepoStatement)
    ensures Placeholders(AsString(s)) == Params(StatementTemplate(s))
  {
    TemplatesWellFormed(s);
    PlaceholdersOfRender(StatementTemplate(s));
  }

  lemma TemplateParams(s: ChatRepoStatement)
    ensures var ps := Params(StatementTemplate(s));
            forall k :: 0 <= k < |ps| ==> ps[k] == k + 1
    ensures |GetTypes(s)| <= ParamCount(s)
    ensures s != GetByChannel ==> |GetTypes(s)| == ParamCount(s)
    ensures s == GetByChannel ==> |GetTypes(s)| == 1 && ParamCount(s) == 2
  {
    match s
    case Insert => assert Params(StatementTemplate(Insert)) == [1, 2, 3, 4];
    case GetByChannel => assert Params(StatementTemplate(GetByChannel)) == [1, 2];
    case GetByUser => assert Params(StatementTemplate(GetByUser)) == [1];
  }

  /**
   * The placeholders of every statement are `$1` to `$n` in order, and a
   * query binds one value per placeholder. Insert and GetByUser declare a
   * type for each; GetByChannel declares one type for its two
   * placeholders, leaving the type of `$2` to the server.
   */
  lemma PlaceholdersAndTypes(s: ChatRepoStatement)
    ensures var ps := Placeholders(AsString(s));
            && |ps| == ParamCount(s)
            && (forall k :: 0 <= k < |ps| ==> ps[k] == k + 1)
    ensures |GetTypes(s)| <= ParamCount(s)
    ensures s != GetByChannel ==> |GetTypes(s)| == ParamCount(s)
    ensures s == GetByChannel ==> |GetTypes(s)| == 1 && ParamCount(s) == 2
  {
    PlaceholdersOfStatement(s);
    TemplateParams(s);
  }

  /** The values bound to a query agree, position for position, with the types its statement declares. */
  predicate BindsDeclaredTypes(q: Query, s: ChatRepoStatement) {
    && q.text == AsString(s)
    && |q.params| == ParamCount(s)
    && forall k :: 0 <= k < |GetTypes(s)| ==> k < |q.params| && TypeOf(q.params[k]) == GetTypes(s)[k]
  }

  // ---------------------------------------------------------------- rows

  /** `from_rows`: one message per row, in row order. */
  method FromRows(rows: seq<Row>) returns (messages: seq<ChatMessage>)
    requires forall i :: 0 <= i < |rows| ==> RowReadable(rows[i])
    ensures |messages| == |rows|
    ensures forall i :: 0 <= i < |rows| ==> messages[i] == FromRow(rows[i])
  {
    messages := [];
    for i := 0 to |rows|
      invariant |messages| == i
      invariant forall k :: 0 <= k < i ==> messages[k] == FromRow(rows[k])
    {
      messages := messages + [FromRow(rows[i])];
    }
  }

  /** Every row of a reply can be read as a message (a row that cannot panics). */
  predicate ReplyReadable(reply: Reply) {
    reply.Rows? ==> forall i :: 0 <= i < |reply.rows| ==> RowReadable(reply.rows[i])
  }

  // ---------------------------------------------------------------- statements of a repository

  /** `RepoStatement::for_chat_repo`. */
  method ForChatRepo(s: ChatRepoStatement) returns (r: RepoStatement)
    ensures fresh(r)
    ensures r.statement == AsString(s) && r.types == GetTypes(s) && r.prepared == None
    ensures r.ToStatement() == RawText(AsString(s))
  {
    r := new RepoStatement(AsString(s), GetTypes(s));
  }

  /** The registry as `prepare_statements` leaves it: the three statements, in order, none prepared. */
  ghost predicate Registered(statements: seq<RepoStatement>)
    reads set k | 0 <= k < |statements| :: statements[k]
  {
    && |statements| == |AllStatements|
    && forall k :: 0 <= k < |statements| ==>
         && statements[k].statement == AsString(AllStatements[k])
         && statements[k].types == GetTypes(AllStatements[k])
         && statements[k].prepared == None
  }

  lemma RegisterThree(insert: RepoStatement, byChannel: RepoStatement, byUser: RepoStatement)
    requires insert.statement == AsString(Insert) && insert.types == GetTypes(Insert) && insert.prepared == None
    requires byChannel.statement == AsString(GetByChannel) && byChannel.types == GetTypes(GetByChannel)
    requires byChannel.prepared == None
    requires byUser.statement == AsString(GetByUser) && byUser.types == GetTypes(GetByUser) && byUser.prepared == None
    ensures Registered([insert, byChannel, byUser])
  {
    var t := [insert, byChannel, byUser];
    forall k | 0 <= k < |t|
      ensures t[k].statement == AsString(AllStatements[k]) && t[k].types == GetTypes(AllStatements[k])
      ensures t[k].prepared == None
    {
      if k == 0 { assert t[k] == insert && AllStatements[k] == Insert; }
      else if k == 1 { assert t[k] == byChannel && AllStatements[k] == GetByChannel; }
      else { assert t[k] == byUser && AllStatements[k] == GetByUser; }
    }
  }

  class ChatMessageRepository {
    const connectionString: ConnectionStrings.ConnectionString
    var client: Option<Client>
    var statements: seq<RepoStatement>

    constructor FromConnectionString(cs: ConnectionStrings.ConnectionString)
      ensures connectionString == cs && client == None && statements == []
    {
      connectionString := cs;
      client := None;
      statements := [];
    }

    /** `ChatMessageRepository::new`: fails only where reading the db section fails; no connection yet. */
    static method New(config: Configs.Config) returns (r: Result<ChatMessageRepository, Errors.Error>)
      requires ConnectionStrings.DbReadable(Configs.Index(config, "db"))
      ensures r.Err? <==> ConnectionStrings.Db(config).Err?
      ensures r.Err? ==> r.error == ConnectionStrings.Db(config).error
      ensures r.Ok? ==> && fresh(r.value)
                        && r.value.connectionString == ConnectionStrings.Db(config).value
                        && r.value.client == None && r.value.statements == []
    {
      var cs := ConnectionStrings.Db(config);
      if cs.Err? {
        return Err(cs.error);
      }
      var repo := new ChatMessageRepository.FromConnectionString(cs.value);
      r := Ok(repo);
    }

    /**
     * `connect`: opens a connection with the rendered connection string
     * (`open` is the driver's `connect`), stores the client and registers
     * the statements. A driver failure becomes `Db` and changes nothing.
     */
    method Connect(open: string -> Result<Client, string>) returns (r: Result<(), Errors.Error>)
      modifies this
      ensures var outcome := open(ConnectionStrings.Render(connectionString));
              && (outcome.Err? ==> && r == Err(Errors.FromDriver(outcome.error))
                                   && client == old(client) && statements == old(statements))
              && (outcome.Ok? ==> && r == Ok(())
                                  && client == Some(outcome.value)
                                  && Registered(statements)
                                  && forall k :: 0 <= k < |statements| ==> fresh(statements[k]))
    {
      var dsn := ConnectionStrings.AsString(connectionString);
      var outcome := open(dsn);
      if outcome.Err? {
        return Err(Errors.FromDriver(outcome.error));
      }
      client := Some(outcome.value);
      r := PrepareStatements();
    }

    /**
     * `prepare_statements`: registers the three statements in order. The
     * loop that would prepare each on the server is disabled in the source,
     * so none is prepared.
     */
    method PrepareStatements() returns (r: Result<(), Errors.Error>)
      requires client.Some?
      modifies this`statements
      ensures r == Ok(())
      ensures Registered(statements)
      ensures forall k :: 0 <= k < |statements| ==> fresh(statements[k])
    {
      var insert := ForChatRepo(Insert);
      var byChannel := ForChatRepo(GetByChannel);
      var byUser := ForChatRepo(GetByUser);
      RegisterThree(insert, byChannel, byUser);
      statements := [insert, byChannel, byUser];
      r := Ok(());
    }

    /**
     * `get_messages_from_channel`: sends the GetByChannel text with
     * `(channel, num_to_get)`; the registry is not consulted. A driver
     * failure is returned as the driver's own error.
     */
    method GetMessagesFromChannel(channel: string, numToGet: Int64, db: (Client, Query) -> Reply)
      returns (sent: Query, r: Result<seq<ChatMessage>, string>)
      requires client.Some?
      requires ReplyReadable(db(client.value, Query(AsString(GetByChannel), [Text(channel), Int8(numToGet)])))
      ensures sent == Query(AsString(GetByChannel), [Text(channel), Int8(numToGet)])
      ensures BindsDeclaredTypes(sent, GetByChannel)
      ensures db(client.value, sent).Failure? ==> r == Err(db(client.value, sent).message)
      ensures db(client.value, sent).Rows? ==>
                && r.Ok? && |r.value| == |db(client.value, sent).rows|
                && forall i :: 0 <= i < |r.value| ==> r.value[i] == FromRow(db(client.value, sent).rows[i])
    {
      sent := Query(AsString(GetByChannel), [Text(channel), Int8(numToGet)]);
      assert GetTypes(GetByChannel) == [TEXT] && TypeOf(sent.params[0]) == TEXT;
      var reply := db(client.value, sent);
      if reply.Failure? {
        return sent, Err(reply.message);
      }
      var messages := FromRows(reply.rows);
      r := Ok(messages);
    }

    /**
     * `add_message`: sends the Insert text with `(text, channel, username,
     * timestamp)`; the returned row is discarded.
     */
    method AddMessage(message: ChatMessage, db: (Client, Query) -> Reply)
      returns (sent: Query, r: Result<(), Errors.Error>)
      requires client.Some?
      ensures sent == Query(AsString(Insert),
                            [Text(message.text), Text(message.channel), Text(message.username), TimestampTz(message.timestamp)])
      ensures BindsDeclaredTypes(sent, Insert)
      ensures db(client.value, sent).Failure? ==> r == Err(Errors.FromDriver(db(client.value, sent).message))
      ensures db(client.value, sent).Rows? ==> r == Ok(())
    {
      sent := Query(AsString(Insert),
                    [Text(message.text), Text(message.channel), Text(message.username), TimestampTz(message.timestamp)]);
      assert GetTypes(Insert) == [TEXT, TEXT, TEXT, TIMESTAMPTZ];
      assert TypeOf(sent.params[0]) == TEXT && TypeOf(sent.params[1]) == TEXT && TypeOf(sent.params[2]) == TEXT;
      assert TypeOf(sent.params[3]) == TIMESTAMPTZ;
      var reply := db(client.value, sent);
      if reply.Failure? {
        return sent, Err(Errors.FromDriver(reply.message));
      }
      r := Ok(());
    }

    /** `get_messages_by_user`: sends the GetByUser text with `(username)`. */
    method GetMessagesByUser(username: string, db: (Client, Query) -> Reply)
      returns (sent: Query, r: Result<seq<ChatMessage>, Errors.Error>)
      requires client.Some?
      requires ReplyReadable(db(client.value, Query(AsString(GetByUser), [Text(username)])))
      ensures sent == Query(AsString(GetByUser), [Text(username)])
      ensures BindsDeclaredTypes(sent, GetByUser)
      ensures db(client.value, sent).Failure? ==> r == Err(Errors.FromDriver(db(client.value, sent).message))
      ensures db(client.value, sent).Rows? ==>
                && r.Ok? && |r.value| == |db(client.value, sent).rows|
                && forall i :: 0 <= i < |r.value| ==> r.value[i] == FromRow(db(client.value, sent).rows[i])
    {
      sent := Query(AsString(GetByUser), [Text(username)]);
      assert GetTypes(GetByUser) == [TEXT] && TypeOf(sent.params[0]) == TEXT;
      var reply := db(client.value, sent);
      if reply.Failure? {
        return sent, Err(Errors.FromDriver(reply.message));
      }
      var messages := FromRows(reply.rows);
      r := Ok(messages);
    }
  }

  /** After a successful `connect`, every registered statement is executed from its raw text. */
  lemma RegisteredStatementsAreRaw(statements: seq<RepoStatement>)
    requires Registered(statements)
    ensures forall k :: 0 <= k < |statements| ==> statements[k].ToStatement() == RawText(AsString(AllStatements[k]))
  {
  }
}
