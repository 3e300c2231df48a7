# chatserver core in Dafny

This is a model of the sequential core of a small Rust chat server. It covers:

- its configuration sections (`db`, `logger`, `api`) read from a JSON document;
- the PostgreSQL connection descriptor and its `key=value` rendering;
- the statement catalogue of the message repository, and the repository's before/after-`connect` state;
- the message entity, with its millisecond equality and its whole-second JSON form;
- the chat stream wrapper;
- the crate's error type, its display text and its conversions.

The model has one module per source file. Four helper modules stand in for foreign types:

- `Wrappers`: `Option`, `Result`.
- `Decimal`: decimal text, and Rust's `u16` parse.
- `JsonValues`: serde_json's `Value`. An object is the ordered list of its members, and lookup takes the first match.
- `Postgres`: the driver's values, rows, handles and queries.

The database is an oracle passed in as an argument:
- `db: (Client, Query) -> Reply` answers a query;
- `open` is the driver's connect;
- `prepareTyped` is `prepare_typed` raced against the timer.

Each data operation is specified by the query text and the parameter tuple it sends, and by how it maps the reply.

Time is an `int` count of nanoseconds since the Unix epoch:
- milliseconds are `t / 10^6`;
- seconds are `t / 10^9`.

Dafny's division rounds toward minus infinity for a positive divisor, as chrono's `timestamp_millis` and `timestamp` do. `Utc::now()` becomes explicit clock arguments. Whether the source of a stream has its next item ready is an explicit argument of `PollNext`.

Variant names that the source spells inconsistently are modelled by what `src/error.rs` defines:
- `Error::DbError` (`src/dal/chat_message_repository.rs:36`) is `Db`;
- `ConfigError` (`src/utils/connection_string.rs:5`, `src/api/mod.rs:5`) is `Configuration`.

A present `user`, `host` or `address` that is not a JSON string makes `as_str().unwrap()` panic. So does a row whose columns cannot be read, and so does a data operation called before `connect`. Each of these is a precondition.

The statement texts are built from templates of SQL fragments and `$n` placeholders. `Dal.AsString` renders the template, and the `...Text` lemmas show each text fragment by fragment. The fragments are those of the source's string literals. `Dal.Placeholders` is an independent reading of a text: it finds the `$n` numbers the way the server does. `Dal.PlaceholdersOfRender` proves that this reading gives back the template's parameters.

## Model

| member | source | states |
|---|---|---|
| ConnectionStrings.FromSection | src/utils/connection_string.rs:24-70 | the `ConnectionString` built from the two required strings and the section's members; what each field holds is stated by `FromSectionStrings` and `FromSectionPort` |
| ConnectionStrings.OptionalString | src/utils/connection_string.rs:27-30 | an optional field is kept exactly when the member is present and a JSON string, and then holds that string |
| ConnectionStrings.PortField | src/utils/connection_string.rs:47-49 | `port`: the member's serde_json text parsed as a `u16` and rendered back; its closed form is `PortFieldKeepsExactlyU16` |
| ConnectionStrings.PortFieldKeepsExactlyU16 | src/utils/connection_string.rs:47-49 | `port` survives the `to_string().parse::<u16>()` filter exactly when it is a JSON integer from 0 to 65535; a quoted number, float, negative or larger value becomes `None` |
| Decimal.ParseU16OfNatText | src/utils/connection_string.rs:49 | parsing the decimal text of a number gives the number back exactly when it is below 65536 |
| Decimal.ParseU16RejectsForeignChar | src/utils/connection_string.rs:49 | a text holding a character other than a digit or `+` never parses as `u16` |
| ConnectionStrings.FromSectionStrings | src/utils/connection_string.rs:27-69 | each of the ten optional string fields holds the member of its key when it is a string and `None` otherwise |
| ConnectionStrings.FromSectionPort | src/utils/connection_string.rs:47-49 | `port` holds the text of an in-range integer and `None` otherwise |
| ConnectionStrings.Db | src/utils/connection_string.rs:11-71 | a missing `user` gives Configuration("No user specified in db config") even if `host` is missing too; `user` present and `host` missing gives the host error; success exactly when both are present, with those exact strings and the optional fields read from the same section |
| ConnectionStrings.Render | src/utils/connection_string.rs:92-119 | the reference rendering of `as_string`: the `key=value` tokens of `user`, `host` and the present optionals, joined by one space; `TokensInFixedOrder`, `RenderBegins` and `RenderRequiredOnly` state its content, and `AsString` is proved equal to it |
| ConnectionStrings.AsString | src/utils/connection_string.rs:92-119 | the loop that pushes `key=value` for each present optional builds exactly `Render(cs)`, the space-joined tokens |
| ConnectionStrings.EmitIsPresentInOrder | src/utils/connection_string.rs:112-116 | one token per present entry, each `key=value`, in entry order; every present entry is emitted |
| ConnectionStrings.TokensInFixedOrder | src/utils/connection_string.rs:95-116 | the tokens are `user=..`, `host=..`, then exactly the present optionals in the fixed order password .. channel_binding; absent fields emit nothing |
| ConnectionStrings.RenderBegins | src/utils/connection_string.rs:92-119 | the rendered string begins with `user=<user> host=<host>` |
| ConnectionStrings.Default | src/utils/connection_string.rs:122-140 | `Default`: user `postgres`, host `localhost`, every optional `None`; `DefaultRenders` gives its rendering |
| ConnectionStrings.RenderRequiredOnly | src/utils/connection_string.rs:122-140 | a connection string with no optional field renders as the `user` and `host` tokens alone, separated by one space |
| ConnectionStrings.DefaultRenders | src/utils/connection_string.rs:122-140 | `Default` renders exactly `user=postgres host=localhost` |
| ConnectionStrings.Fmt | src/utils/connection_string.rs:142-146 | `Display` writes what `as_string` renders |
| Dal.AsString | src/dal/chat_message_repository.rs:66-72 | `as_string`: the rendered template of the statement; `InsertText`, `GetByChannelText` and `GetByUserText` give the texts, and `PlaceholdersOfStatement` reads its placeholders back |
| Dal.GetTypes | src/dal/chat_message_repository.rs:74-82 | `get_types`: `[TEXT, TEXT, TEXT, TIMESTAMPTZ]` for Insert and `[TEXT]` for the two queries; `TemplateParams` relates them to the placeholders |
| Dal.InsertText | src/dal/chat_message_repository.rs:68 | the Insert text is `INSERT INTO chat_messages (text, channel, username, timestamp) VALUES ($1, $2, $3, $4) RETURNING *` |
| Dal.GetByChannelText | src/dal/chat_message_repository.rs:69 | the GetByChannel text is `SELECT * FROM chat_messages WHERE channel = $1 ORDER BY timestamp DESC LIMIT $2` |
| Dal.GetByUserText | src/dal/chat_message_repository.rs:70 | the GetByUser text is `SELECT * FROM chat_messages WHERE username = $1` |
| Dal.PlaceholdersOfRender | src/dal/chat_message_repository.rs:66-72 | the placeholders found in a rendered template whose fragments hold no `$`, and whose placeholders are not followed by a digit, are the template's parameters in order |
| Dal.PlaceholdersOfStatement | src/dal/chat_message_repository.rs:66-72 | the placeholders found in each statement's text are those of its template |
| Dal.TemplateParams | src/dal/chat_message_repository.rs:66-82 | each template numbers its placeholders 1..n; Insert declares 4 types for 4 placeholders, GetByUser 1 for 1, GetByChannel 1 for 2 |
| Dal.PlaceholdersAndTypes | src/dal/chat_message_repository.rs:66-82 | in the texts themselves the placeholders are `$1`..`$n` in order; the declared type list never exceeds them, matches them for Insert and GetByUser, and is one short for GetByChannel |
| Dal.FromRows | src/dal/chat_message_repository.rs:195-203 | one message per row, same length and order, the i-th being `ChatMessage::from(rows[i])` |
| Dal.ForChatRepo | src/dal/chat_message_repository.rs:51-55 | a fresh statement holding the variant's text and types, unprepared, so it is executed from its raw text |
| Dal.RegisteredStatementsAreRaw | src/dal/chat_message_repository.rs:132-140 | every registered statement is executed from its raw text, because none has been prepared |
| Dal.ChatMessageRepository.FromConnectionString | src/dal/chat_message_repository.rs:95-99 | holds the descriptor, no client, no statements |
| Dal.ChatMessageRepository.New | src/dal/chat_message_repository.rs:92-100 | fails exactly when `Config::db` does, with its error; otherwise a fresh repository with that descriptor, `client = None` and no statements |
| Dal.ChatMessageRepository.Connect | src/dal/chat_message_repository.rs:102-116 | calls the driver with the rendered connection string; a driver failure is `Db` of its text and changes nothing; success stores the client and leaves the three statements registered |
| Dal.ChatMessageRepository.PrepareStatements | src/dal/chat_message_repository.rs:120-143 | always `Ok`; `statements` becomes three fresh entries Insert, GetByChannel, GetByUser with their texts and types, none prepared |
| Dal.ChatMessageRepository.GetMessagesFromChannel | src/dal/chat_message_repository.rs:145-162 | sends the GetByChannel text with `(channel, num_to_get)` as the raw text, unprepared; each value for which `get_types` declares a type has that type; there is no declared type for `$2`; a driver failure is returned as the driver's own error; rows map one-to-one to messages |
| Dal.ChatMessageRepository.AddMessage | src/dal/chat_message_repository.rs:164-180 | sends the Insert text with `(text, channel, username, timestamp)` in that order, as the raw text, unprepared; the values agree with the declared types; failure is `Db` of the driver text, success is `Ok(())` |
| Dal.ChatMessageRepository.GetMessagesByUser | src/dal/chat_message_repository.rs:182-192 | sends the GetByUser text with `(username)` as the raw text, unprepared, the value agreeing with the declared type; failure is `Db` of the driver text; rows map one-to-one to messages |
| RepoStatements.RepoStatement.constructor | src/utils/repo_statement.rs:40-46 | keeps text and types unchanged, unprepared |
| RepoStatements.RepoStatement.Prepare | src/utils/repo_statement.rs:48-64 | in time: `prepared` becomes the handle and the result is `Ok`; on a timeout: `Db("Failed to prepare statement <text>, error: deadline has elapsed")` and `prepared` unchanged; a driver error inside the time limit panics, so it is excluded |
| RepoStatements.RepoStatement.ToStatement | src/utils/repo_statement.rs:66-72 | the prepared handle exactly when there is one, the raw text otherwise |
| RepoStatements.RepoStatement.Debug | src/utils/repo_statement.rs:29-37 | shows the text, the types and only whether a handle is present |
| RepoStatements.DebugHidesHandle | src/utils/repo_statement.rs:29-37 | two prepared statements with the same text and types debug alike whatever their handles |
| RepoStatements.TimeoutErrorNamesStatement | src/utils/repo_statement.rs:59-62 | the timeout error's message contains the statement text |
| ChatMessages.New | src/models/chat_message.rs:20-27 | stores the four fields unchanged |
| ChatMessages.TimestampMillis | src/models/chat_message.rs:48 | the millisecond the instant falls in |
| ChatMessages.TimestampSeconds | src/models/chat_message.rs:14-15 | the second the instant falls in, as the JSON form carries it |
| ChatMessages.Eq | src/models/chat_message.rs:43-50 | `PartialEq::eq`: the three strings are equal and the timestamps fall in the same millisecond; `EqIsKeyEquality` and `EqIsEquivalence` state what it means |
| ChatMessages.EqIsKeyEquality | src/models/chat_message.rs:43-50 | `eq` holds exactly when text, username, channel and `timestamp_millis` agree |
| ChatMessages.EqIsEquivalence | src/models/chat_message.rs:43-50 | `eq` is reflexive, symmetric and transitive |
| ChatMessages.SameMillisecondEqual | src/models/chat_message.rs:43-50 | messages agreeing on their strings whose timestamps fall in the same millisecond are equal |
| ChatMessages.BoundaryUnequal | src/models/chat_message.rs:43-50 | timestamps 1 ns apart across a millisecond boundary are unequal |
| ChatMessages.FromRow | src/models/chat_message.rs:30-39 | each field comes from the column of the same name |
| ChatMessages.ToJson | src/models/chat_message.rs:9-17 | `Serialize`: an object with `text`, `username`, `channel` and `timestamp` in declaration order, the timestamp as whole Unix seconds (`ts_seconds`); `JsonRoundTrip` is its partner |
| ChatMessages.FromJson | src/models/chat_message.rs:9-17 | `Deserialize`: from an object with the four fields, or from a four-element array in declaration order, the timestamp an integer number of seconds; anything else fails; `JsonRoundTrip` is its partner |
| ChatMessages.JsonRoundTrip | src/models/chat_message.rs:9-17 | serialising then deserialising keeps the three strings and truncates the timestamp to its second |
| ChatMessages.JsonRoundTripStable | src/models/chat_message.rs:9-17 | a round-tripped message serialises to the same JSON |
| ChatMessages.JsonRoundTripEqIff | src/models/chat_message.rs:14-50 | the round-tripped message is `eq` to the original exactly when the original's millisecond is a whole second |
| ChatStreams.Output | src/models/chat_stream.rs:30-41 | the adapted stream yields `adapter(x)` for each source item, once each, in source order |
| ChatStreams.OutputWithoutAdapter | src/models/chat_stream.rs:18-28 | a stream built with `new` yields its source unchanged |
| ChatStreams.ChatStream.New | src/models/chat_stream.rs:18-28 | no adapter, nothing yielded yet, `created_at` and `updated_at` from two successive clock reads |
| ChatStreams.ChatStream.WithAdapter | src/models/chat_stream.rs:30-41 | as `new`, with the adapter installed |
| ChatStreams.ChatStream.Start | src/models/chat_stream.rs:43-45 | changes no state |
| ChatStreams.ChatStream.Stop | src/models/chat_stream.rs:47-49 | changes no state |
| ChatStreams.ChatStream.Advance | src/models/chat_stream.rs:51-60 | the next adapted source item, or `None` at the end; keeps the invariant that what was yielded is a prefix of the output |
| ChatStreams.ChatStream.AwaitNext | src/models/chat_stream.rs:51-53 | advances the inner stream; `updated_at` and `created_at` are left alone |
| ChatStreams.ChatStream.PollNext | src/models/chat_stream.rs:59-63 | polls the inner stream and sets `updated_at` to the clock on every poll, whether it gives an item, the end or pending; `created_at` is untouched |
| ChatStreams.Drain | src/models/chat_stream.rs:59-63 | polling a fresh stream to its end sees exactly the adapted source in order; `created_at` never moves and `updated_at` is the last clock reading |
| Configs.New | src/config.rs:16-18 | holds the given JSON |
| Configs.Index | src/config.rs:38-44 | `config[key]` is the value of the first member with the key when the JSON is an object holding it; any non-`Null` result is a member with that key; and it is `Null` for a non-object or a missing key |
| Configs.FromKey | src/config.rs:20-23 | never fails, and holds `json[key]` |
| Configs.Get | src/config.rs:25-27 | never fails, and holds what indexing the configuration gives |
| Configs.GetPathIsLookup | src/config.rs:20-43 | chained `get` calls always succeed and equal the nested lookup |
| Configs.NullStaysNull | src/config.rs:41-43 | once a lookup yields `Null`, every further lookup yields `Null` |
| JsonValues.FindSpec | src/utils/connection_string.rs:14 | the lookup of a key in an object's members is `None` exactly when no member has the key, and otherwise the value of the first member that has it |
| JsonValues.Member | src/utils/connection_string.rs:14 | `Value::get`: the first member with the key, `None` for a missing key or a non-object |
| JsonValues.At | src/config.rs:42 | `Value` indexing: the member, or `Null` for a missing key or a non-object |
| JsonValues.AsStr | src/utils/connection_string.rs:29 | `as_str` is `Some` exactly for a JSON string, with its contents |
| Logger.ParseLevelExact | src/logger.rs:31-38 | a string selects a level exactly when it is that level's lower-case name |
| Logger.GetLevel | src/logger.rs:26-42 | a missing or non-string `level` gives Configuration("No log level"); each of the six names gives its level; any other string gives Configuration("Invalid log level") |
| Logger.Logger | src/logger.rs:17-24 | never `Err` (a bad level panics); wraps the level that the section names |
| Logger.GetLevelExamples | src/logger.rs:60-96 | the passing cases of the unit test: each of the six names gives its level |
| Logger.GetLevelErrorExamples | src/logger.rs:98-106 | the failing cases of the unit test: `"invalid"` gives the invalid-level error and `{}` the missing-level error |
| Api.Api | src/api/mod.rs:17-28 | a missing `address` gives Configuration("No address specified in api config"); a string `address` gives exactly that string; it fails only when `address` is missing |
| Api.ApiReadsOnlyItsSection | src/api/mod.rs:18 | configurations with the same `api` section give the same result |
| Errors.Display | src/error.rs:14-23 | the variant's prefix followed by the payload |
| Errors.PrefixesExclusive | src/error.rs:17-21 | the five prefixes are pairwise distinct and none is a prefix of another |
| Errors.ParseDisplay | src/error.rs:14-23 | the displayed text reads back as the same error |
| Errors.DisplayInjective | src/error.rs:14-23 | the displayed text determines the variant and the payload |
| Errors.FromStr | src/error.rs:26-30 | `Unspecified` carrying the same text |
| Errors.FromIo | src/error.rs:32-36 | `Io` carrying the io error |
| Errors.FromJson | src/error.rs:38-42 | `Configuration` carrying the JSON error's text |
| Errors.FromDriver | src/error.rs:44-48 | `Db` carrying the driver error's text |
| Errors.FromActix | src/error.rs:50-54 | `Server` carrying the actix error's text |
| Errors.ToActix | src/error.rs:56-60 | an internal server error, status 500, whose body is the display text, from which the error reads back |

## Left out

- The SQL itself: filtering, ordering, `LIMIT` and `RETURNING` are done by PostgreSQL. The database is an oracle, and only the text and the parameters sent are modelled.
- The tokio runtime: `tokio::spawn` of the connection task, `tokio::time::timeout` and async suspension. A prepare outcome (in time, timed out, or driver error) is an input.
- The commented-out loop in `prepare_statements` that would prepare each statement. It does not run, so no registered statement is ever prepared.
- `Utc::now()`: the clock is an argument.
- `Config::load` (file I/O and JSON parsing), `setup_logger` (installs a global logger), and `main.rs`.
- The HTTP and WebSocket handlers and servers: `index` and `start` in `src/api/mod.rs`, and `src/server`. These are transport. The integration tests need a live database or HTTP service.
- Derive machinery, which is foreign library code: `Dummy`, `FromSql`/`ToSql`, and serde beyond the layout of the fields and the whole-second timestamp.
- The text of foreign errors (io, serde_json, tokio_postgres, actix): it is a string parameter of each conversion.
- The parse of `err.parse().unwrap()` in `From<&str>` cannot fail for a `String`, so it is the identity.
- `ChatMessages.FromJson`: integer timestamps outside chrono's date range, which chrono rejects, are accepted. Fractional or quoted timestamps are rejected. JSON integers are unbounded, where serde_json limits them to `i64`/`u64`.
- `ChatStreams.ChatStream.WithAdapter`: the adapter is a pure function. A stateful `FnMut` adapter is not modelled.
- `ChatStreams.ChatStream.PollNext`: readiness of the inner stream is an argument. The waker and `Context` are not modelled.
- `RepoStatements.RepoStatement.Debug`: returns the fields that `Debug` shows, not its formatted text.
- The repository file has its own `RepoStatement` (`src/dal/chat_message_repository.rs:10-56`), and it differs from `src/utils/repo_statement.rs`. It has `for_chat_repo` (lines 51-55), modelled by `Dal.ForChatRepo`. It has no `Debug` impl and no `#[derive(Clone)]` (`src/utils/repo_statement.rs:22,29-37`). Its timeout error is built with `Error::DbError`, which is `Db` here. Its fields, `new`, `prepare` and `to_statement` are those of `RepoStatements.RepoStatement`, which stands for both. `RepoStatements.RepoStatement.Debug` belongs to the `src/utils` one only. Cloning is not modelled.
- `From<&dyn ToRepoStatement>` (`src/utils/repo_statement.rs:14-20`): no type implements `ToRepoStatement`, and nothing calls this conversion. `ChatRepoStatement` has only the inherent `as_string` and `get_types`. `Dal.ForChatRepo` models `for_chat_repo`. It resembles the `From` impl, which has the same shape, but it does not model it.
- The `i64` range of `num_to_get` is the type `Postgres.Int64`. The driver's conversion of `DateTime<Utc>` to its wire format is not modelled.
