/**
 * A chat message. Its timestamp is an integer count of nanoseconds since
 * the Unix epoch; equality looks at the timestamp only to the millisecond,
 * and the JSON form carries it as whole seconds.
 */
module ChatMessages {
  import opened Wrappers
  import opened JsonValues
  import opened Postgres

  const NanosPerMilli: int := 1_000_000
  const NanosPerSecond: int := 1_000_000_000
  const MillisPerSecond: int := 1_000

  datatype ChatMessage = ChatMessage(text: string, username: string, channel: string, timestamp: int)

  /** `ChatMessage::new`. */
  function New(text: string, username: string, channel: string, timestamp: int): (m: ChatMessage)
    ensures m.text == text && m.username == username && m.channel == channel && m.timestamp == timestamp
  {
    ChatMessage(text, username, channel, timestamp)
  }

  /** `DateTime::timestamp_millis`: the millisecond the instant falls in (rounding towards minus infinity). */
  function TimestampMillis(t: int): (ms: int)
    ensures ms * NanosPerMilli <= t < (ms + 1) * NanosPerMilli
  {
    t / NanosPerMilli
  }

  /** `DateTime::timestamp`: the second the instant falls in (rounding towards minus infinity). */
  function TimestampSeconds(t: int): (s: int)
    ensures s * NanosPerSecond <= t < (s + 1) * NanosPerSecond
  {
    t / NanosPerSecond
  }

  /** `PartialEq::eq`. */
  predicate Eq(a: ChatMessage, b: ChatMessage) {
    && a.text == b.text
    && a.username == b.username
    && a.channel == b.channel
    && TimestampMillis(a.timestamp) == TimestampMillis(b.timestamp)
  }

  /** What `eq` compares. */
  function Key(m: ChatMessage): (string, string, string, int) {
    (m.text, m.username, m.channel, TimestampMillis(m.timestamp))
  }

  /** `eq` is equality of a projection; hence an equivalence relation. */
  lemma EqIsKeyEquality(a: ChatMessage, b: ChatMessage)
    ensures Eq(a, b) <==> Key(a) == Key(b)
  {
  }

  lemma EqIsEquivalence(a: ChatMessage, b: ChatMessage, c: ChatMessage)
    ensures Eq(a, a)
    ensures Eq(a, b) ==> Eq(b, a)
    ensures Eq(a, b) && Eq(b, c) ==> Eq(a, c)
  {
  }

  lemma MulMonotone(a: int, b: int, d: int)
    requires a <= b && d >= 0
    ensures a * d <= b * d
  {
    assert b * d - a * d == (b - a) * d;
  }

  /** An integer division by a positive number is fixed by the bounds it satisfies. */
  lemma FloorUnique(t: int, d: int, q: int)
    requires d > 0 && q * d <= t < (q + 1) * d
    ensures t / d == q
  {
    var r := t / d;
    assert r * d <= t < (r + 1) * d;
    if r < q {
      MulMonotone(r + 1, q, d);
      assert false;
    } else if r > q {
      MulMonotone(q + 1, r, d);
      assert false;
    }
  }

  /** Messages that agree on their strings and whose timestamps fall in the same millisecond are equal. */
  lemma SameMillisecondEqual(a: ChatMessage, b: ChatMessage, ms: int)
    requires a.text == b.text && a.username == b.username && a.channel == b.channel
    requires ms * NanosPerMilli <= a.timestamp < (ms + 1) * NanosPerMilli
    requires ms * NanosPerMilli <= b.timestamp < (ms + 1) * NanosPerMilli
    ensures Eq(a, b)
  {
    FloorUnique(a.timestamp, NanosPerMilli, ms);
    FloorUnique(b.timestamp, NanosPerMilli, ms);
  }

  /** Equality truncates rather than tolerates: 1 ns on either side of a millisecond boundary differs. */
  lemma BoundaryUnequal(m: ChatMessage, ms: int)
    ensures !Eq(m.(timestamp := ms * NanosPerMilli - 1), m.(timestamp := ms * NanosPerMilli))
  {
    FloorUnique(ms * NanosPerMilli - 1, NanosPerMilli, ms - 1);
    FloorUnique(ms * NanosPerMilli, NanosPerMilli, ms);
  }

  // ---------------------------------------------------------------- rows

  /** `row.get(..)` panics on a missing column or a column of another type. */
  predicate RowReadable(row: Row) {
    && "text" in row.columns && row.columns["text"].Text?
    && "channel" in row.columns && row.columns["channel"].Text?
    && "username" in row.columns && row.columns["username"].Text?
    && "timestamp" in row.columns && row.columns["timestamp"].TimestampTz?
  }

  /** `From<Row>`: each field from the column of the same name. */
  function FromRow(row: Row): (m: ChatMessage)
    requires RowReadable(row)
    ensures row.columns["text"] == Text(m.text) && row.columns["channel"] == Text(m.channel)
    ensures row.columns["username"] == Text(m.username) && row.columns["timestamp"] == TimestampTz(m.timestamp)
  {
    ChatMessage(
      text := row.columns["text"].s,
      channel := row.columns["channel"].s,
      username := row.columns["username"].s,
      timestamp := row.columns["timestamp"].nanos)
  }

  // ---------------------------------------------------------------- JSON form

  /** `Serialize`: the fields in declaration order, the timestamp as whole Unix seconds. */
  function ToJson(m: ChatMessage): Json {
    Object([
      ("text", Str(m.text)),
      ("username", Str(m.username)),
      ("channel", Str(m.channel)),
      ("timestamp", Int(TimestampSeconds(m.timestamp)))])
  }

  /**
   * `Deserialize`: from an object holding the four fields (other members are
   * ignored), or from an array of the four values in declaration order; the
   * timestamp must be an integer count of seconds.
   */
  function FromJson(j: Json): Option<ChatMessage> {
    match j
    case Object(_) =>
      (match (Member(j, "text"), Member(j, "username"), Member(j, "channel"), Member(j, "timestamp"))
       case (Some(Str(t)), Some(Str(u)), Some(Str(c)), Some(Int(secs))) => Some(ChatMessage(t, u, c, secs * NanosPerSecond))
       case _ => None)
    case Array(items) =>
      if |items| == 4 && items[0].Str? && items[1].Str? && items[2].Str? && items[3].Int?
      then Some(ChatMessage(items[0].s, items[1].s, items[2].s, items[3].i * NanosPerSecond))
      else None
    case _ => None
  }

  /** The message that a JSON round trip gives back: the timestamp truncated to its second. */
  function TruncatedToSecond(m: ChatMessage): ChatMessage {
    m.(timestamp := TimestampSeconds(m.timestamp) * NanosPerSecond)
  }

  /** Serialising then deserialising keeps the three strings and truncates the timestamp to the second. */
  lemma JsonRoundTrip(m: ChatMessage)
    ensures FromJson(ToJson(m)) == Some(TruncatedToSecond(m))
  {
    var ms := ToJson(m).members;
    var j := ToJson(m);
    assert ms[1..] == [ms[1], ms[2], ms[3]];
    assert ms[1..][1..] == [ms[2], ms[3]];
    assert ms[1..][1..][1..] == [ms[3]];
    assert "text" != "username" && "text" != "channel" && "text" != "timestamp";
    assert "username" != "channel" && "username" != "timestamp" && "channel" != "timestamp";
    assert Member(j, "text") == Some(Str(m.text));
    assert Member(j, "username") == Find(ms[1..], "username") == Some(Str(m.username));
    assert Member(j, "channel") == Find(ms[1..], "channel") == Find(ms[1..][1..], "channel") == Some(Str(m.channel));
    assert Member(j, "timestamp") == Find(ms[1..], "timestamp") == Find(ms[1..][1..], "timestamp")
      == Find(ms[1..][1..][1..], "timestamp") == Some(Int(TimestampSeconds(m.timestamp)));
  }

  /** A second round trip changes nothing: the JSON form of the round-tripped message is the original JSON form. */
  lemma JsonRoundTripStable(m: ChatMessage)
    ensures ToJson(TruncatedToSecond(m)) == ToJson(m)
  {
    var s := TimestampSeconds(m.timestamp);
    FloorUnique(s * NanosPerSecond, NanosPerSecond, s);
  }

  /** The round-tripped message is `eq` to the original exactly when the original has no milliseconds past its second. */
  lemma JsonRoundTripEqIff(m: ChatMessage)
    ensures Eq(TruncatedToSecond(m), m) <==> TimestampMillis(m.timestamp) % MillisPerSecond == 0
  {
    var t := m.timestamp;
    var s := TimestampSeconds(t);
    var ms := TimestampMillis(t);
    // the truncated instant lies in millisecond s * 1000
    FloorUnique(s * NanosPerSecond, NanosPerMilli, s * MillisPerSecond);
    // the original millisecond lies within second s
    FloorUnique(ms, MillisPerSecond, s);
    assert ms / MillisPerSecond == s;
    assert ms == s * MillisPerSecond + ms % MillisPerSecond;
  }
}
