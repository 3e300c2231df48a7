/**
 * A chat stream: a wrapper around a source of messages that may pass every
 * item through an adapter and that records when it was created and when it
 * was last polled. The source is a finite sequence consumed through a
 * cursor; the clock is an explicit argument (`now`) in place of `Utc::now()`,
 * and whether the source has its next item ready is an explicit argument
 * of `PollNext`.
 */
module ChatStreams {
  import opened Wrappers
  import opened ChatMessages

  /** `Poll<Option<ChatMessage>>`. */
  datatype Poll = Pending | Ready(item: Option<ChatMessage>)

  function Apply(adapter: Option<ChatMessage -> ChatMessage>, m: ChatMessage): ChatMessage {
    match adapter
    case None => m
    case Some(f) => f(m)
  }

  /** What a stream over `source` yields: each item, passed through the adapter when there is one. */
  function Output(source: seq<ChatMessage>, adapter: Option<ChatMessage -> ChatMessage>): (r: seq<ChatMessage>)
    ensures |r| == |source|
    ensures forall i :: 0 <= i < |source| ==> r[i] == Apply(adapter, source[i])
  {
    if source == [] then []
    else Output(source[..|source| - 1], adapter) + [Apply(adapter, source[|source| - 1])]
  }

  /** Without an adapter the stream yields its source unchanged. */
  lemma OutputWithoutAdapter(source: seq<ChatMessage>)
    ensures Output(source, None) == source
  {
  }

  class ChatStream {
    var createdAt: int
    var updatedAt: int
    const source: seq<ChatMessage>
    const adapter: Option<ChatMessage -> ChatMessage>
    var position: nat
    /** The items yielded so far, in order. */
    ghost var yielded: seq<ChatMessage>

    ghost predicate Valid()
      reads this
    {
      position <= |source| && yielded == Output(source, adapter)[..position]
    }

    /** `ChatStream::new`; `clock` and `clock'` are the two successive clock reads. */
    constructor New(source: seq<ChatMessage>, clock: int, clock': int)
      ensures Valid()
      ensures this.source == source && adapter == None && position == 0 && yielded == []
      ensures createdAt == clock && updatedAt == clock'
    {
      this.source := source;
      adapter := None;
      position := 0;
      yielded := [];
      createdAt := clock;
      updatedAt := clock';
    }

    /** `ChatStream::with_adapter`. */
    constructor WithAdapter(source: seq<ChatMessage>, adapter: ChatMessage -> ChatMessage, clock: int, clock': int)
      ensures Valid()
      ensures this.source == source && this.adapter == Some(adapter) && position == 0 && yielded == []
      ensures createdAt == clock && updatedAt == clock'
    {
      this.source := source;
      this.adapter := Some(adapter);
      position := 0;
      yielded := [];
      createdAt := clock;
      updatedAt := clock';
    }

    /** `start`: only logs. */
    method Start()
      ensures unchanged(this)
    {
    }

    /** `stop`: only logs. */
    method Stop()
      ensures unchanged(this)
    {
    }

    /** One step of the inner (adapted) stream: its next item, or `None` once it is exhausted. */
    method Advance() returns (r: Option<ChatMessage>)
      requires Valid()
      modifies this`position, this`yielded
      ensures Valid()
      ensures old(position) < |source| ==>
                && r == Some(Apply(adapter, source[old(position)]))
                && position == old(position) + 1
                && yielded == old(yielded) + [r.value]
      ensures old(position) == |source| ==> r == None && position == old(position) && yielded == old(yielded)
    {
      if position < |source| {
        var item := Apply(adapter, source[position]);
        ghost var out := Output(source, adapter);
        assert out[..position + 1] == out[..position] + [out[position]];
        position := position + 1;
        yielded := yielded + [item];
        r := Some(item);
      } else {
        r := None;
      }
    }

    /** `await_next`: the inner stream's next item; `updated_at` is left alone. */
    method AwaitNext() returns (r: Option<ChatMessage>)
      requires Valid()
      modifies this`position, this`yielded
      ensures Valid()
      ensures old(position) < |source| ==>
                && r == Some(Apply(adapter, source[old(position)]))
                && position == old(position) + 1
                && yielded == old(yielded) + [r.value]
      ensures old(position) == |source| ==> r == None && position == old(position) && yielded == old(yielded)
    {
      r := Advance();
    }

    /**
     * `Stream::poll_next`: polls the inner stream and then sets `updated_at`
     * to the clock, whatever the poll gave (an item, the end, or pending).
     */
    method PollNext(ready: bool, now: int) returns (p: Poll)
      requires Valid()
      modifies this`position, this`yielded, this`updatedAt
      ensures Valid()
      ensures updatedAt == now
      ensures !ready ==> p == Pending && position == old(position) && yielded == old(yielded)
      ensures ready && old(position) < |source| ==>
                && p == Ready(Some(Apply(adapter, source[old(position)])))
                && position == old(position) + 1
                && yielded == old(yielded) + [p.item.value]
      ensures ready && old(position) == |source| ==>
                p == Ready(None) && position == old(position) && yielded == old(yielded)
    {
      if ready {
        var r := Advance();
        p := Ready(r);
      } else {
        p := Pending;
      }
      updatedAt := now;
    }
  }

  /**
   * A consumer that polls a fresh stream to its end with a source that is
   * always ready: it sees every source item once, adapted, in source order,
   * then the end of the stream. `created_at` never moves, and `updated_at`
   * is the last clock reading.
   */
  method Drain(s: ChatStream, clock: seq<int>) returns (seen: seq<ChatMessage>)
    requires s.Valid() && s.position == 0
    requires |clock| == |s.source| + 1
    modifies s
    ensures s.Valid()
    ensures seen == Output(s.source, s.adapter) && s.yielded == seen
    ensures s.createdAt == old(s.createdAt) && s.updatedAt == clock[|clock| - 1]
  {
    seen := [];
    var polls := 0;
    var done := false;
    while !done
      invariant s.Valid() && seen == s.yielded && |seen| == s.position
      invariant done ==> s.position == |s.source|
      invariant polls == s.position + (if done then 1 else 0) && polls <= |clock|
      invariant polls > 0 ==> s.updatedAt == clock[polls - 1]
      invariant s.createdAt == old(s.createdAt)
      decreases |s.source| - s.position + (if done then 0 else 1)
    {
      var p := s.PollNext(true, clock[polls]);
      polls := polls + 1;
      if p.item.None? {
        done := true;
      } else {
        seen := seen + [p.item.value];
      }
    }
    assert Output(s.source, s.adapter)[..|s.source|] == Output(s.source, s.adapter);
  }
}
