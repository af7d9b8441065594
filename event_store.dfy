/**
 * The per-session event log that makes a streamable HTTP session resumable:
 * for every stream it keeps the messages sent on it, in order, each under
 * its event id, and it can replay what followed a given event id.
 *
 * The store is a JavaScript `Map`, whose iteration follows key insertion
 * order; the model keeps that order in `streams` beside the `events` map.
 * Event ids are generated from the clock and a random number in the source;
 * here the caller supplies them.
 */
module EventStore {
  import opened Wrappers
  import opened Js

  type StreamId = string
  type EventId = string

  /** One stored message, `{ id, message }`; the message is opaque here. */
  datatype Event = Event(id: EventId, message: Json)

  /** What a replay does: it sends `sent` and returns `stream`, or it throws. */
  datatype Replay = Replayed(stream: StreamId, sent: seq<Event>) | NotFound(message: string)

  function NotFoundMessage(id: EventId): string
  {
    "Event ID " + id + " not found"
  }

  predicate Contains(evs: seq<Event>, id: EventId)
  {
    exists k :: 0 <= k < |evs| && evs[k].id == id
  }

  /** The position of the first event whose id is `id`, or -1 when no event has it. */
  function FindIndex(evs: seq<Event>, id: EventId): (r: int)
    ensures -1 <= r < |evs|
    ensures r == -1 <==> !Contains(evs, id)
    ensures r >= 0 ==> evs[r].id == id && forall k :: 0 <= k < r ==> evs[k].id != id
    decreases |evs|
  {
    if evs == [] then -1
    else if evs[0].id == id then 0
    else
      var k := FindIndex(evs[1..], id);
      assert forall j :: 1 <= j < |evs| ==> evs[j] == evs[1..][j - 1];
      if k < 0 then -1 else k + 1
  }

  /** Every stream in the order has an event list. */
  predicate Listed(order: seq<StreamId>, events: map<StreamId, seq<Event>>)
  {
    forall i :: 0 <= i < |order| ==> order[i] in events
  }

  /** A well-formed store: exactly the listed streams have lists. */
  predicate WellFormed(order: seq<StreamId>, events: map<StreamId, seq<Event>>)
  {
    Listed(order, events) && forall s :: s in events ==> s in order
  }

  /**
   * The replay the store performs: the first stream, in insertion order,
   * whose list holds `last`, and the events after the first occurrence.
   */
  function ReplayOf(order: seq<StreamId>, events: map<StreamId, seq<Event>>, last: EventId): (r: Replay)
    requires Listed(order, events)
    ensures r.NotFound? ==> r.message == NotFoundMessage(last)
    decreases |order|
  {
    if order == [] then NotFound(NotFoundMessage(last))
    else
      var k := FindIndex(events[order[0]], last);
      if k >= 0 then Replayed(order[0], events[order[0]][k + 1..])
      else ReplayOf(order[1..], events, last)
  }

  /** The stream list after appending `e` to stream `s`, created empty when absent. */
  function Appended(events: map<StreamId, seq<Event>>, s: StreamId, e: Event): map<StreamId, seq<Event>>
  {
    events[s := (if s in events then events[s] else []) + [e]]
  }

  /** The insertion order after `set(s, [])` on a stream that may be new. */
  function OrderAfterSet(order: seq<StreamId>, events: map<StreamId, seq<Event>>, s: StreamId): seq<StreamId>
  {
    if s in events then order else order + [s]
  }

  /** The insertion order after `delete(s)`. */
  function Without(order: seq<StreamId>, s: StreamId): (r: seq<StreamId>)
    ensures forall t :: t in r <==> t in order && t != s
    ensures s !in order ==> r == order
    decreases |order|
  {
    if order == [] then []
    else if order[0] == s then Without(order[1..], s)
    else [order[0]] + Without(order[1..], s)
  }

  class InMemoryEventStore {
    /** Stream ids in map insertion order. */
    var streams: seq<StreamId>
    /** The stored events of each stream, oldest first. */
    var events: map<StreamId, seq<Event>>

    ghost predicate Valid()
      reads this
    {
      && Distinct(streams)
      && WellFormed(streams, events)
    }

    constructor ()
      ensures Valid() && streams == [] && events == map[]
    {
      streams := [];
      events := map[];
    }

    /**
     * `storeEvent`: appends `(eventId, message)` at the end of the stream's
     * list, creating the list first when the stream is new, and returns the id.
     */
    method StoreEvent(streamId: StreamId, message: Json, eventId: EventId) returns (id: EventId)
      requires Valid()
      modifies this
      ensures Valid()
      ensures id == eventId
      ensures events == Appended(old(events), streamId, Event(eventId, message))
      ensures streams == OrderAfterSet(old(streams), old(events), streamId)
      ensures events[streamId][|events[streamId]| - 1] == Event(id, message)
    {
      if streamId !in events {
        events := events[streamId := []];
        streams := streams + [streamId];
      }
      events := events[streamId := events[streamId] + [Event(eventId, message)]];
      id := eventId;
    }

    /**
     * `replayEventsAfter`: sends, in order, the events that follow the first
     * occurrence of `lastEventId` in the first stream holding it, and returns
     * that stream's id; throws "Event ID … not found" when no stream holds it.
     * The store is only read.
     */
    method ReplayEventsAfter(lastEventId: EventId) returns (result: Result<StreamId, string>, sent: seq<Event>)
      requires Valid()
      ensures result.Ok? ==> ReplayOf(streams, events, lastEventId) == Replayed(result.value, sent)
      ensures result.Err? ==> ReplayOf(streams, events, lastEventId) == NotFound(result.error) && sent == []
    {
      sent := [];
      ghost var expected := ReplayOf(streams, events, lastEventId);
      assert streams[0..] == streams;
      var i := 0;
      while i < |streams|
        invariant 0 <= i <= |streams|
        invariant Listed(streams[i..], events)
        invariant ReplayOf(streams[i..], events, lastEventId) == expected
      {
        var list := events[streams[i]];
        var eventIndex := FindIndex(list, lastEventId);
        ReplayStep(streams, i, events, lastEventId);
        if eventIndex >= 0 {
          var toReplay := list[eventIndex + 1..];
          assert expected == Replayed(streams[i], toReplay);
          sent := SendAll(toReplay);
          result := Ok(streams[i]);
          return;
        }
        i := i + 1;
      }
      result := Err(NotFoundMessage(lastEventId));
    }

    /** The replay's sends: each event to replay is sent once, in stored order. */
    static method SendAll(toReplay: seq<Event>) returns (sent: seq<Event>)
      ensures sent == toReplay
    {
      sent := [];
      var j := 0;
      while j < |toReplay|
        invariant 0 <= j <= |toReplay|
        invariant sent == toReplay[..j]
      {
        sent := sent + [toReplay[j]];
        j := j + 1;
      }
    }

    /** `clearSession`: forgets the stream; nothing happens when it is absent. */
    method ClearSession(streamId: StreamId)
      requires Valid()
      modifies this
      ensures Valid()
      ensures events == old(events) - {streamId}
      ensures streams == Without(old(streams), streamId)
    {
      ListedMembers(streams, events);
      events := events - {streamId};
      WithoutKeepsDistinct(streams, streamId);
      streams := Without(streams, streamId);
    }
  }

  /** One step of `ReplayOf` on a non-empty order. */
  lemma ReplayStep(order: seq<StreamId>, i: nat, events: map<StreamId, seq<Event>>, last: EventId)
    requires i < |order| && Listed(order[i..], events)
    ensures order[i] in events && Listed(order[i + 1..], events)
    ensures var k := FindIndex(events[order[i]], last);
      ReplayOf(order[i..], events, last) ==
        if k >= 0 then Replayed(order[i], events[order[i]][k + 1..]) else ReplayOf(order[i + 1..], events, last)
  {
    assert order[i..][0] == order[i];
    assert order[i..][1..] == order[i + 1..];
  }

  lemma ListedMembers(order: seq<StreamId>, events: map<StreamId, seq<Event>>)
    requires Listed(order, events)
    ensures forall t :: t in order ==> t in events
  {
    forall t | t in order ensures t in events {
      var i :| 0 <= i < |order| && order[i] == t;
    }
  }

  predicate Distinct(order: seq<StreamId>)
  {
    forall i, j :: 0 <= i < j < |order| ==> order[i] != order[j]
  }

  lemma {:induction false} WithoutKeepsDistinct(order: seq<StreamId>, s: StreamId)
    requires Distinct(order)
    ensures Distinct(Without(order, s))
    decreases |order|
  {
    if order != [] {
      var rest := order[1..];
      assert forall i, j :: 0 <= i < j < |rest| ==> rest[i] == order[i + 1] && rest[j] == order[j + 1];
      WithoutKeepsDistinct(rest, s);
      if order[0] != s {
        var w := Without(rest, s);
        assert order[0] !in rest;
        assert order[0] !in w;
        var r := [order[0]] + w;
        forall i, j | 0 <= i < j < |r| ensures r[i] != r[j] {
          assert r[j] == w[j - 1];
          if i > 0 { assert r[i] == w[i - 1]; } else { assert r[j] in w; }
        }
      }
    }
  }

  // ---------------------------------------------------------------- what a replay promises

  /** Stream `order[i]` is the first stream, in insertion order, that holds `last`. */
  predicate FirstHolder(order: seq<StreamId>, events: map<StreamId, seq<Event>>, last: EventId, i: int)
    requires Listed(order, events)
  {
    && 0 <= i < |order|
    && Contains(events[order[i]], last)
    && forall j :: 0 <= j < i ==> !Contains(events[order[j]], last)
  }

  /**
   * A replay fails exactly when no stream holds the cursor, and then with
   * "Event ID … not found"; otherwise it returns the first stream holding
   * the cursor and sends that stream's events after the cursor's first
   * occurrence, in stored order.
   */
  lemma {:induction false} ReplayCharacterized(order: seq<StreamId>, events: map<StreamId, seq<Event>>, last: EventId)
    requires Listed(order, events)
    ensures ReplayOf(order, events, last).NotFound? <==>
      forall i :: 0 <= i < |order| ==> !Contains(events[order[i]], last)
    ensures ReplayOf(order, events, last).NotFound? ==>
      ReplayOf(order, events, last).message == NotFoundMessage(last)
    ensures ReplayOf(order, events, last).Replayed? ==>
      var r := ReplayOf(order, events, last);
      exists i :: FirstHolder(order, events, last, i) && r.stream == order[i] &&
        r.sent == events[order[i]][FindIndex(events[order[i]], last) + 1..]
    decreases |order|
  {
    ReplayNotFoundIff(order, events, last);
    if ReplayOf(order, events, last).Replayed? {
      ReplayFirstHolder(order, events, last);
    }
  }

  /** A replay fails exactly when no listed stream holds the cursor. */
  lemma {:induction false} ReplayNotFoundIff(order: seq<StreamId>, events: map<StreamId, seq<Event>>, last: EventId)
    requires Listed(order, events)
    ensures ReplayOf(order, events, last).NotFound? <==>
      forall i :: 0 <= i < |order| ==> !Contains(events[order[i]], last)
    decreases |order|
  {
    if order != [] {
      var rest := order[1..];
      ReplayNotFoundIff(rest, events, last);
      if FindIndex(events[order[0]], last) < 0 {
        ReplaySkipsHead(order, events, last);
        if ReplayOf(rest, events, last).NotFound? {
          NoHolderAfterHead(order, events, last);
        } else {
          var i :| 0 <= i < |rest| && Contains(events[rest[i]], last);
          assert order[i + 1] == rest[i];
        }
      }
    }
  }

  /** A successful replay returns the first holder of the cursor and its events after the cursor. */
  lemma {:induction false} ReplayFirstHolder(order: seq<StreamId>, events: map<StreamId, seq<Event>>, last: EventId)
    requires Listed(order, events) && ReplayOf(order, events, last).Replayed?
    ensures var r := ReplayOf(order, events, last);
      exists i :: FirstHolder(order, events, last, i) && r.stream == order[i] &&
        r.sent == events[order[i]][FindIndex(events[order[i]], last) + 1..]
    decreases |order|
  {
    if FindIndex(events[order[0]], last) >= 0 {
      assert FirstHolder(order, events, last, 0);
    } else {
      var rest := order[1..];
      ReplaySkipsHead(order, events, last);
      ReplayFirstHolder(rest, events, last);
      var r := ReplayOf(order, events, last);
      var i :| FirstHolder(rest, events, last, i) && r.stream == rest[i] &&
        r.sent == events[rest[i]][FindIndex(events[rest[i]], last) + 1..];
      HolderAfterHead(order, events, last, i);
    }
  }

  /** A first holder among the rest is the first holder overall when the head does not hold the cursor. */
  lemma HolderAfterHead(order: seq<StreamId>, events: map<StreamId, seq<Event>>, last: EventId, i: int)
    requires Listed(order, events) && order != [] && !Contains(events[order[0]], last)
    requires Listed(order[1..], events) && FirstHolder(order[1..], events, last, i)
    ensures FirstHolder(order, events, last, i + 1) && order[i + 1] == order[1..][i]
  {
    forall j | 0 < j < i + 1 ensures !Contains(events[order[j]], last) {
      assert order[j] == order[1..][j - 1];
    }
  }

  /** No stream holds the cursor when neither the head nor any of the rest does. */
  lemma NoHolderAfterHead(order: seq<StreamId>, events: map<StreamId, seq<Event>>, last: EventId)
    requires Listed(order, events) && order != [] && !Contains(events[order[0]], last)
    requires forall i :: 0 <= i < |order[1..]| ==> order[1..][i] in events && !Contains(events[order[1..][i]], last)
    ensures forall i :: 0 <= i < |order| ==> !Contains(events[order[i]], last)
  {
    forall i | 0 < i < |order| ensures !Contains(events[order[i]], last) {
      assert order[i] == order[1..][i - 1];
    }
  }

  /**
   * Resumption: events appended to the stream a cursor belongs to are
   * replayed after the ones already there, in append order.
   */
  lemma {:induction false} ReplayAfterAppend(order: seq<StreamId>, events: map<StreamId, seq<Event>>, last: EventId, e: Event)
    requires Listed(order, events) && ReplayOf(order, events, last).Replayed?
    ensures var r := ReplayOf(order, events, last);
      Listed(order, Appended(events, r.stream, e)) &&
      ReplayOf(order, Appended(events, r.stream, e), last) == Replayed(r.stream, r.sent + [e])
    decreases |order|
  {
    var r := ReplayOf(order, events, last);
    ListedAppended(order, events, r.stream, e);
    if FindIndex(events[order[0]], last) >= 0 {
      AppendAtHead(order, events, last, e);
    } else {
      var rest := order[1..];
      ReplayAfterAppend(rest, events, last, e);
      ReplayedHolds(rest, events, last);
      ReplaySkipsHead(order, Appended(events, r.stream, e), last);
    }
  }

  /** When the first listed stream holds the cursor, the appended event follows what it sent. */
  lemma AppendAtHead(order: seq<StreamId>, events: map<StreamId, seq<Event>>, last: EventId, e: Event)
    requires Listed(order, events) && order != [] && FindIndex(events[order[0]], last) >= 0
    ensures Listed(order, Appended(events, order[0], e))
    ensures ReplayOf(order, Appended(events, order[0], e), last) ==
      Replayed(order[0], ReplayOf(order, events, last).sent + [e])
  {
    var list := events[order[0]];
    var k := FindIndex(list, last);
    ListedAppended(order, events, order[0], e);
    FindIndexPrefix(list, [e], last);
    assert (list + [e])[k + 1..] == list[k + 1..] + [e];
  }

  /** When the first listed stream does not hold the cursor, the replay is the rest's replay. */
  lemma ReplaySkipsHead(order: seq<StreamId>, events: map<StreamId, seq<Event>>, last: EventId)
    requires Listed(order, events) && order != [] && !Contains(events[order[0]], last)
    ensures Listed(order[1..], events)
    ensures ReplayOf(order, events, last) == ReplayOf(order[1..], events, last)
  {
    assert forall i :: 0 <= i < |order[1..]| ==> order[1..][i] == order[i + 1];
  }

  /** Appending to a listed stream keeps every listed stream present. */
  lemma ListedAppended(order: seq<StreamId>, events: map<StreamId, seq<Event>>, s: StreamId, e: Event)
    requires Listed(order, events)
    ensures Listed(order, Appended(events, s, e))
  {
  }

  /** A successful replay names a stream that holds the cursor. */
  lemma {:induction false} ReplayedHolds(order: seq<StreamId>, events: map<StreamId, seq<Event>>, last: EventId)
    requires Listed(order, events)
    ensures var r := ReplayOf(order, events, last);
      r.Replayed? ==> (r.stream in events && Contains(events[r.stream], last) &&
        r.sent == events[r.stream][FindIndex(events[r.stream], last) + 1..])
    decreases |order|
  {
    if order != [] && FindIndex(events[order[0]], last) < 0 {
      ReplayedHolds(order[1..], events, last);
    }
  }

  /** The first occurrence in a prefix is the first occurrence in the whole list. */
  lemma FindIndexPrefix(a: seq<Event>, b: seq<Event>, id: EventId)
    requires FindIndex(a, id) >= 0
    ensures FindIndex(a + b, id) == FindIndex(a, id)
  {
    var k := FindIndex(a, id);
    assert (a + b)[k] == a[k];
    assert forall j :: 0 <= j < k ==> (a + b)[j] == a[j];
  }

  /** Storing into stream `s` keeps every stream listed and lists `s` at some position. */
  lemma StoredListed(order: seq<StreamId>, events: map<StreamId, seq<Event>>, s: StreamId, e: Event)
    requires WellFormed(order, events)
    ensures Listed(OrderAfterSet(order, events, s), Appended(events, s, e))
    ensures s in OrderAfterSet(order, events, s)
  {
    var order' := OrderAfterSet(order, events, s);
    if s !in events {
      assert order'[|order|] == s;
      forall i | 0 <= i < |order'| ensures order'[i] in Appended(events, s, e) {
        if i < |order| { assert order'[i] == order[i]; }
      }
    }
  }

  /** An event under a fresh id is found at the end of the list it was appended to. */
  lemma FreshAtEnd(a: seq<Event>, e: Event)
    requires !Contains(a, e.id)
    ensures FindIndex(a + [e], e.id) == |a|
  {
    var b := a + [e];
    assert b[|a|] == e;
    forall j | 0 <= j < |a| ensures b[j].id != e.id {
      assert b[j] == a[j];
    }
  }

  /**
   * Storing an event under an id no stream holds, then replaying from that
   * id, sends nothing and returns the stream the event went to.
   */
  lemma StoreThenReplayNewest(order: seq<StreamId>, events: map<StreamId, seq<Event>>, s: StreamId, e: Event)
    requires WellFormed(order, events)
    requires forall t :: t in events ==> !Contains(events[t], e.id)
    ensures Listed(OrderAfterSet(order, events, s), Appended(events, s, e))
    ensures ReplayOf(OrderAfterSet(order, events, s), Appended(events, s, e), e.id) == Replayed(s, [])
  {
    var order', events' := OrderAfterSet(order, events, s), Appended(events, s, e);
    StoredListed(order, events, s, e);
    var a := if s in events then events[s] else [];
    FreshAtEnd(a, e);
    assert events'[s] == a + [e];
    var k :| 0 <= k < |order'| && order'[k] == s;
    assert Contains(events'[order'[k]], e.id);
    ReplayCharacterized(order', events', e.id);
    ReplayedHolds(order', events', e.id);
  }

  /**
   * After `clearSession(s)`, replaying an id that only stream `s` held
   * throws "Event ID … not found".
   */
  lemma ReplayAfterClear(order: seq<StreamId>, events: map<StreamId, seq<Event>>, s: StreamId, last: EventId)
    requires Listed(order, events)
    requires forall t :: t in events && t != s ==> !Contains(events[t], last)
    ensures Listed(Without(order, s), events - {s})
    ensures ReplayOf(Without(order, s), events - {s}, last) == NotFound(NotFoundMessage(last))
  {
    var order' := Without(order, s);
    ListedMembers(order, events);
    assert Listed(order', events - {s}) by {
      forall i | 0 <= i < |order'| ensures order'[i] in events - {s} {
        assert order'[i] in order';
      }
    }
    ReplayCharacterized(order', events - {s}, last);
    forall i | 0 <= i < |order'| ensures !Contains((events - {s})[order'[i]], last) {
      assert order'[i] in order';
    }
  }
}
