/** The in-memory event store (src/MAZE/EventRepository.cs): a dictionary
    from game id to that game's list of events, which only ever grows at
    its end. */
module EventRepository {
  import opened Wrappers
  import opened Errors
  import opened Events

  /** `GetEvents`, as the function it computes. */
  function Lookup(events: map<string, seq<Event>>, gameId: string): (r: Result<seq<Event>, ReadEventsError>)
    ensures r.Err? <==> gameId !in events
    ensures r.Err? ==> r.error == ReadEventsError.GameNotFound
    ensures r.Ok? ==> r.value == events[gameId]
  {
    if gameId !in events then Err(ReadEventsError.GameNotFound) else Ok(events[gameId])
  }

  /** The dictionary after `AddEvent(gameId, e)`: an absent game first gets
      an empty list, and `e` goes at the end of that game's list. */
  function Added(events: map<string, seq<Event>>, gameId: string, e: Event): (m: map<string, seq<Event>>)
    ensures m.Keys == events.Keys + {gameId}
    ensures gameId !in events ==> m[gameId] == [e]
    ensures gameId in events ==> m[gameId] == events[gameId] + [e]
    ensures forall g :: g in events && g != gameId ==> m[g] == events[g]
  {
    events[gameId := (if gameId in events then events[gameId] else []) + [e]]
  }

  /** `m'` came from `m` by appending only: no game disappeared, and each
      game's old list is a prefix of its new one. */
  predicate Extends(m: map<string, seq<Event>>, m': map<string, seq<Event>>) {
    forall g :: g in m ==> g in m' && m[g] <= m'[g]
  }

  /** Every stored list holds at least one event, since a list is only
      created on the way to an append. */
  predicate StreamsNonEmpty(m: map<string, seq<Event>>) {
    forall g :: g in m ==> m[g] != []
  }

  /** An append removes and reorders nothing. */
  lemma AddedExtends(events: map<string, seq<Event>>, gameId: string, e: Event)
    ensures Extends(events, Added(events, gameId, e))
    ensures !Extends(Added(events, gameId, e), events)
  {
    var m := Added(events, gameId, e);
    assert gameId in events ==> |m[gameId]| == |events[gameId]| + 1;
  }

  /** Appends accumulate: a history of appends extends the starting store. */
  lemma ExtendsTransitive(m1: map<string, seq<Event>>, m2: map<string, seq<Event>>, m3: map<string, seq<Event>>)
    requires Extends(m1, m2) && Extends(m2, m3)
    ensures Extends(m1, m3)
  {
    forall g | g in m1
      ensures g in m3 && m1[g] <= m3[g]
    {
      assert m1[g] == m2[g][..|m1[g]|];
      assert m2[g] == m3[g][..|m2[g]|];
      assert m1[g] == m3[g][..|m1[g]|];
    }
  }

  /** An append keeps every list non-empty and makes `gameId` readable. */
  lemma AddedKeepsStreamsNonEmpty(events: map<string, seq<Event>>, gameId: string, e: Event)
    requires StreamsNonEmpty(events)
    ensures StreamsNonEmpty(Added(events, gameId, e))
    ensures Lookup(Added(events, gameId, e), gameId).Ok?
  {
  }

  /** After an append, reading any other game gives what it gave before. */
  lemma OtherGamesUnaffected(events: map<string, seq<Event>>, gameId: string, e: Event, other: string)
    requires other != gameId
    ensures Lookup(Added(events, gameId, e), other) == Lookup(events, other)
  {
  }

  class EventRepository {
    var events: map<string, seq<Event>>

    ghost predicate Valid()
      reads this
    {
      StreamsNonEmpty(events)
    }

    constructor ()
      ensures events == map[] && Valid()
    {
      events := map[];
    }

    /** The stored list of `gameId`, or `GameNotFound`. */
    method GetEvents(gameId: string) returns (r: Result<seq<Event>, ReadEventsError>)
      ensures r == Lookup(events, gameId)
    {
      if gameId !in events {
        return Err(ReadEventsError.GameNotFound);
      }
      r := Ok(events[gameId]);
    }

    /** Appends `e` to the list of `gameId`, creating the list if needed. */
    method AddEvent(gameId: string, e: Event)
      modifies this
      ensures events == Added(old(events), gameId, e)
      ensures Extends(old(events), events)
      ensures old(Valid()) ==> Valid()
    {
      if gameId !in events {
        events := events[gameId := []];
      }
      events := events[gameId := events[gameId] + [e]];
      AddedExtends(old(events), gameId, e);
    }
  }
}
