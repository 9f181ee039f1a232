/** The persistence layer (server/storage.ts) as an in-memory store: the `events` table
    keyed by id and the `sessions` table keyed by socket id. The session counts are
    pure filters over the sessions table. */
module Storage {
  import opened Wrappers
  import opened Schema

  /** A row of the `sessions` table. `role` is stored as the caller passed it. */
  datatype Session = Session(
    id: string,
    eventId: int,
    role: string,
    isActive: bool,
    lastHeartbeat: int)

  type SessionTable = map<string, Session>

  /** Every row is stored under its own id (the primary key). */
  ghost predicate WellKeyed(t: SessionTable) {
    forall id :: id in t ==> t[id].id == id
  }

  // ------------------------------------------------------------ counts

  function AllSessions(t: SessionTable, eventId: int): set<string> {
    set id | id in t && t[id].eventId == eventId
  }

  function ActiveSessions(t: SessionTable, eventId: int): set<string> {
    set id | id in t && t[id].eventId == eventId && t[id].isActive
  }

  /** `getActiveSessionCount`: sessions of the event with `isActive = true`. */
  function ActiveCount(t: SessionTable, eventId: int): nat {
    |ActiveSessions(t, eventId)|
  }

  /** `getTotalSessionCount`: sessions of the event, active or not. */
  function TotalCount(t: SessionTable, eventId: int): nat {
    |AllSessions(t, eventId)|
  }

  lemma SubsetCard<T>(a: set<T>, b: set<T>)
    requires a <= b
    ensures |a| <= |b|
  {
    assert b == a + (b - a);
  }

  /** For every event, the active count never exceeds the total count. */
  lemma ActiveAtMostTotal(t: SessionTable, eventId: int)
    ensures ActiveCount(t, eventId) <= TotalCount(t, eventId)
  {
    SubsetCard(ActiveSessions(t, eventId), AllSessions(t, eventId));
  }

  // ------------------------------------------------------------ table updates

  /** The table after `joinSession(id, eventId, role)` at time `now`: a new id is
      inserted as an active row; an existing row is reactivated and its heartbeat
      refreshed, keeping its event and role. */
  function Joined(t: SessionTable, id: string, eventId: int, role: string, now: int): (r: SessionTable)
    ensures r.Keys == t.Keys + {id}
    ensures id !in t ==> r[id] == Session(id, eventId, role, true, now)
    ensures id in t ==> r[id] == Session(t[id].id, t[id].eventId, t[id].role, true, now)
    ensures forall k :: k in t && k != id ==> r[k] == t[k]
  {
    if id !in t then t[id := Session(id, eventId, role, true, now)]
    else t[id := t[id].(isActive := true, lastHeartbeat := now)]
  }

  /** The table after `leaveSession(id)`: that row becomes inactive; an unknown id
      changes nothing. */
  function Left(t: SessionTable, id: string): (r: SessionTable)
    ensures r.Keys == t.Keys
    ensures id in t ==> r[id] == t[id].(isActive := false)
    ensures forall k :: k in t && k != id ==> r[k] == t[k]
    ensures id !in t ==> r == t
  {
    if id in t then t[id := t[id].(isActive := false)] else t
  }

  /** Leaving never changes any event's total count. */
  lemma LeaveKeepsTotal(t: SessionTable, id: string, eventId: int)
    ensures TotalCount(Left(t, id), eventId) == TotalCount(t, eventId)
  {
    assert AllSessions(Left(t, id), eventId) == AllSessions(t, eventId);
  }

  /** Leaving lowers the active count of the session's own event by one if it was
      active, and leaves every other count alone. */
  lemma LeaveActiveCount(t: SessionTable, id: string, eventId: int)
    ensures var was := id in t && t[id].eventId == eventId && t[id].isActive;
      ActiveCount(Left(t, id), eventId) == ActiveCount(t, eventId) - (if was then 1 else 0)
  {
    var before := ActiveSessions(t, eventId);
    var after := ActiveSessions(Left(t, id), eventId);
    if id in t && t[id].eventId == eventId && t[id].isActive {
      assert after == before - {id};
    } else {
      assert after == before;
    }
  }

  /** Joining never lowers any event's total count. */
  lemma JoinKeepsOrGrowsTotal(t: SessionTable, id: string, eventId: int, role: string, now: int, e: int)
    ensures TotalCount(Joined(t, id, eventId, role, now), e) >= TotalCount(t, e)
  {
    var r := Joined(t, id, eventId, role, now);
    var before, after := AllSessions(t, e), AllSessions(r, e);
    forall k | k in before ensures k in after {
      assert k in r && r[k].eventId == t[k].eventId;
    }
    SubsetCard(before, after);
  }

  /** Joining with a new id adds exactly one to that event's total and active counts. */
  lemma JoinNewCounts(t: SessionTable, id: string, eventId: int, role: string, now: int)
    requires id !in t
    ensures TotalCount(Joined(t, id, eventId, role, now), eventId) == TotalCount(t, eventId) + 1
    ensures ActiveCount(Joined(t, id, eventId, role, now), eventId) == ActiveCount(t, eventId) + 1
  {
    JoinNewSets(t, id, eventId, role, now);
    assert id !in AllSessions(t, eventId) && id !in ActiveSessions(t, eventId);
  }

  lemma JoinNewSets(t: SessionTable, id: string, eventId: int, role: string, now: int)
    requires id !in t
    ensures AllSessions(Joined(t, id, eventId, role, now), eventId) == AllSessions(t, eventId) + {id}
    ensures ActiveSessions(Joined(t, id, eventId, role, now), eventId) == ActiveSessions(t, eventId) + {id}
  {
    var r := Joined(t, id, eventId, role, now);
    assert r == t[id := Session(id, eventId, role, true, now)];
  }

  /** Rejoining with a known id marks that session active for the event it was first
      stored under, whatever event id the new call passes. */
  lemma RejoinKeepsEvent(t: SessionTable, id: string, eventId: int, role: string, now: int)
    requires id in t
    ensures var r := Joined(t, id, eventId, role, now);
      id in ActiveSessions(r, t[id].eventId) &&
      (t[id].eventId != eventId ==> id !in AllSessions(r, eventId))
  {
  }

  // ------------------------------------------------------------ the store

  class SessionStore {
    var sessions: SessionTable
    var events: map<int, Event>
    var nextEventId: int

    ghost predicate Valid()
      reads this
    {
      && WellKeyed(sessions)
      && 1 <= nextEventId
      && forall id :: id in events ==> events[id].id == id && id < nextEventId
    }

    constructor ()
      ensures Valid()
      ensures sessions == map[] && events == map[] && nextEventId == 1
    {
      sessions := map[];
      events := map[];
      nextEventId := 1;
    }

    /** `getEvent(id)`. */
    function GetEvent(id: int): (r: Option<Event>)
      reads this
      ensures r.Some? <==> id in events
      ensures r.Some? ==> r.value == events[id]
    {
      if id in events then Some(events[id]) else None
    }

    /** The PINs of all stored events. */
    function UsedPins(): set<string>
      reads this
    {
      set id | id in events :: events[id].pin
    }

    /** Whether `getEventByPin(pin)` finds an event. */
    predicate PinInUse(pin: string)
      reads this
    {
      pin in UsedPins()
    }

    /** `createEvent`: the row gets the next serial id and starts active. */
    method CreateEvent(pin: string, name: string, hostId: string, password: string) returns (e: Event)
      requires Valid()
      modifies this
      ensures Valid()
      ensures e == Event(old(nextEventId), pin, name, hostId, password, true)
      ensures e.id !in old(events) && events == old(events)[e.id := e]
      ensures nextEventId == old(nextEventId) + 1 && sessions == old(sessions)
    {
      e := Event(nextEventId, pin, name, hostId, password, true);
      events := events[e.id := e];
      nextEventId := nextEventId + 1;
    }

    /** `joinSession(sessionId, eventId, role)` at time `now`. */
    method JoinSession(sessionId: string, eventId: int, role: string, now: int)
      requires Valid()
      modifies this`sessions
      ensures Valid()
      ensures sessions == Joined(old(sessions), sessionId, eventId, role, now)
    {
      if sessionId !in sessions {
        sessions := sessions[sessionId := Session(sessionId, eventId, role, true, now)];
      } else {
        sessions := sessions[sessionId := sessions[sessionId].(isActive := true, lastHeartbeat := now)];
      }
    }

    /** `leaveSession(sessionId)`. */
    method LeaveSession(sessionId: string)
      requires Valid()
      modifies this`sessions
      ensures Valid()
      ensures sessions == Left(old(sessions), sessionId)
    {
      if sessionId in sessions {
        sessions := sessions[sessionId := sessions[sessionId].(isActive := false)];
      }
    }
  }
}
