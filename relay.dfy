/** The relay server (server/routes.ts): the POST /api/events handler with its PIN and
    password generation, and the Socket.IO handlers over the `roomState` map. Socket.IO
    calls (`socket.join`, `socket.emit`, `io.to(room).emit`, ack callbacks) become
    entries appended to an outbox; each handler runs to completion on its own. */
module Relay {
  import opened Wrappers
  import opened Text
  import opened JsNumber
  import opened Schema
  import opened Storage
  import SharedRoutes

  // ------------------------------------------------------------ event PIN and password

  /** Attempts the PIN loop makes before giving up. */
  const MaxPinAttempts: nat := 10
  const PinDigitsRange: nat := 100000000
  const PasswordRange: nat := 10000

  /** One pair of `Math.random` draws, already scaled and floored:
      `Math.floor(Math.random() * 100000000)` and `Math.floor(Math.random() * 26)`. */
  datatype PinDraw = PinDraw(digits: nat, letter: nat)

  predicate ValidDraw(d: PinDraw) {
    d.digits < PinDigitsRange && d.letter < 26
  }

  /** The candidate PIN built from one draw: the digits zero-padded to 8, then the
      letter `String.fromCharCode(65 + letter)`. */
  function PinFromDraw(d: PinDraw): string
    requires ValidDraw(d)
  {
    PadStart(NatToString(d.digits), 8, '0') + [(65 + d.letter) as char]
  }

  /** The shape of every generated PIN: 8 digits and one capital letter. */
  predicate PinShape(pin: string) {
    |pin| == 9 && AllDigits(pin[..8]) && IsUpper(pin[8])
  }

  /** A candidate PIN has the PIN shape, and its digits and letter give back the draw. */
  lemma PinFromDrawShape(d: PinDraw)
    requires ValidDraw(d)
    ensures PinShape(PinFromDraw(d))
    ensures DigitsValue(PinFromDraw(d)[..8]) == d.digits
    ensures PinFromDraw(d)[8] as int - 65 == d.letter
  {
    var s := NatToString(d.digits);
    NatToStringLength(d.digits, 8);
    PaddedNumeralValue(d.digits, 8);
    var pin := PinFromDraw(d);
    assert pin[..8] == PadStart(s, 8, '0');
  }

  /** Different draws give different PINs. */
  lemma PinFromDrawInjective(d: PinDraw, e: PinDraw)
    requires ValidDraw(d) && ValidDraw(e) && PinFromDraw(d) == PinFromDraw(e)
    ensures d == e
  {
    PinFromDrawShape(d);
    PinFromDrawShape(e);
  }

  /** The host password: `Math.floor(Math.random() * 10000)` zero-padded to 4. */
  function PasswordFromDraw(draw: nat): (p: string)
    requires draw < PasswordRange
    ensures |p| == 4 && AllDigits(p) && DigitsValue(p) == draw
  {
    NatToStringLength(draw, 4);
    PaddedNumeralValue(draw, 4);
    PadStart(NatToString(draw), 4, '0')
  }

  /** The first `n` candidate PINs the loop can draw, in order. */
  function Candidates(draws: seq<PinDraw>, n: nat): (c: seq<string>)
    requires n <= |draws| && forall i :: 0 <= i < |draws| ==> ValidDraw(draws[i])
    ensures |c| == n
  {
    if n == 0 then [] else Candidates(draws, n - 1) + [PinFromDraw(draws[n - 1])]
  }

  /** The `i`-th candidate is built from the `i`-th draw. */
  lemma {:induction false} CandidateAt(draws: seq<PinDraw>, n: nat, i: nat)
    requires n <= |draws| && forall j :: 0 <= j < |draws| ==> ValidDraw(draws[j])
    requires i < n
    ensures Candidates(draws, n)[i] == PinFromDraw(draws[i])
  {
    if i < n - 1 {
      CandidateAt(draws, n - 1, i);
    }
  }

  /** One pass of the do…while body: the `k`-th candidate, built from the `k`-th draw. */
  method DrawCandidate(draws: seq<PinDraw>, k: nat) returns (pin: string)
    requires |draws| >= MaxPinAttempts && forall i :: 0 <= i < |draws| ==> ValidDraw(draws[i])
    requires k < MaxPinAttempts
    ensures pin == Candidates(draws, MaxPinAttempts)[k]
  {
    pin := PinFromDraw(draws[k]);
    CandidateAt(draws, MaxPinAttempts, k);
  }

  /** The PIN the loop settles on when candidates `k..` are still to be tried:
      the first candidate not already in use. */
  function FirstFreeFrom(cands: seq<string>, used: set<string>, k: nat): (r: Option<nat>)
    decreases |cands| - k
    ensures r.Some? ==> k <= r.value < |cands| && cands[r.value] !in used
    ensures r.Some? ==> forall i :: k <= i < r.value ==> cands[i] in used
    ensures r.None? ==> forall i :: k <= i < |cands| ==> cands[i] in used
  {
    if k >= |cands| then None
    else if cands[k] !in used then Some(k)
    else FirstFreeFrom(cands, used, k + 1)
  }

  /** The loop stops at the first free candidate, or when all of them collide. */
  lemma FirstFreeAfter(cands: seq<string>, used: set<string>, attempts: nat)
    requires 1 <= attempts <= |cands|
    requires forall i :: 0 <= i < attempts - 1 ==> cands[i] in used
    ensures cands[attempts - 1] !in used ==> FirstFreeFrom(cands, used, 0) == Some(attempts - 1)
    ensures cands[attempts - 1] in used && attempts == |cands| ==> FirstFreeFrom(cands, used, 0).None?
  {
    FirstFreeSkips(cands, used, 0, attempts - 1);
  }

  /** Candidates already in use are skipped. */
  lemma {:induction false} FirstFreeSkips(cands: seq<string>, used: set<string>, k: nat, j: nat)
    requires k <= j <= |cands|
    requires forall i :: k <= i < j ==> cands[i] in used
    ensures FirstFreeFrom(cands, used, k) == FirstFreeFrom(cands, used, j)
    decreases j - k
  {
    if k < j {
      FirstFreeSkips(cands, used, k + 1, j);
    }
  }

  /** The answer of POST /api/events. `BadRequest` is the 400 reply naming the first
      invalid field; `ServerError` the 500 reply. */
  datatype CreateReply =
    | Created(event: Event, eventPin: string)
    | BadRequest(field: string)
    | ServerError(message: string)

  // ------------------------------------------------------------ socket messages

  /** The state the server keeps per room `event-<id>`. */
  datatype RoomState = RoomState(lastEffect: Option<EffectPayload>, hostSocketId: Option<string>)

  /** What the server sends. */
  datatype ServerMsg =
    | JoinedMsg(eventId: int)
    | ParticipantUpdate(active: nat, total: nat)
    | EffectMsg(effect: EffectPayload)
    | ErrorMsg(message: string)
    | SyncAck(serverPerf: real, serverEpoch: int)

  /** One Socket.IO call made by a handler. */
  datatype Outgoing =
    | JoinRoom(socketId: string, room: string)
    | ToSocket(socketId: string, event: string, msg: ServerMsg)
    | ToRoom(room: string, event: string, msg: ServerMsg)
    | Ack(socketId: string, msg: ServerMsg)

  /** The handler the server registers for a client event name. */
  datatype Handler = OnJoinEvent | OnHostEffect | OnDisconnect | OnTimeSync | NoHandler

  function HandlerFor(event: string): (h: Handler)
    ensures h == NoHandler <==> event !in {"join_event", "host_effect", "disconnect", "time:sync"}
  {
    if event == "join_event" then OnJoinEvent
    else if event == "host_effect" then OnHostEffect
    else if event == "disconnect" then OnDisconnect
    else if event == "time:sync" then OnTimeSync
    else NoHandler
  }

  /** The room name `event-<id>`. */
  function RoomKey(eventId: int): string {
    "event-" + IntToString(eventId)
  }

  /** The role the auto-join uses: `'host'` only for a query role of exactly `'host'`. */
  function AutoJoinRole(queryRole: Option<string>): (role: string)
    ensures role == "host" <==> queryRole == Some("host")
    ensures role == "host" || role == "attendee"
  {
    if queryRole == Some("host") then "host" else "attendee"
  }

  /** The state of `room` after a join: created empty when absent, then the host socket
      recorded when the joiner is a host. */
  function RoomAfterJoin(rooms: map<string, RoomState>, room: string, socketId: string, isHost: bool): (s: RoomState)
    ensures room !in rooms ==> s.lastEffect == None
    ensures room in rooms ==> s.lastEffect == rooms[room].lastEffect
    ensures isHost ==> s.hostSocketId == Some(socketId)
    ensures !isHost ==> s.hostSocketId == if room in rooms then rooms[room].hostSocketId else None
  {
    var base := if room in rooms then rooms[room] else RoomState(None, None);
    if isHost then base.(hostSocketId := Some(socketId)) else base
  }

  /** Whether a `host_effect` from `socketId` for `room` is accepted. */
  predicate Authorized(rooms: map<string, RoomState>, room: string, socketId: string) {
    room in rooms && rooms[room].hostSocketId == Some(socketId)
  }

  /** The last host to join a room is the only socket whose effects are accepted: an
      attendee join in between changes nothing, and an earlier host is rejected. */
  lemma LastHostWins(rooms: map<string, RoomState>, room: string, first: string, second: string, between: string)
    requires first != second
    ensures var r1 := rooms[room := RoomAfterJoin(rooms, room, first, true)];
            var r2 := r1[room := RoomAfterJoin(r1, room, between, false)];
            var r3 := r2[room := RoomAfterJoin(r2, room, second, true)];
      && Authorized(r2, room, first)
      && Authorized(r3, room, second)
      && !Authorized(r3, room, first)
  {
  }

  /** Joining never removes a room, and no room but the joined one changes. */
  lemma JoinTouchesOneRoom(rooms: map<string, RoomState>, room: string, socketId: string, isHost: bool, other: string)
    requires other in rooms && other != room
    ensures var r := rooms[room := RoomAfterJoin(rooms, room, socketId, isHost)];
      other in r && r[other] == rooms[other] && room in r
  {
  }

  // ------------------------------------------------------------ the server

  class RelayServer {
    const store: SessionStore
    var rooms: map<string, RoomState>
    var outbox: seq<Outgoing>

    ghost predicate Valid()
      reads this, store
    {
      store.Valid()
    }

    constructor (store: SessionStore)
      requires store.Valid()
      ensures Valid() && this.store == store
      ensures rooms == map[] && outbox == []
    {
      this.store := store;
      rooms := map[];
      outbox := [];
    }

    /** The do…while PIN loop: candidates are drawn until one is free or 10 have been
        tried; `attempts` is how many were drawn, `pin` the last one and `collides`
        whether it is in use. */
    method GeneratePin(draws: seq<PinDraw>) returns (pin: string, attempts: nat, collides: bool)
      requires Valid()
      requires |draws| >= MaxPinAttempts && forall i :: 0 <= i < |draws| ==> ValidDraw(draws[i])
      ensures 1 <= attempts <= MaxPinAttempts && pin == Candidates(draws, MaxPinAttempts)[attempts - 1]
      ensures collides <==> FirstFreeFrom(Candidates(draws, MaxPinAttempts), store.UsedPins(), 0).None?
      ensures !collides ==> FirstFreeFrom(Candidates(draws, MaxPinAttempts), store.UsedPins(), 0) == Some(attempts - 1)
      ensures collides ==> attempts == MaxPinAttempts
    {
      ghost var used := store.UsedPins();
      ghost var cands := Candidates(draws, MaxPinAttempts);
      pin := "";
      attempts := 0;
      collides := false;
      while true
        invariant attempts < MaxPinAttempts
        invariant forall i :: 0 <= i < attempts ==> cands[i] in used
        decreases MaxPinAttempts - attempts
      {
        pin := DrawCandidate(draws, attempts);
        collides := store.PinInUse(pin);
        attempts := attempts + 1;
        if !(collides && attempts < MaxPinAttempts) {
          break;
        }
      }
      FirstFreeAfter(cands, used, attempts);
    }

    /** POST /api/events. The `name` bounds are checked as `create.input` does;
        `hostIdIsUuid` is the input schema's verdict on `hostId`. Random draws are
        inputs. */
    method CreateEvent(name: string, hostId: string, hostIdIsUuid: bool, draws: seq<PinDraw>, passwordDraw: nat)
      returns (reply: CreateReply)
      requires Valid()
      requires |draws| >= MaxPinAttempts && forall i :: 0 <= i < |draws| ==> ValidDraw(draws[i])
      requires passwordDraw < PasswordRange
      modifies store
      ensures Valid() && store.sessions == old(store.sessions)
      ensures !SharedRoutes.ValidEventName(name) ==> reply == BadRequest("name") && unchanged(store)
      ensures SharedRoutes.ValidEventName(name) && !hostIdIsUuid ==>
        reply == BadRequest("hostId") && unchanged(store)
      ensures SharedRoutes.ValidEventName(name) && hostIdIsUuid ==>
        match FirstFreeFrom(Candidates(draws, MaxPinAttempts), old(store.UsedPins()), 0)
        case None =>
          reply == ServerError("Failed to generate unique PIN") && unchanged(store)
        case Some(k) =>
          var pin := PinFromDraw(draws[k]);
          var event := Event(old(store.nextEventId), pin, name, hostId, PasswordFromDraw(passwordDraw), true);
          && reply == Created(event, pin)
          && store.events == old(store.events)[event.id := event]
    {
      if !SharedRoutes.ValidEventName(name) {
        return BadRequest("name");
      }
      if !hostIdIsUuid {
        return BadRequest("hostId");
      }
      var pin, attempts, collides := GeneratePin(draws);
      if collides {
        return ServerError("Failed to generate unique PIN");
      }
      CandidateAt(draws, MaxPinAttempts, attempts - 1);
      var password := PasswordFromDraw(passwordDraw);
      var event := store.CreateEvent(pin, name, hostId, password);
      reply := Created(event, pin);
    }

    /** The room bookkeeping of a join: the room is created when absent, and a host
        joiner becomes its host socket. */
    method RecordJoin(room: string, socketId: string, isHost: bool)
      modifies this`rooms
      ensures rooms == old(rooms)[room := RoomAfterJoin(old(rooms), room, socketId, isHost)]
    {
      if room !in rooms {
        rooms := rooms[room := RoomState(None, None)];
      }
      if isHost {
        rooms := rooms[room := rooms[room].(hostSocketId := Some(socketId))];
      }
    }

    /** The part of `join_event` and the auto-join after the event is found. */
    method EnterRoom(socketId: string, event: Event, role: string, now: int)
      requires Valid()
      modifies this`rooms, this`outbox, store`sessions
      ensures Valid()
      ensures var room := RoomKey(event.id);
        && rooms == old(rooms)[room := RoomAfterJoin(old(rooms), room, socketId, role == "host")]
        && store.sessions == Joined(old(store.sessions), socketId, event.id, role, now)
        && outbox == old(outbox) + [
             JoinRoom(socketId, room),
             ToSocket(socketId, "joined", JoinedMsg(event.id)),
             ToRoom(room, "participant_update",
                    ParticipantUpdate(ActiveCount(store.sessions, event.id), TotalCount(store.sessions, event.id)))]
    {
      var room := RoomKey(event.id);
      outbox := outbox + [JoinRoom(socketId, room)];
      RecordJoin(room, socketId, role == "host");
      store.JoinSession(socketId, event.id, role, now);
      outbox := outbox + [ToSocket(socketId, "joined", JoinedMsg(event.id))];
      var active, total := ActiveCount(store.sessions, event.id), TotalCount(store.sessions, event.id);
      outbox := outbox + [ToRoom(room, "participant_update", ParticipantUpdate(active, total))];
    }

    /** `join_event {eventId, role}` at time `now`. An unknown event gets `"Event not
        found"` sent to the requester alone and changes nothing else. */
    method JoinEvent(socketId: string, eventId: int, role: string, now: int)
      requires Valid()
      modifies this`rooms, this`outbox, store`sessions
      ensures Valid()
      ensures eventId !in store.events ==>
        && rooms == old(rooms) && store.sessions == old(store.sessions)
        && outbox == old(outbox) + [ToSocket(socketId, "error", ErrorMsg("Event not found"))]
      ensures eventId in store.events ==>
        var room := RoomKey(eventId);
        && rooms == old(rooms)[room := RoomAfterJoin(old(rooms), room, socketId, role == "host")]
        && store.sessions == Joined(old(store.sessions), socketId, eventId, role, now)
        && outbox == old(outbox) + [
             JoinRoom(socketId, room),
             ToSocket(socketId, "joined", JoinedMsg(eventId)),
             ToRoom(room, "participant_update",
                    ParticipantUpdate(ActiveCount(store.sessions, eventId), TotalCount(store.sessions, eventId)))]
    {
      var found := store.GetEvent(eventId);
      if found.None? {
        outbox := outbox + [ToSocket(socketId, "error", ErrorMsg("Event not found"))];
        return;
      }
      EnterRoom(socketId, found.value, role, now);
    }

    /** The auto-join on connection, for a query naming event `eventId` and role
        `queryRole`. An unknown event is only logged. */
    method AutoJoin(socketId: string, eventId: int, queryRole: Option<string>, now: int)
      requires Valid()
      modifies this`rooms, this`outbox, store`sessions
      ensures Valid()
      ensures eventId !in store.events ==>
        rooms == old(rooms) && store.sessions == old(store.sessions) && outbox == old(outbox)
      ensures eventId in store.events ==>
        var room := RoomKey(eventId);
        var role := AutoJoinRole(queryRole);
        && rooms == old(rooms)[room := RoomAfterJoin(old(rooms), room, socketId, role == "host")]
        && store.sessions == Joined(old(store.sessions), socketId, eventId, role, now)
        && outbox == old(outbox) + [
             JoinRoom(socketId, room),
             ToSocket(socketId, "joined", JoinedMsg(eventId)),
             ToRoom(room, "participant_update",
                    ParticipantUpdate(ActiveCount(store.sessions, eventId), TotalCount(store.sessions, eventId)))]
    {
      var role := AutoJoinRole(queryRole);
      var found := store.GetEvent(eventId);
      if found.None? {
        return;
      }
      EnterRoom(socketId, found.value, role, now);
    }

    /** `host_effect {eventId, effect}`: accepted only from the room's registered host
        socket; then recorded and broadcast to the room exactly as received. */
    method HostEffect(socketId: string, eventId: int, effect: EffectPayload)
      modifies this`rooms, this`outbox
      ensures var room := RoomKey(eventId);
        if Authorized(old(rooms), room, socketId) then
          && rooms == old(rooms)[room := old(rooms)[room].(lastEffect := Some(effect))]
          && outbox == old(outbox) + [ToRoom(room, "effect", EffectMsg(effect))]
        else
          rooms == old(rooms) && outbox == old(outbox)
    {
      var room := RoomKey(eventId);
      if room in rooms && rooms[room].hostSocketId == Some(socketId) {
        rooms := rooms[room := rooms[room].(lastEffect := Some(effect))];
        outbox := outbox + [ToRoom(room, "effect", EffectMsg(effect))];
      }
    }

    /** `disconnect`: the session becomes inactive; nothing is broadcast. */
    method Disconnect(socketId: string)
      requires Valid()
      modifies store`sessions
      ensures Valid()
      ensures store.sessions == Left(old(store.sessions), socketId)
    {
      store.LeaveSession(socketId);
    }

    /** `time:sync`: answers the ack callback, when there is one, with the server's
        monotonic and wall-clock readings. */
    method TimeSync(socketId: string, perfNow: real, epochNow: int, hasCallback: bool)
      modifies this`outbox
      ensures outbox == old(outbox) + if hasCallback then [Ack(socketId, SyncAck(perfNow, epochNow))] else []
    {
      if hasCallback {
        outbox := outbox + [Ack(socketId, SyncAck(perfNow, epochNow))];
      }
    }
  }
}
