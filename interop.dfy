/** How the pieces meet: what the web client, the relay server and the mobile app make
    of each other's messages, as the code stands. Each lemma states one mismatch between
    two files and what follows from it. */
module Interop {
  import opened Wrappers
  import opened Text
  import opened JsNumber
  import opened Schema
  import Relay
  import SocketClient
  import HomePage
  import MobileHome
  import SharedRoutes

  // ------------------------------------------------------------ effect event name

  /** Every effect the web host emits goes out on an event name for which the server
      registers no handler; the server's effect handler listens on `host_effect`. */
  lemma EffectEventUnhandled(emit: SocketClient.ClientEmit)
    requires emit.body.EffectBody?
    requires emit.event == "effect"
    ensures Relay.HandlerFor(emit.event) == Relay.NoHandler
    ensures Relay.HandlerFor("host_effect") == Relay.OnHostEffect
  {
  }

  // ------------------------------------------------------------ sync reply fields

  /** The server's `time:sync` ack as the web client reads it: an object with the
      fields `serverPerf` and `serverEpoch`. */
  function AckAsReply(msg: Relay.ServerMsg): (r: SocketClient.Reply)
    requires msg.SyncAck?
    ensures r.Keys == {"serverPerf", "serverEpoch"}
  {
    map["serverPerf" := msg.serverPerf, "serverEpoch" := msg.serverEpoch as real]
  }

  /** One sync round against the server leaves the client's offset NaN, whatever it
      was before, and it stays NaN through every later round. */
  lemma SyncRoundGivesNaN(prev: Num, start: int, end: int, perfNow: real, epochNow: int, raw: Num)
    ensures var reply := AckAsReply(Relay.SyncAck(perfNow, epochNow));
      var latency := SocketClient.Latency(start, end);
      SocketClient.Smooth(prev, SocketClient.RawOffset(SocketClient.Field(reply, "serverReceiveTime"), start, latency)) == NaN
    ensures SocketClient.Smooth(NaN, raw) == NaN
  {
  }

  /** With a NaN offset, every received effect fires at once, and the host's default
      `startAt` is NaN. */
  lemma NaNOffsetConsequences(effect: EffectPayload, now: int)
    ensures SocketClient.EffectDue(effect, now, NaN) == now
    ensures SocketClient.DefaultStartAt(now, NaN) == NaN
  {
  }

  // ------------------------------------------------------------ PIN shape

  /** No value of the web PIN field equals a server-generated PIN, so the web join
      form can never submit one; the field keeps only its first four digits. */
  lemma WebCannotSubmitServerPin(d: Relay.PinDraw, typed: string)
    requires Relay.ValidDraw(d)
    ensures HomePage.SanitizeWebPin(typed) != Relay.PinFromDraw(d)
    ensures !HomePage.JoinablePin(Relay.PinFromDraw(d))
    ensures HomePage.SanitizeWebPin(Relay.PinFromDraw(d)) == Relay.PinFromDraw(d)[..4]
  {
    var pin := Relay.PinFromDraw(d);
    Relay.PinFromDrawShape(d);
    assert pin == pin[..8] + [pin[8]];
    DigitsThenLetter(pin[..8], pin[8]);
  }

  /** Keeping only the digits of eight digits and a letter gives the eight digits. */
  lemma DigitsThenLetter(digits: string, letter: char)
    requires |digits| == 8 && AllDigits(digits) && IsUpper(letter)
    ensures HomePage.KeepDigits(digits + [letter]) == digits
  {
    HomePage.KeepDigitsAppend(digits, [letter]);
    assert HomePage.KeepDigits([letter]) == [];
  }

  /** The mobile PIN field keeps a server PIN as it is, accepts its length, and restores
      it when its letter is typed in lower case. */
  lemma MobileAcceptsServerPin(d: Relay.PinDraw)
    requires Relay.ValidDraw(d)
    ensures MobileHome.SanitizeMobilePin(Relay.PinFromDraw(d)) == Relay.PinFromDraw(d)
    ensures |Relay.PinFromDraw(d)| == MobileHome.MobilePinLength
    ensures var pin := Relay.PinFromDraw(d);
      MobileHome.SanitizeMobilePin(pin[..8] + [(pin[8] as int + 32) as char]) == pin
  {
    var pin := Relay.PinFromDraw(d);
    Relay.PinFromDrawShape(d);
    MobileKeepsPinShape(pin);
  }

  /** The mobile sanitiser keeps a string of the PIN shape, and upper-cases its letter
      back when it was typed in lower case. */
  lemma MobileKeepsPinShape(pin: string)
    requires Relay.PinShape(pin)
    ensures MobileHome.SanitizeMobilePin(pin) == pin
    ensures MobileHome.SanitizeMobilePin(pin[..8] + [(pin[8] as int + 32) as char]) == pin
  {
    var lower := pin[..8] + [(pin[8] as int + 32) as char];
    assert forall i :: 0 <= i < 8 ==> IsDigit(pin[..8][i]);
    assert forall i :: 0 <= i < 8 ==> pin[i] == pin[..8][i];
    assert forall i :: 0 <= i < 9 ==> IsAsciiAlnum(pin[i]);
    assert forall i :: 0 <= i < 9 ==> IsAsciiAlnum(lower[i]);
    var a, b := MobileHome.SanitizeMobilePin(pin), MobileHome.SanitizeMobilePin(lower);
    assert |a| == 9 && |b| == 9;
    assert forall i :: 0 <= i < 9 ==> a[i] == UpperAscii(pin[i]) == pin[i];
    assert forall i :: 0 <= i < 8 ==> b[i] == UpperAscii(lower[i]) == pin[i];
    assert b[8] == UpperAscii(lower[8]) == pin[8];
  }

  // ------------------------------------------------------------ dashboard hook call

  /** The dashboard reads `participants` from the hook, which returns no such value.
      `participants` is therefore `undefined`, and once the event has loaded the page
      reads `participants.activeNow` without a guard, so rendering throws. None of the
      dashboard's controls ever appear, and `HostDashboard.Dashboard.HandleEffect` and
      `SliderChange` model handlers that the page cannot reach as written. */
  lemma ParticipantsNotReturned()
    ensures "participants" !in SocketClient.HookResultFields
  {
  }

  // ------------------------------------------------------------ route registration

  /** The server registers a host-login route from `api.events.hostLogin.path`, but
      `api.events` declares no `hostLogin`. Reading `.path` of `undefined` throws, so
      `registerRoutes` stops before the Socket.IO server is created, and none of the
      socket handlers `Relay.RelayServer` models are registered as written. */
  lemma HostLoginNotDeclared()
    ensures "hostLogin" !in SharedRoutes.EventRouteNames
  {
  }
}
