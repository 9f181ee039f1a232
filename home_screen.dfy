/** The mobile landing screen (mobile/screens/HomeScreen.tsx): the PIN field's
    sanitiser and the join and rejoin handlers. Navigation and alerts are recorded. */
module MobileHome {
  import opened Text

  /** Length of the PIN the join handler accepts: 8 digits and a letter. */
  const MobilePinLength: nat := 9

  /** The PIN field's `maxLength`: the text input keeps at most this many characters of
      what is typed or pasted before `onChangeText` sees it. */
  const PinFieldMaxLength: nat := 9

  /** The text the field passes to `onChangeText` when `typed` is entered: cut to
      `maxLength`. */
  function FieldText(typed: string): (r: string)
    ensures |r| == if |typed| <= PinFieldMaxLength then |typed| else PinFieldMaxLength
    ensures r <= typed
  {
    if |typed| <= PinFieldMaxLength then typed else typed[..PinFieldMaxLength]
  }

  /** `s.replace(/[^0-9A-Za-z]/g, '')`. */
  function KeepAlnum(s: string): (r: string)
    ensures |r| <= |s|
    ensures forall i :: 0 <= i < |r| ==> IsAsciiAlnum(r[i])
    ensures (forall i :: 0 <= i < |s| ==> IsAsciiAlnum(s[i])) ==> r == s
    ensures |s| == 1 ==> r == if IsAsciiAlnum(s[0]) then s else []
  {
    if s == [] then []
    else if IsAsciiAlnum(s[0]) then [s[0]] + KeepAlnum(s[1..])
    else KeepAlnum(s[1..])
  }

  /** The filter works piece by piece: together with the one-character case above, this
      says every letter and digit is kept, in order, and nothing else. */
  lemma {:induction false} KeepAlnumAppend(a: string, b: string)
    ensures KeepAlnum(a + b) == KeepAlnum(a) + KeepAlnum(b)
  {
    if a == [] {
      assert a + b == b;
    } else {
      assert (a + b)[0] == a[0] && (a + b)[1..] == a[1..] + b;
      KeepAlnumAppend(a[1..], b);
    }
  }

  /** `toUpperCase` on a string of ASCII letters and digits. */
  function UpperAll(s: string): (r: string)
    ensures |r| == |s|
    ensures forall i :: 0 <= i < |s| ==> r[i] == UpperAscii(s[i])
  {
    if s == [] then [] else [UpperAscii(s[0])] + UpperAll(s[1..])
  }

  /** A character of a sanitised PIN: `[0-9A-Z]`. */
  predicate PinChar(c: char) {
    IsDigit(c) || IsUpper(c)
  }

  /** The PIN field's `onChangeText`: letters and digits only, the first nine, in
      upper case. */
  function SanitizeMobilePin(s: string): (r: string)
    ensures |r| <= MobilePinLength
    ensures forall i :: 0 <= i < |r| ==> PinChar(r[i])
    ensures |r| == if |KeepAlnum(s)| <= MobilePinLength then |KeepAlnum(s)| else MobilePinLength
    ensures forall i :: 0 <= i < |r| ==> r[i] == UpperAscii(KeepAlnum(s)[i])
  {
    var a := KeepAlnum(s);
    UpperAll(if |a| <= MobilePinLength then a else a[..MobilePinLength])
  }

  /** Sanitising a sanitised PIN changes nothing. */
  lemma SanitizeMobilePinIdempotent(s: string)
    ensures SanitizeMobilePin(SanitizeMobilePin(s)) == SanitizeMobilePin(s)
  {
    var r := SanitizeMobilePin(s);
    assert KeepAlnum(r) == r;
    assert UpperAll(r) == r;
  }

  /** The filter shortens any text that holds a character outside `[0-9A-Za-z]`. */
  lemma {:induction false} KeepAlnumDrops(s: string)
    requires exists i :: 0 <= i < |s| && !IsAsciiAlnum(s[i])
    ensures |KeepAlnum(s)| < |s|
  {
    if IsAsciiAlnum(s[0]) {
      var i :| 0 <= i < |s| && !IsAsciiAlnum(s[i]);
      assert s[1..][i - 1] == s[i];
      KeepAlnumDrops(s[1..]);
    }
  }

  /** A separator among the first nine characters typed or pasted uses up one of the
      field's places, so the stored PIN is too short to join: pasting "1234-5678A"
      stores "12345678". */
  lemma PastedSeparatorRefused(typed: string)
    requires exists i :: 0 <= i < |typed| && i < PinFieldMaxLength && !IsAsciiAlnum(typed[i])
    ensures |SanitizeMobilePin(FieldText(typed))| < MobilePinLength
  {
    var i :| 0 <= i < |typed| && i < PinFieldMaxLength && !IsAsciiAlnum(typed[i]);
    var t := FieldText(typed);
    assert t[i] == typed[i];
    KeepAlnumDrops(t);
  }

  datatype Screen = Attendee(pin: string) | Host(hostId: string)

  datatype Alert = InvalidPinAlert | NoHostIdAlert

  class HomeScreen {
    var pin: string
    var hostId: string
    var navigations: seq<Screen>
    var alerts: seq<Alert>

    constructor ()
      ensures pin == "" && hostId == "" && navigations == [] && alerts == []
    {
      pin := "";
      hostId := "";
      navigations := [];
      alerts := [];
    }

    /** The PIN field with `typed` entered: the input cuts it to `maxLength`, then
        `onChangeText` stores the sanitised text. */
    method PinInput(typed: string)
      modifies this`pin
      ensures pin == SanitizeMobilePin(FieldText(typed))
    {
      pin := SanitizeMobilePin(FieldText(typed));
    }

    /** The host id field's `onChangeText`: stored as typed. */
    method HostIdInput(typed: string)
      modifies this`hostId
      ensures hostId == typed
    {
      hostId := typed;
    }

    /** `handleJoinEvent`: only a nine-character PIN opens the attendee screen. */
    method HandleJoinEvent()
      modifies this`navigations, this`alerts
      ensures |pin| != MobilePinLength ==> navigations == old(navigations) && alerts == old(alerts) + [InvalidPinAlert]
      ensures |pin| == MobilePinLength ==> navigations == old(navigations) + [Attendee(pin)] && alerts == old(alerts)
    {
      if |pin| != MobilePinLength {
        alerts := alerts + [InvalidPinAlert];
        return;
      }
      navigations := navigations + [Attendee(pin)];
    }

    /** `handleRejoinHost`: an empty host id is refused. */
    method HandleRejoinHost()
      modifies this`navigations, this`alerts
      ensures hostId == "" ==> navigations == old(navigations) && alerts == old(alerts) + [NoHostIdAlert]
      ensures hostId != "" ==> navigations == old(navigations) + [Host(hostId)] && alerts == old(alerts)
    {
      if hostId == "" {
        alerts := alerts + [NoHostIdAlert];
        return;
      }
      navigations := navigations + [Host(hostId)];
    }
  }
}
