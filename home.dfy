/** The web landing page (client/src/pages/Home.tsx): the PIN field's sanitiser, the
    join and create handlers' checks, and the Cancel button. The two mutations are
    recorded as calls; what they do on the network is not part of this page. */
module HomePage {
  import opened Text
  import opened SharedRoutes

  /** Length of the PIN the join form accepts. */
  const WebPinLength: nat := 4

  /** `s.replace(/\D/g, '')`: only the ASCII digits, in order. */
  function KeepDigits(s: string): (r: string)
    ensures AllDigits(r) && |r| <= |s|
    ensures AllDigits(s) ==> r == s
    ensures |s| == 1 ==> r == if IsDigit(s[0]) then s else []
  {
    if s == [] then []
    else if IsDigit(s[0]) then [s[0]] + KeepDigits(s[1..])
    else KeepDigits(s[1..])
  }

  /** The filter works piece by piece: together with the one-character case above, this
      says every digit is kept, in order, and nothing else. */
  lemma {:induction false} KeepDigitsAppend(a: string, b: string)
    ensures KeepDigits(a + b) == KeepDigits(a) + KeepDigits(b)
  {
    if a == [] {
      assert a + b == b;
    } else {
      assert (a + b)[0] == a[0] && (a + b)[1..] == a[1..] + b;
      KeepDigitsAppend(a[1..], b);
    }
  }

  /** The PIN field's `onChange`: digits only, then the first four. */
  function SanitizeWebPin(s: string): (r: string)
    ensures AllDigits(r) && |r| <= WebPinLength && |r| <= |KeepDigits(s)|
    ensures |r| == if |KeepDigits(s)| <= WebPinLength then |KeepDigits(s)| else WebPinLength
    ensures r == KeepDigits(s)[..|r|]
    ensures |KeepDigits(s)| >= WebPinLength ==> |r| == WebPinLength
  {
    var d := KeepDigits(s);
    if |d| <= WebPinLength then d else d[..WebPinLength]
  }

  /** Sanitising a sanitised PIN changes nothing. */
  lemma SanitizeWebPinIdempotent(s: string)
    ensures SanitizeWebPin(SanitizeWebPin(s)) == SanitizeWebPin(s)
  {
  }

  /** `handleJoin`'s check. */
  predicate JoinablePin(pin: string) {
    |pin| == WebPinLength
  }

  /** The body of `createEvent.mutate`. */
  datatype CreateInput = CreateInput(name: string, hostId: string)

  /** A destructive toast, by its title. */
  datatype Toast = InvalidPin | NameRequired

  class Home {
    var pin: string
    var showCreateForm: bool
    var eventName: string
    /** PINs passed to `joinEvent.mutate`. */
    var joinCalls: seq<string>
    /** Inputs passed to `createEvent.mutate`. */
    var createCalls: seq<CreateInput>
    var toasts: seq<Toast>

    /** The field's `maxLength` of 100 bounds the typed name. */
    ghost predicate Valid()
      reads this
    {
      |eventName| <= NameMax
    }

    constructor ()
      ensures Valid()
      ensures pin == "" && !showCreateForm && eventName == ""
      ensures joinCalls == [] && createCalls == [] && toasts == []
    {
      pin := "";
      showCreateForm := false;
      eventName := "";
      joinCalls := [];
      createCalls := [];
      toasts := [];
    }

    /** The PIN field's `onChange` with the field now reading `typed`. */
    method PinInput(typed: string)
      modifies this`pin
      ensures pin == SanitizeWebPin(typed)
    {
      pin := SanitizeWebPin(typed);
    }

    /** The name field's `onChange`; the field cannot hold more than 100 characters. */
    method NameInput(typed: string)
      requires |typed| <= NameMax
      modifies this`eventName
      ensures Valid() && eventName == typed
    {
      eventName := typed;
    }

    /** "Host an Event". */
    method ShowForm()
      modifies this`showCreateForm
      ensures showCreateForm
    {
      showCreateForm := true;
    }

    /** `handleJoin`: a PIN of any length but four raises a toast and calls nothing. */
    method HandleJoin()
      modifies this`joinCalls, this`toasts
      ensures !JoinablePin(pin) ==> joinCalls == old(joinCalls) && toasts == old(toasts) + [InvalidPin]
      ensures JoinablePin(pin) ==> joinCalls == old(joinCalls) + [pin] && toasts == old(toasts)
    {
      if |pin| != WebPinLength {
        toasts := toasts + [InvalidPin];
        return;
      }
      joinCalls := joinCalls + [pin];
    }

    /** `handleCreate` with `hostId` the fresh UUID: a name that trims to nothing raises
        a toast; otherwise the trimmed name is submitted. */
    method HandleCreate(hostId: string)
      modifies this`createCalls, this`toasts
      ensures Trim(eventName) == [] ==> createCalls == old(createCalls) && toasts == old(toasts) + [NameRequired]
      ensures Trim(eventName) != [] ==>
        createCalls == old(createCalls) + [CreateInput(Trim(eventName), hostId)] && toasts == old(toasts)
    {
      if Trim(eventName) == [] {
        toasts := toasts + [NameRequired];
        return;
      }
      createCalls := createCalls + [CreateInput(Trim(eventName), hostId)];
    }

    /** Cancel: the form closes and the name is cleared. */
    method Cancel()
      modifies this`showCreateForm, this`eventName
      ensures Valid() && !showCreateForm && eventName == ""
    {
      showCreateForm := false;
      eventName := "";
    }
  }

  /** A name the page submits always meets the server's 1..100 bound. */
  lemma SubmittedNameValid(eventName: string)
    requires |eventName| <= NameMax
    requires Trim(eventName) != []
    ensures ValidEventName(Trim(eventName))
  {
    TrimShape(eventName);
  }
}
