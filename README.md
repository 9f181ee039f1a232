# TorchSync light-show core, modelled in Dafny

TorchSync turns a crowd's phones into one light show. A host phone triggers flashlight
effects (torch on, torch off, strobe, pulse, colour wave), a relay server fans them out
to the room of an event, and attendee phones play them at a shared start time. This
project models the small sequential rules underneath and proves properties about them:

- **Relay server** (`relay.dfy`, `storage.dfy`). This covers the `event-<id>` room map
  with its `lastEffect` and `hostSocketId` fields, and the `join_event`, auto-join,
  `host_effect`, `disconnect` and `time:sync` handlers. It also covers the
  session table with its active and total counts, and the event-creation handler with its
  PIN retry loop and password. Socket.IO calls are appended to an outbox, and each handler
  is one atomic method. Random draws are inputs.
- **Web socket hook** (`use_socket.dfy`). This covers the latency and clock-offset
  arithmetic of one sync probe, the 0.8/0.2 smoothing, the clamped delay before a received
  effect is applied, and the host's `emitEffect` payload and guard.
- **Effect players**. `attendee_mode.dfy` models the web attendee's `runEffect` as a
  producer of torch and screen outputs stamped with their times. `host_screen.dfy` models
  the mobile host's toggle sequences, and `attendee_screen.dfy` the mobile attendee's
  reaction to `lastEffect`. `host_dashboard.dfy` models the web host's control state.
- **String rules** (`shared_routes.dfy`, `home.dfy`, `home_screen.dfy`). These cover
  `buildUrl`, the event-name bounds, and the web and mobile PIN sanitisers and join checks.
- **Cross-file behaviour** (`interop.dfy`). These lemmas state what happens where two
  files disagree.

Supporting modules: `wrappers.dfy` (Option), `text.dfy` (decimal spelling, `padStart`,
`indexOf`, `trim`, ASCII upper case), `js_number.dfy` (JavaScript numbers as a real or
NaN, and how a number becomes a timer delay), `schema.dfy` (the shared types).

Timers are explicit. `Date.now()` and `performance.now()` are integer or real
millisecond parameters. A pending `setTimeout` is an entry with its due time, and the
caller chooses which pending callback fires next. A timer delay is computed as a browser
does: NaN becomes 0, the value is truncated toward zero and wrapped to 32 bits, and a
negative delay becomes 0.

The model follows the code as written. Where two files disagree, the disagreement is
kept and stated as a lemma:

- The web host emits effects on `'effect'`, but the server's handler is for `'host_effect'`.
- The web client reads `serverReceiveTime` from the sync ack, but the server answers
  `{serverPerf, serverEpoch}`. After one round the offset is NaN and stays NaN. Every
  received effect then fires at once, and the host's default `startAt` is NaN.
- The web join form takes 4-digit PINs, but the server generates 8 digits plus a letter.
  No value of the web PIN field can equal a generated PIN. The mobile field keeps such a
  PIN unchanged.
- The web dashboard reads `participants` from the hook, which never returns it. Once
  the event has loaded, the page reads `participants.activeNow` without a guard
  (client/src/pages/HostDashboard.tsx:105), so rendering throws. None of the dashboard's
  controls appear, and the modelled `handleEffect` and slider handlers cannot be reached
  from the page as written.
- The server registers `api.events.hostLogin.path` (server/routes.ts:92), but
  `api.events` declares only `create`, `join`, `get` and `stats` (shared/routes.ts:16-50).
  Reading `.path` of `undefined` throws, so `registerRoutes` stops before the Socket.IO
  server is created (server/routes.ts:121), and none of the socket handlers are
  registered. The relay model describes those handlers as if registration had succeeded.

Other behaviour of the code that the model keeps:

- The server broadcasts an effect exactly as received and never fills in `startAt`
  (server/routes.ts:211-213).
- `disconnect` only marks the session inactive. It sends no `participant_update`, so
  the room's counts are not refreshed until the next join (server/routes.ts:220-223).
- client/src/pages/HostDashboard.tsx:207 says effects stop automatically after 60
  seconds. No player implements such a stop.
- The web attendee's effect hook depends on `toggle` as well as on `lastEffect` and the
  permission (client/src/pages/AttendeeMode.tsx:102). `toggle` is rebuilt whenever the
  torch's on/off state changes (client/src/hooks/use-torch.ts:37-52). With permission,
  every torch switch that changes that state therefore runs the same effect again. A
  pulse's switch-off is followed by a fresh switch-on, so the pulse never settles. A strobe
  tick that switches the torch restarts the strobe with a new interval and a new
  auto-stop, and the earlier auto-stop no longer clears the live interval.
  AttendeeMode.PulseRelights and AttendeeMode.StrobeOutlivesFirstStop show both.

## Model

| member | source | states |
|---|---|---|
| Text.NatToString | server/routes.ts:28 | `String(n)` is a non-empty digit string without leading zero that reads back as `n` |
| Text.IntToString | server/routes.ts:148 | `String(i)` reads back as `i`, with a leading `-` exactly for negatives |
| Text.NatToStringLength | server/routes.ts:28 | a number below 10^k is spelled with at most k digits |
| Text.NatToStringInjective | server/routes.ts:28 | different numbers are spelled differently |
| Text.PadStart | server/routes.ts:28 | `padStart` keeps the string as a suffix, fills the front, and has length max(len, width) |
| Text.PaddedNumeralValue | server/routes.ts:41 | a zero-padded numeral reads back as the number it came from |
| Text.IndexOf | shared/routes.ts:63 | the first occurrence of the pattern, and none exactly when it occurs nowhere |
| Text.UpperAscii | mobile/screens/HomeScreen.tsx:102 | upper-casing maps `a`-`z` to `A`-`Z` and leaves every other character alone |
| Text.TrimStart | client/src/pages/Home.tsx:22 | removes exactly the leading white space |
| Text.TrimEnd | client/src/pages/Home.tsx:22 | removes exactly the trailing white space |
| Text.TrimEmpty | client/src/pages/Home.tsx:22 | a name trims to empty exactly when all of it is white space |
| Text.TrimShape | client/src/pages/Home.tsx:31-34 | the trimmed name is a contiguous part of the name with no white space at either end |
| JsNumber.Add | client/src/hooks/use-socket.ts:40 | a sum is NaN when either operand is NaN, and the real sum otherwise |
| JsNumber.Sub | client/src/hooks/use-socket.ts:41 | a difference is NaN when either operand is NaN, and the real difference otherwise |
| JsNumber.Scale | client/src/hooks/use-socket.ts:65 | scaling keeps NaN and multiplies a finite value |
| JsNumber.MaxZero | client/src/hooks/use-socket.ts:41 | `Math.max(0, x)` is NaN for NaN; otherwise it is at least 0 and at least x, and equals one of them |
| JsNumber.Trunc | client/src/hooks/use-socket.ts:44-46 | a timer delay is truncated toward zero |
| JsNumber.ToInt32 | client/src/hooks/use-socket.ts:44-46 | a timer delay wraps into the signed 32-bit range modulo 2^32 and is kept when already in it |
| JsNumber.TimerDelay | client/src/hooks/use-socket.ts:44-46 | a NaN or negative delay waits 0 ms; a delay in [0, 2^31) waits its whole milliseconds |
| JsNumber.TimerDelayWhole | client/src/pages/AttendeeMode.tsx:67 | a whole delay such as 200 ms is used as it is |
| Storage.Joined | server/storage.ts:32-48 | a new session id is inserted active; a known one is reactivated with a fresh heartbeat, keeping its event and role; other rows are unchanged |
| Storage.Left | server/storage.ts:50-55 | that session alone becomes inactive; an unknown id changes nothing |
| Storage.ActiveAtMostTotal | server/storage.ts:57-69 | for every event, the active count is at most the total count |
| Storage.LeaveKeepsTotal | server/storage.ts:50-69 | leaving never changes any event's total count |
| Storage.LeaveActiveCount | server/storage.ts:50-62 | leaving lowers the active count of the session's own event by one if it was active, and no other count |
| Storage.JoinKeepsOrGrowsTotal | server/storage.ts:32-69 | joining never lowers any event's total count |
| Storage.JoinNewCounts | server/storage.ts:33-39 | joining with a new id adds one to that event's total and active counts |
| Storage.RejoinKeepsEvent | server/storage.ts:40-46 | a rejoining session becomes active under the event it was first stored with, whatever event the new call names |
| Storage.SessionStore.constructor | server/storage.ts:16 | the store starts with no events and no sessions |
| Storage.SessionStore.GetEvent | server/storage.ts:27-30 | `getEvent` finds exactly the stored events |
| Storage.SessionStore.CreateEvent | server/storage.ts:17-20 | the new event gets the next serial id, starts active, and is the only row added |
| Storage.SessionStore.JoinSession | server/storage.ts:32-48 | the sessions table becomes `Joined` of the old one |
| Storage.SessionStore.LeaveSession | server/storage.ts:50-55 | the sessions table becomes `Left` of the old one |
| SharedRoutes.SubstitutionPlain | shared/routes.ts:64 | a replacement without `$` is inserted as it is |
| SharedRoutes.ReplaceFirst | shared/routes.ts:64 | `replace` with a string pattern changes only the first occurrence, and nothing when there is none |
| SharedRoutes.BuildUrl | shared/routes.ts:59-69 | without params the path is returned; otherwise each entry in order fills its placeholder |
| SharedRoutes.FillNoEntries | shared/routes.ts:59-68 | an empty record leaves the path unchanged |
| SharedRoutes.FillOneAbsent | shared/routes.ts:63 | a key whose placeholder is absent leaves the url unchanged |
| SharedRoutes.FillOneFirstOccurrence | shared/routes.ts:62-65 | only the first `:key` is replaced by `String(value)` |
| SharedRoutes.FillSingle | shared/routes.ts:62-65 | a path whose first `:` starts the one given key's placeholder gets that placeholder replaced by `String(value)` |
| SharedRoutes.GetPathFill | shared/routes.ts:39 | `buildUrl('/api/events/:id', {id})` is `'/api/events/'` followed by `String(id)`, e.g. `'/api/events/7'` for 7 |
| SharedRoutes.PrefixMatch | shared/routes.ts:63-64 | key `id` also fills the front of `:idx` |
| SharedRoutes.DollarPattern | shared/routes.ts:64 | a `$&` in a value brings the placeholder back |
| Relay.PinFromDrawShape | server/routes.ts:28-31 | a candidate PIN is 8 digits and a capital letter, and its digits and letter give back the draw |
| Relay.PinFromDrawInjective | server/routes.ts:28-31 | different draws give different PINs |
| Relay.PasswordFromDraw | server/routes.ts:41 | the password is 4 digits reading back as the draw |
| Relay.FirstFreeFrom | server/routes.ts:26-34 | the candidate the loop settles on is the first free one of the ten, or none when all ten collide |
| Relay.FirstFreeAfter | server/routes.ts:26-38 | the loop's exit condition picks out exactly that candidate |
| Relay.HandlerFor | server/routes.ts:177-234 | the server handles only `join_event`, `host_effect`, `disconnect` and `time:sync` |
| Relay.AutoJoinRole | server/routes.ts:140 | the auto-join role is host exactly for a query role of `'host'`, and attendee otherwise |
| Relay.RoomAfterJoin | server/routes.ts:184-194 | an absent room is created empty and an existing one kept; a host join overwrites the host socket and an attendee join leaves it |
| Relay.LastHostWins | server/routes.ts:191-194 | the last host to join is the only accepted sender; an earlier host is rejected |
| Relay.JoinTouchesOneRoom | server/routes.ts:187-189 | a join changes no other room and removes none |
| Relay.RelayServer.constructor | server/routes.ts:127 | the room map and the outbox start empty |
| Relay.RelayServer.GeneratePin | server/routes.ts:22-34 | at most ten candidates are drawn; the PIN is the first free one, or the tenth when all collide |
| Relay.RelayServer.CreateEvent | server/routes.ts:17-64 | a bad name or host id gives 400 and stores nothing; all ten collisions give 500; otherwise the event is stored with that PIN and password |
| Relay.RelayServer.RecordJoin | server/routes.ts:187-194 | the room map changes only at the joined room, which becomes `RoomAfterJoin` of the old map |
| Relay.RelayServer.EnterRoom | server/routes.ts:184-201 | the socket joins the room, the room is created or kept, the host is recorded, the session is joined, then `joined` and `participant_update` with the new counts are sent |
| Relay.RelayServer.JoinEvent | server/routes.ts:177-205 | an unknown event sends `"Event not found"` to the requester only and changes nothing else; a known one enters the room |
| Relay.RelayServer.AutoJoin | server/routes.ts:133-171 | an unknown event changes nothing; a known one enters the room with the derived role |
| Relay.RelayServer.HostEffect | server/routes.ts:207-218 | accepted exactly from the room's host socket, then recorded and broadcast unchanged, with no `startAt` filled in; otherwise nothing changes and nothing is sent |
| Relay.RelayServer.Disconnect | server/routes.ts:220-223 | only the session becomes inactive; nothing is broadcast |
| Relay.RelayServer.TimeSync | server/routes.ts:226-234 | the ack carries the server's `performance.now()` and `Date.now()`, and is sent only when there is a callback |
| SocketClient.Latency | client/src/hooks/use-socket.ts:53-55 | latency is half the round trip, and non-negative when the reply comes no earlier than the probe |
| SocketClient.Field | client/src/hooks/use-socket.ts:61 | a missing reply field reads as NaN in arithmetic |
| SocketClient.RawOffset | client/src/hooks/use-socket.ts:61-62 | start + latency + offset equals the server time, and a NaN server time gives a NaN offset |
| SocketClient.Smooth | client/src/hooks/use-socket.ts:65 | the new offset lies between the previous one and the sample, 0.8 of the old distance from the sample; NaN absorbs |
| SocketClient.FirstSampleNotSeeded | client/src/hooks/use-socket.ts:14 | from the initial 0, one sample r gives 0.2 r |
| SocketClient.SteadySamples | client/src/hooks/use-socket.ts:65 | with a steady true offset r, n rounds from 0 give r - r * 0.8^n |
| SocketClient.StepBound | client/src/hooks/use-socket.ts:65 | one smoothing step shrinks the distance to the true offset by 0.8, up to the sample's jitter share |
| SocketClient.JitterBound | client/src/hooks/use-socket.ts:65 | with samples within j of r, after n rounds the offset is within \|r\| * 0.8^n + j of r |
| SocketClient.FireDelay | client/src/hooks/use-socket.ts:40-41 | the delay is NaN only for a NaN input, never negative, 0 once `startAt` has passed, and the remaining time otherwise |
| SocketClient.EffectDue | client/src/hooks/use-socket.ts:38-47 | a received effect never fires before it arrives |
| SocketClient.EffectDueIgnoresKind | client/src/hooks/use-socket.ts:38-47 | every type, TORCH_OFF included, gets the same delay |
| SocketClient.EffectDueCases | client/src/hooks/use-socket.ts:40-46 | a past or NaN start fires at once; a future one fires after the whole milliseconds remaining |
| SocketClient.DefaultStartAt | client/src/hooks/use-socket.ts:79-80 | the default start is now + offset + 150, and NaN when the offset is NaN |
| SocketClient.BuildPayload | client/src/hooks/use-socket.ts:82-86 | every field present in the options, `type` and `startAt` included, wins over the default |
| SocketClient.SocketHook.constructor | client/src/hooks/use-socket.ts:10-26 | no socket for a zero event id; offset, latency and last effect start at 0, 0 and null, with no delivery yet |
| SocketClient.SocketHook.OnConnectionChange | client/src/hooks/use-socket.ts:28-36 | `isConnected` follows the connect and disconnect events |
| SocketClient.SocketHook.SendProbe | client/src/hooks/use-socket.ts:50-52 | each interval tick emits `time:sync` with the send time, only when a socket exists |
| SocketClient.SocketHook.OnSyncReply | client/src/hooks/use-socket.ts:52-66 | latency becomes half the round trip, and the offset is smoothed toward the raw offset read from `serverReceiveTime` |
| SocketClient.SocketHook.OnEffect | client/src/hooks/use-socket.ts:38-47 | each received effect arms one delayed `lastEffect` update due at `EffectDue` |
| SocketClient.SocketHook.FirePending | client/src/hooks/use-socket.ts:44-46 | a fired update sets `lastEffect` to that effect as a new delivery and disarms it |
| SocketClient.SocketHook.EmitEffect | client/src/hooks/use-socket.ts:75-91 | a no-op without a socket or outside the host role; otherwise `lastEffect` is set to the payload, as a new delivery, before it is emitted on `'effect'` |
| AttendeeMode.TickEvery | client/src/pages/AttendeeMode.tsx:75-86 | a strobe ticks every floor(500 / frequency) ms, and every 0 ms at frequency 0 |
| AttendeeMode.DefaultTickEvery | client/src/pages/AttendeeMode.tsx:50 | the default 5 Hz ticks every 100 ms |
| AttendeeMode.TickOutput | client/src/pages/AttendeeMode.tsx:79-86 | tick k happens k periods after the start, on the torch with permission and on the screen without, and lights exactly when k is odd |
| AttendeeMode.TicksAlternate | client/src/pages/AttendeeMode.tsx:78-80 | the first tick lights and consecutive ticks alternate |
| AttendeeMode.LitTicksCount | client/src/pages/AttendeeMode.tsx:78-86 | of the first n ticks, (n + 1) / 2 light |
| AttendeeMode.TorchOffEffect | client/src/pages/AttendeeMode.tsx:52-56 | TORCH_OFF turns the torch off, clears the screen, and arms nothing |
| AttendeeMode.TorchOnEffect | client/src/pages/AttendeeMode.tsx:58-61 | TORCH_ON lights the torch with permission and the screen in `color` without, with no switch-off |
| AttendeeMode.PulseEffect | client/src/pages/AttendeeMode.tsx:63-72 | a pulse is one switch-on now and one switch-off 200 ms later on the same channel |
| AttendeeMode.StrobeEffect | client/src/pages/AttendeeMode.tsx:74-94 | a strobe shows nothing at once, starts dark at the half-period rate, and arms its own stop after `duration` |
| AttendeeMode.ColorWaveEffect | client/src/pages/AttendeeMode.tsx:52-94 | COLOR_WAVE changes no output and arms nothing |
| AttendeeMode.AttendeePlayer.constructor | client/src/pages/AttendeeMode.tsx:21 | no outputs, timers or interval at first, the torch off, and the hook not yet run |
| AttendeeMode.AttendeePlayer.Render | client/src/pages/AttendeeMode.tsx:44-102 | the hook runs again exactly when the `lastEffect` object (its delivery, so an equal payload delivered again counts as new), the permission or the torch state behind `toggle` differs from its last run; a run with no effect only clears the interval |
| AttendeeMode.AttendeePlayer.Run | client/src/pages/AttendeeMode.tsx:44-102 | the cleanup clears only the previous interval; pending timeouts stay armed; the run's outputs, timeouts and interval are added; the torch ends in the state its permitted switches leave |
| AttendeeMode.AttendeePlayer.Tick | client/src/pages/AttendeeMode.tsx:79-86 | a tick flips the flag, outputs the k-th tick and, with permission, sets the torch to it; without a live interval nothing happens; the flag keeps the tick parity |
| AttendeeMode.AttendeePlayer.FireTimeout | client/src/pages/AttendeeMode.tsx:63-93 | a pulse timeout switches its channel off; a strobe stop clears only the interval it was armed for and switches everything off |
| AttendeeMode.PulseRelights | client/src/pages/AttendeeMode.tsx:63-67 | with permission, a pulse lights twice at once, and its switch-off after 200 ms is followed at once by another switch-on |
| AttendeeMode.StrobeOutlivesFirstStop | client/src/pages/AttendeeMode.tsx:79-102 | with permission, the first tick restarts the strobe as interval 1, and the first auto-stop leaves interval 1 live with its own stop pending |
| AttendeeMode.RepeatedPayloadRunsTwice | client/src/pages/AttendeeMode.tsx:63-102 | the same payload delivered twice by the socket hook flashes the screen twice, once at each delivery's due time |
| HostDashboard.EffectOptions | client/src/pages/HostDashboard.tsx:32-35 | STROBE is sent with the slider frequency and 10000 ms; every other type with no options |
| HostDashboard.ActiveAfter | client/src/pages/HostDashboard.tsx:29-40 | `activeEffect` ends as the handled type, except null after TORCH_OFF |
| HostDashboard.FlashChoice | client/src/pages/HostDashboard.tsx:132 | the flash button sends TORCH_OFF exactly when TORCH_ON is active, and TORCH_ON otherwise |
| HostDashboard.FlashAlternates | client/src/pages/HostDashboard.tsx:132 | flash presses alternate between torch on and nothing active |
| HostDashboard.SliderValue | client/src/pages/HostDashboard.tsx:164-168 | the slider value stays within 1..20 and is the requested whole position when in range |
| HostDashboard.Dashboard.constructor | client/src/pages/HostDashboard.tsx:16-21 | nothing active, 5 Hz, and a hook in the host role |
| HostDashboard.Dashboard.HandleEffect | client/src/pages/HostDashboard.tsx:29-41 | `activeEffect` follows `ActiveAfter`, and the hook emits the type with `EffectOptions` |
| HostDashboard.Dashboard.SliderChange | client/src/pages/HostDashboard.tsx:164-175 | the frequency becomes the slider value; STROBE is re-sent with it only while STROBE is active |
| HomePage.KeepDigits | client/src/pages/Home.tsx:96 | the result holds only ASCII digits; one character is kept exactly when it is a digit; a digit string is unchanged |
| HomePage.KeepDigitsAppend | client/src/pages/Home.tsx:96 | filtering a concatenation filters each part, so with the one-character case every digit is kept in order |
| HomePage.SanitizeWebPin | client/src/pages/Home.tsx:96 | the field holds the first min(4, number of digits typed) digits, in the order typed |
| HomePage.SanitizeWebPinIdempotent | client/src/pages/Home.tsx:96 | sanitising twice is sanitising once |
| HomePage.Home.constructor | client/src/pages/Home.tsx:11-13 | empty PIN, hidden form, empty name |
| HomePage.Home.PinInput | client/src/pages/Home.tsx:96 | the PIN field holds the sanitised input |
| HomePage.Home.NameInput | client/src/pages/Home.tsx:137-139 | the name holds what was typed, at most 100 characters |
| HomePage.Home.ShowForm | client/src/pages/Home.tsx:126 | the create form is shown |
| HomePage.Home.HandleJoin | client/src/pages/Home.tsx:38-58 | a PIN whose length is not 4 raises a toast and calls nothing; otherwise the join is called with it |
| HomePage.Home.HandleCreate | client/src/pages/Home.tsx:20-36 | a name that trims to empty raises a toast; otherwise the trimmed name and host id are submitted |
| HomePage.Home.Cancel | client/src/pages/Home.tsx:156-159 | Cancel hides the form and resets the name to empty |
| HomePage.SubmittedNameValid | client/src/pages/Home.tsx:31-34 | a submitted name always meets the create input's 1..100 bound |
| MobileHome.KeepAlnum | mobile/screens/HomeScreen.tsx:102 | the result holds only `[0-9A-Za-z]`; one character is kept exactly when it is in that class; an all-alphanumeric string is unchanged |
| MobileHome.KeepAlnumAppend | mobile/screens/HomeScreen.tsx:102 | filtering a concatenation filters each part, so with the one-character case every letter and digit is kept in order |
| MobileHome.UpperAll | mobile/screens/HomeScreen.tsx:102 | upper-casing works character by character |
| MobileHome.SanitizeMobilePin | mobile/screens/HomeScreen.tsx:102 | the field holds at most 9 characters of `[0-9A-Z]`: the first nine alphanumerics of the text it is given, upper-cased |
| MobileHome.SanitizeMobilePinIdempotent | mobile/screens/HomeScreen.tsx:102 | sanitising twice is sanitising once |
| MobileHome.HomeScreen.constructor | mobile/screens/HomeScreen.tsx:14-15 | empty PIN and host id |
| MobileHome.FieldText | mobile/screens/HomeScreen.tsx:103 | the field passes on at most its first nine characters of what is typed or pasted |
| MobileHome.KeepAlnumDrops | mobile/screens/HomeScreen.tsx:102 | text holding any character outside `[0-9A-Za-z]` loses at least one character to the filter |
| MobileHome.PastedSeparatorRefused | mobile/screens/HomeScreen.tsx:102-103 | a separator among the first nine characters pasted leaves a PIN shorter than 9, which the join refuses |
| MobileHome.HomeScreen.PinInput | mobile/screens/HomeScreen.tsx:102-103 | the PIN field holds the sanitised text after the input's cut to nine characters |
| MobileHome.HomeScreen.HostIdInput | mobile/screens/HomeScreen.tsx:125 | the host id holds what was typed |
| MobileHome.HomeScreen.HandleJoinEvent | mobile/screens/HomeScreen.tsx:40-46 | a PIN whose length is not 9 raises an alert; otherwise the attendee screen opens with that PIN |
| MobileHome.HomeScreen.HandleRejoinHost | mobile/screens/HomeScreen.tsx:48-54 | an empty host id raises an alert; otherwise the host screen opens with it |
| HostScreen.StrobeRounds | mobile/screens/HostScreen.tsx:31-34 | the loop's n rounds are 2n awaited steps |
| HostScreen.StrobeRoundsPrefix | mobile/screens/HostScreen.tsx:31-34 | the first i rounds are a prefix of the ten |
| HostScreen.StrobeRoundToggles | mobile/screens/HostScreen.tsx:31-34 | round i toggles `i % 2 == 0` |
| HostScreen.FlashToggles | mobile/screens/HostScreen.tsx:25-40 | TORCH_ON and TORCH_OFF toggle once; STROBE toggles 11 times (i % 2 == 0 for i = 0..9, then off); PULSE toggles on, waits 200 ms, toggles off |
| HostScreen.FlashEndsOff | mobile/screens/HostScreen.tsx:25-40 | every effect but TORCH_ON ends with a toggle of false |
| HostScreen.Perform | mobile/screens/HostScreen.tsx:24-45 | when no toggle throws, the whole plan is issued |
| HostScreen.PerformIssuesPrefix | mobile/screens/HostScreen.tsx:24-45 | what is issued is a prefix of the plan, ending at the toggle that threw |
| HostScreen.PerformAppend | mobile/screens/HostScreen.tsx:24-45 | running two parts is running the first, then the second unless a toggle threw |
| HostScreen.StopsEarly | mobile/screens/HostScreen.tsx:31-34 | once a toggle throws, the remaining rounds issue nothing |
| HostScreen.PerformComplete | mobile/screens/HostScreen.tsx:24-40 | with enough working toggles, the whole plan is issued |
| HostScreen.HostScreenState.constructor | mobile/screens/HostScreen.tsx:15 | not loading, nothing issued |
| HostScreen.HostScreenState.Issue | mobile/screens/HostScreen.tsx:26 | one awaited step is issued, and a toggle throws when no working toggle is left |
| HostScreen.HostScreenState.Round | mobile/screens/HostScreen.tsx:32-33 | one round issues the toggle, then the sleep unless the toggle threw |
| HostScreen.HostScreenState.StrobeLoop | mobile/screens/HostScreen.tsx:31-34 | the loop issues its rounds up to the toggle that throws |
| HostScreen.HostScreenState.Play | mobile/screens/HostScreen.tsx:24-40 | the `try` block issues the effect's plan up to the toggle that throws |
| HostScreen.HostScreenState.PlayStrobe | mobile/screens/HostScreen.tsx:29-35 | the ten loop rounds, then `toggle(false)` unless a toggle threw, issue the STROBE plan up to the failure |
| HostScreen.HostScreenState.PlayPulse | mobile/screens/HostScreen.tsx:36-39 | on, a 200 ms sleep, then off, stopping at a toggle that throws |
| HostScreen.HostScreenState.HandleFlash | mobile/screens/HostScreen.tsx:22-46 | `isLoading` is set true on entry and false on exit even when a toggle throws |
| AttendeeScreen.ReactionTo | mobile/screens/AttendeeScreen.tsx:29-44 | with permission, TORCH_ON, TORCH_OFF and PULSE toggle and set flashing; PULSE arms a switch-off; otherwise nothing happens |
| AttendeeScreen.ReactionsMatchTorch | mobile/screens/AttendeeScreen.tsx:29-44 | `isFlashing` ends matching the torch, and without permission it is unchanged |
| AttendeeScreen.AttendeeScreenState.constructor | mobile/screens/AttendeeScreen.tsx:15-16 | `lastEffect` null, not flashing |
| AttendeeScreen.AttendeeScreenState.React | mobile/screens/AttendeeScreen.tsx:29-44 | the hook performs `ReactionTo`; while `lastEffect` is null, nothing happens |
| AttendeeScreen.AttendeeScreenState.FireTimer | mobile/screens/AttendeeScreen.tsx:39-42 | the pulse timeout toggles off and clears flashing |
| Interop.EffectEventUnhandled | client/src/hooks/use-socket.ts:90 | the web host's `'effect'` emits reach no server handler |
| Interop.AckAsReply | server/routes.ts:230 | the sync ack holds only `serverPerf` and `serverEpoch` |
| Interop.SyncRoundGivesNaN | client/src/hooks/use-socket.ts:61-65 | one sync round against the server makes the offset NaN, and it stays NaN |
| Interop.NaNOffsetConsequences | client/src/hooks/use-socket.ts:40-41 | with a NaN offset, effects fire at once and the host's default `startAt` is NaN |
| Interop.WebCannotSubmitServerPin | client/src/pages/Home.tsx:40 | no value of the web PIN field equals a generated PIN; typing one leaves its first four digits |
| Interop.DigitsThenLetter | client/src/pages/Home.tsx:96 | digit filtering of 8 digits and a letter gives the 8 digits |
| Interop.MobileAcceptsServerPin | mobile/screens/HomeScreen.tsx:41 | the mobile field keeps a generated PIN, accepts its length, and restores a lower-case letter |
| Interop.MobileKeepsPinShape | mobile/screens/HomeScreen.tsx:102 | the mobile field keeps any 8-digits-and-a-letter string, and upper-cases a lower-case final letter back |
| Interop.HostLoginNotDeclared | server/routes.ts:92 | the route the server registers for host login is not among the routes the shared API declares |
| Interop.ParticipantsNotReturned | client/src/pages/HostDashboard.tsx:16 | the hook returns no `participants` value |

## Left out

- UI rendering, styling and animation; toasts and alerts are recorded by their title only.
- Socket.IO and Express transport. Joins, emits and acks are outbox entries, and each
  handler runs to completion alone. The auto-join's asynchronous function racing
  `join_event` is not modelled.
- The REST routes other than POST /api/events, `getEventByPin` beyond the PIN-in-use test,
  and database details such as SQL, `.returning()` and which errors lead to the update path.
- Relay.RelayServer.CreateEvent: the zod checks are reduced to the name bounds and a boolean
  for the UUID check on `hostId`. Error messages and other fields are not modelled.
- Storage.Joined: a new session row is taken as active. The `sessions` table definition
  is not part of this model, so that column default is assumed.
- Storage.SessionStore.CreateEvent: the row stores the password the server passes. The
  `events` table shown has no password column, and `createdAt` is not modelled.
- Relay.RelayServer.AutoJoin: the event id is taken as already converted by `Number()`,
  and the alternative query keys are not modelled.
- Relay.RelayServer.HostEffect: the effect is typed as `EffectPayload`, but the source
  accepts any value.
- JavaScript numbers are reals or NaN. Floating-point rounding and the infinities are
  not modelled, except that `1000 / 0` reaches a timer as 0 in AttendeeMode.TickEvery.
- JSON serialisation, which turns a NaN `startAt` into null on the wire.
- The HTML rule that raises nested timer delays to 4 ms. The event loop's ordering is
  not modelled either: the caller picks which due timer fires next.
- Strings are sequences of Unicode scalar values. UTF-16 lengths and full Unicode
  upper-casing are not modelled; the mobile sanitiser only upper-cases ASCII letters.
- SocketClient.SocketHook: the socket is not recreated when `timeOffset` changes, and
  the unmount cleanup is not modelled.
- HostDashboard.Dashboard.constructor: the third argument the dashboard passes to
  `useSocket` is dropped, as the hook ignores it.
- HostDashboard.SliderValue: the range input's value handling is reduced to clamping a
  whole position.
- The device torch wrappers, the wake lock, and `requestPermission`. `toggle(bool)` is an
  output, and permission is an input flag. The web torch's `applyConstraints` is taken to
  succeed and to complete before the next render, so `toggle` sets `isOn` at once.
- Mobile event creation (`handleCreateEvent`), the `mode` switch, and the mobile
  screens' other effects. They are network calls or navigation only.
- Password hashing and tokens in server/auth.ts. These are foreign cryptography.
