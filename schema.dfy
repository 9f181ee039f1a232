/** The shared wire and record types (shared/schema.ts). */
module Schema {
  import opened Wrappers
  import opened JsNumber

  /** `EffectType`. */
  datatype EffectType = TORCH_ON | TORCH_OFF | STROBE | PULSE | COLOR_WAVE

  /** `EffectPayload`. `kind` is the TypeScript field `type` (a Dafny keyword). `startAt`
      is a JavaScript number, so it may be NaN; the optional fields are `None` when
      undefined. */
  datatype EffectPayload = EffectPayload(
    kind: EffectType,
    startAt: Num,
    duration: Option<real>,
    frequency: Option<real>,
    color: Option<string>)

  /** `TimeSyncRequest`. */
  datatype TimeSyncRequest = TimeSyncRequest(clientSendTime: int)

  /** `TimeSyncResponse`, the reply shape the web client expects. */
  datatype TimeSyncResponse = TimeSyncResponse(
    clientSendTime: real,
    serverReceiveTime: real,
    serverSendTime: real)

  /** A row of the `events` table (`createdAt` left out; `password` is the column the
      server writes and the host login reads). */
  datatype Event = Event(
    id: int,
    pin: string,
    name: string,
    hostId: string,
    password: string,
    isActive: bool)
}
