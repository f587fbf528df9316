/** The messages exchanged with the streaming backend. */
module Wire {
  import opened JsValue

  /** One server-sent frame after JSON.parse. Every field is optional (Undefined
      when the object lacks it), and one object may carry several of them, for
      instance text together with `turn_complete`. */
  datatype Frame = Frame(
    mimeType: Value,
    role: Value,
    data: Value,
    turnComplete: Value,
    interrupted: Value)

  /** The payload of one event: either JSON.parse failed (or produced null, whose
      first property read throws before any state changes), or it gave a frame. */
  datatype Payload = Malformed | Parsed(frame: Frame)

  /** A body POSTed to the send endpoint: `{mime_type, data}`. */
  datatype OutboundEvent = OutboundEvent(mimeType: string, data: string)

  const TextPlain: Value := Str("text/plain")
  const AudioPcm: Value := Str("audio/pcm")
  const ApplicationJson: Value := Str("application/json")

  /** A text/plain frame whose data is a string and that does not end the turn. */
  predicate IsTextDelta(p: Payload)
  {
    p.Parsed? && p.frame.mimeType == TextPlain && p.frame.data.Str? && !Truthy(p.frame.turnComplete)
  }

  /** The text deltas of a run of frames, concatenated in delivery order. */
  function Deltas(ps: seq<Payload>): string
  {
    if ps == [] then ""
    else (if ps[0].Parsed? && ps[0].frame.data.Str? then ps[0].frame.data.s else "") + Deltas(ps[1..])
  }
}
