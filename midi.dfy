/** The two channel-voice message kinds the chord pad sends, and the shape of
    a three-byte message [status, note number, velocity]. */
module Midi {

  /** Status of a Note On message on channel 0; the channel is added to it. */
  const NOTE_ON: int := 0x90

  /** Status of a Note Off message on channel 0. */
  const NOTE_OFF: int := 0x80

  datatype Message = Message(status: int, note: int, velocity: int)
}
