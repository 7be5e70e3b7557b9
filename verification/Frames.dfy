/** Wire frames and message types (internal/protocol). */
module Frames {
  import opened Bytes

  datatype Frame = Frame(kind: Byte, payload: seq<Byte>)

  const MSG_HEARTBEAT: Byte := 0x03
  const MSG_MOUSE_MOVE: Byte := 0x10
  const MSG_MOUSE_CLICK: Byte := 0x11
  const MSG_KEY_DOWN: Byte := 0x20
  const MSG_KEY_UP: Byte := 0x21
  const MSG_UNICODE_TEXT: Byte := 0x22
  const MSG_SWITCH_BACK: Byte := 0x40
  const MSG_AUDIO_DATA: Byte := 0x52
  const MSG_AUDIO_FORMAT: Byte := 0x53
  const MSG_MIC_DATA: Byte := 0x56
  const MSG_MIC_FORMAT: Byte := 0x57
  const MSG_AUDIO_TRANSPORT: Byte := 0x58
  const MSG_MIC_TRANSPORT: Byte := 0x59
  const MSG_FILE_CHUNK: Byte := 0x62

  /** Frames the audio lane may drop under pressure. */
  predicate IsAudioData(kind: Byte) {
    kind == MSG_AUDIO_DATA || kind == MSG_MIC_DATA
  }

  /** Frames that travel in the audio lane. */
  predicate IsAudioLane(kind: Byte) {
    kind in {MSG_AUDIO_TRANSPORT, MSG_AUDIO_FORMAT, MSG_AUDIO_DATA,
             MSG_MIC_TRANSPORT, MSG_MIC_FORMAT, MSG_MIC_DATA}
  }

  /** Frames that must not be lost within a session: a missing one could leave a key or
      button down, or control on the wrong machine. */
  predicate IsTransition(kind: Byte) {
    kind in {MSG_KEY_DOWN, MSG_KEY_UP, MSG_MOUSE_CLICK, MSG_SWITCH_BACK, MSG_UNICODE_TEXT}
  }
}
