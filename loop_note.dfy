/** `LoopNote`: one note of a loop. Its four fields are final and take the
    constructor's raw arguments without validation. It does not override
    `equals`, so two notes are the same note only when they are the same
    object; a class with constant fields models exactly that. */
module LoopNotes {
  import opened JavaSemantics

  class LoopNote {
    const pitch: Int32
    const startBeat: real
    const durationBeats: real
    const velocity: Int32

    /** `new LoopNote(pitch, startBeat, durationBeats, velocity)`: any
        arguments are accepted, and each getter returns its own. */
    constructor (pitch: Int32, startBeat: real, durationBeats: real, velocity: Int32)
      ensures this.pitch == pitch && this.startBeat == startBeat
      ensures this.durationBeats == durationBeats && this.velocity == velocity
    {
      this.pitch := pitch;
      this.startBeat := startBeat;
      this.durationBeats := durationBeats;
      this.velocity := velocity;
    }
  }
}
