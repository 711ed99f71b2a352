/** `Pitch`: a MIDI note number in [0, 127], with transposition. */
module Pitches {
  import opened JavaSemantics

  type MidiNumber = n: int | 0 <= n <= 127

  /** Immutable: the only field is fixed by construction, and `Transpose`
      builds a new value. */
  datatype Pitch = Pitch(midiNumber: MidiNumber)

  /** `new Pitch(midiNumber)`. */
  function NewPitch(midiNumber: Int32): (r: Result<Pitch>)
    ensures r.Ok? <==> 0 <= midiNumber <= 127
    ensures r.Ok? ==> r.value.midiNumber == midiNumber
    ensures r.Thrown? ==> r.exception.IllegalArgumentException?
  {
    if midiNumber < 0 || midiNumber > 127 then
      Thrown(IllegalArgumentException("MIDI pitch must be in [0, 127]"))
    else
      Ok(Pitch(midiNumber))
  }

  /** `p.transpose(semitones)`: `new Pitch(midiNumber + semitones)`, the sum
      taken in 32-bit arithmetic. An overflowing sum wraps to a value outside
      [0, 127], so it is rejected just as the mathematical sum would be. */
  function Transpose(p: Pitch, semitones: Int32): (r: Result<Pitch>)
    ensures r.Ok? <==> 0 <= p.midiNumber + semitones <= 127
    ensures r.Ok? ==> r.value.midiNumber == p.midiNumber + semitones
  {
    NewPitch(Wrap32(p.midiNumber + semitones))
  }

  /** Transposing back by the opposite interval restores the pitch. */
  lemma TransposeInverse(p: Pitch, semitones: Int32)
    requires Transpose(p, semitones).Ok?
    ensures -semitones is Int32
    ensures Transpose(Transpose(p, semitones).value, -semitones as Int32) == Ok(p)
  {
  }
}
