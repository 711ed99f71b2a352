/** `Tempo`: a positive number of beats per minute, with add and subtract.
    There is no upper bound and no clamping. */
module Tempos {
  import opened JavaSemantics

  type PositiveReal = x: real | x > 0.0 witness 1.0

  datatype Tempo = Tempo(bpm: PositiveReal)

  /** `new Tempo(bpm)`. */
  function NewTempo(bpm: real): (r: Result<Tempo>)
    ensures r.Ok? <==> bpm > 0.0
    ensures r.Ok? ==> r.value.bpm == bpm
    ensures r.Thrown? ==> r.exception.IllegalArgumentException?
  {
    if bpm <= 0.0 then
      Thrown(IllegalArgumentException("Tempo BPM must be positive"))
    else
      Ok(Tempo(bpm))
  }

  /** `t.add(deltaBpm)`: `new Tempo(bpm + deltaBpm)`. */
  function Add(t: Tempo, deltaBpm: real): (r: Result<Tempo>)
    ensures r.Ok? <==> t.bpm + deltaBpm > 0.0
    ensures r.Ok? ==> r.value.bpm == t.bpm + deltaBpm
    ensures deltaBpm >= 0.0 ==> r.Ok? && r.value.bpm >= t.bpm
  {
    NewTempo(t.bpm + deltaBpm)
  }

  /** `t.subtract(deltaBpm)`: `new Tempo(bpm - deltaBpm)`. */
  function Subtract(t: Tempo, deltaBpm: real): (r: Result<Tempo>)
    ensures r.Ok? <==> t.bpm - deltaBpm > 0.0
    ensures r.Ok? ==> r.value.bpm == t.bpm - deltaBpm
    ensures deltaBpm <= 0.0 ==> r.Ok? && r.value.bpm >= t.bpm
  {
    NewTempo(t.bpm - deltaBpm)
  }

  /** Subtracting what was added gives back the original tempo. */
  lemma AddThenSubtract(t: Tempo, deltaBpm: real)
    requires Add(t, deltaBpm).Ok?
    ensures Subtract(Add(t, deltaBpm).value, deltaBpm) == Ok(t)
  {
  }
}
