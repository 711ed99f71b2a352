/** `BeatDuration`: a positive length, in beats. */
module BeatDurations {
  import opened JavaSemantics

  type PositiveBeats = x: real | x > 0.0 witness 1.0

  /** Every instance has a positive value, by its type. */
  datatype BeatDuration = BeatDuration(value: PositiveBeats)

  /** `new BeatDuration(value)`: zero is rejected. */
  function NewBeatDuration(value: real): (r: Result<BeatDuration>)
    ensures r.Ok? <==> value > 0.0
    ensures r.Ok? ==> r.value.value == value
    ensures r.Thrown? ==> r.exception.IllegalArgumentException?
  {
    if value <= 0.0 then
      Thrown(IllegalArgumentException("Beat duration must be positive"))
    else
      Ok(BeatDuration(value))
  }
}
