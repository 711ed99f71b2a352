/** `BeatPosition`: a non-negative position in the loop, in beats. */
module BeatPositions {
  import opened JavaSemantics

  type NonNegativeReal = x: real | x >= 0.0

  /** Every instance has a non-negative value, by its type. */
  datatype BeatPosition = BeatPosition(value: NonNegativeReal)

  /** `new BeatPosition(value)`: zero is a valid position. */
  function NewBeatPosition(value: real): (r: Result<BeatPosition>)
    ensures r.Ok? <==> value >= 0.0
    ensures r.Ok? ==> r.value.value == value
    ensures r.Thrown? ==> r.exception.IllegalArgumentException?
  {
    if value < 0.0 then
      Thrown(IllegalArgumentException("Beat position cannot be negative"))
    else
      Ok(BeatPosition(value))
  }
}
