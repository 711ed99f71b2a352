/** `Velocity`: a MIDI velocity in [0, 127], with clamped scaling. */
module Velocities {
  import opened JavaSemantics

  type MidiVelocity = v: int | 0 <= v <= 127

  datatype Velocity = Velocity(value: MidiVelocity)

  /** `new Velocity(value)`. */
  function NewVelocity(value: Int32): (r: Result<Velocity>)
    ensures r.Ok? <==> 0 <= value <= 127
    ensures r.Ok? ==> r.value.value == value
    ensures r.Thrown? ==> r.exception.IllegalArgumentException?
  {
    if value < 0 || value > 127 then
      Thrown(IllegalArgumentException("Velocity must be in [0, 127]"))
    else
      Ok(Velocity(value))
  }

  /** `Math.max(lo, Math.min(hi, x))`. */
  function Clamp(lo: int, hi: int, x: int): int {
    if x > hi then hi else if x < lo then lo else x
  }

  /** `v.scaled(factor)` as written: the `long` that `Math.round` returns is
      narrowed by `(int)` BEFORE it is clamped, so a product beyond the `int`
      range wraps first. The clamp still keeps the argument of the inner
      `new Velocity` in range, so the call never throws. */
  function ScaledAsWritten(v: Velocity, factor: real): (r: Result<Velocity>)
    ensures r.Ok?
    ensures var n := Wrap32(JavaRound(v.value as real * factor));
            r.value.value == (if n > 127 then 127 else if n < 0 then 0 else n)
  {
    var scaled := Wrap32(JavaRound(v.value as real * factor));
    NewVelocity(Clamp(0, 127, scaled))
  }

  /** The scaling the method documents ("clamped to [0, 127]"): the rounded
      product itself is clamped, so a very loud factor gives 127. */
  function Scaled(v: Velocity, factor: real): (r: Velocity)
    ensures JavaRound(v.value as real * factor) > 127 ==> r.value == 127
    ensures JavaRound(v.value as real * factor) < 0 ==> r.value == 0
    ensures 0 <= JavaRound(v.value as real * factor) <= 127 ==>
              r.value == JavaRound(v.value as real * factor)
  {
    Velocity(Clamp(0, 127, JavaRound(v.value as real * factor)))
  }

  /** The two agree whenever the rounded product fits in an `int`. */
  lemma ScaledAsWrittenAgreesInIntRange(v: Velocity, factor: real)
    requires INT_MIN <= JavaRound(v.value as real * factor) <= INT_MAX
    ensures ScaledAsWritten(v, factor) == Ok(Scaled(v, factor))
  {
  }

  /** The discrepancy: velocity 1 scaled by 2^31 rounds to 2^31, which the
      `(int)` cast turns into -2^31, so the code yields 0 where the clamp
      intends 127. */
  lemma ScaledAsWrittenWrapsLargeProduct()
    ensures ScaledAsWritten(Velocity(1), 2147483648.0) == Ok(Velocity(0))
    ensures Scaled(Velocity(1), 2147483648.0) == Velocity(127)
  {
    assert JavaRound(2147483648.0) == 2147483648;
  }
}
