/** `Measures`: a positive count of measures, with add and subtract. */
module MeasureCounts {
  import opened JavaSemantics

  type PositiveInt32 = n: int | 1 <= n <= INT_MAX witness 1

  datatype Measures = Measures(value: PositiveInt32)

  /** `new Measures(value)`. */
  function NewMeasures(value: Int32): (r: Result<Measures>)
    ensures r.Ok? <==> value > 0
    ensures r.Ok? ==> r.value.value == value
    ensures r.Thrown? ==> r.exception.IllegalArgumentException?
  {
    if value <= 0 then
      Thrown(IllegalArgumentException("Measures must be positive"))
    else
      Ok(Measures(value))
  }

  /** `m.add(delta)`: `new Measures(value + delta)` in 32-bit arithmetic.
      A sum past `Integer.MAX_VALUE` wraps to a non-positive `int` and is
      rejected, so the call succeeds exactly when the true sum is a valid
      count. */
  function Add(m: Measures, delta: Int32): (r: Result<Measures>)
    ensures r.Ok? <==> 1 <= m.value + delta <= INT_MAX
    ensures r.Ok? ==> r.value.value == m.value + delta
  {
    NewMeasures(Wrap32(m.value + delta))
  }

  /** `m.subtract(delta)`: `new Measures(value - delta)` in 32-bit
      arithmetic, with the same exact-range behaviour as `Add`. */
  function Subtract(m: Measures, delta: Int32): (r: Result<Measures>)
    ensures r.Ok? <==> 1 <= m.value - delta <= INT_MAX
    ensures r.Ok? ==> r.value.value == m.value - delta
  {
    NewMeasures(Wrap32(m.value - delta))
  }

  /** Subtracting what was added gives back the original count. */
  lemma AddThenSubtract(m: Measures, delta: Int32)
    requires Add(m, delta).Ok?
    ensures Subtract(Add(m, delta).value, delta) == Ok(m)
  {
  }
}
