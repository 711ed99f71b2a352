/** The few pieces of Java's semantics the loop-sequencer model depends on:
    32-bit `int` arithmetic, `Math.round` on a double, `String.trim`, and
    exceptions as values. */
module JavaSemantics {

  const INT_MIN: int := -0x8000_0000
  const INT_MAX: int := 0x7fff_ffff
  const TWO_32: int := 0x1_0000_0000
  const LONG_MIN: int := -0x8000_0000_0000_0000
  const LONG_MAX: int := 0x7fff_ffff_ffff_ffff

  /** A Java `int`. */
  type Int32 = x: int | INT_MIN <= x <= INT_MAX

  /** A Java `long`. */
  type Int64 = x: int | LONG_MIN <= x <= LONG_MAX

  /** A Java `String` parameter or field that may hold `null`. */
  datatype Option<T> = None | Some(value: T)

  /** The exceptions the modelled code throws. */
  datatype Exception = IllegalArgumentException(message: string)

  /** The outcome of a Java call that either returns a value or throws. */
  datatype Result<T> = Ok(value: T) | Thrown(exception: Exception)

  /** Two's-complement wrap-around of a mathematical integer into an `int`:
      the result of `+`, `-` or `*` on Java `int`s, and of a `(int)` cast of
      a `long`. */
  function Wrap32(x: int): (r: Int32)
    ensures (x - r) % TWO_32 == 0
    ensures INT_MIN <= x <= INT_MAX ==> r == x
    ensures INT_MAX < x <= INT_MAX + TWO_32 ==> r == x - TWO_32
    ensures INT_MIN - TWO_32 <= x < INT_MIN ==> r == x + TWO_32
  {
    (x - INT_MIN) % TWO_32 + INT_MIN
  }

  /** `Math.round(double)`: the closest `long`, ties rounding up, saturating
      at the bounds of `long`. The argument is an exact real, so the rounding
      of the floating-point product that feeds it is not modelled. */
  function JavaRound(x: real): (r: Int64)
    ensures LONG_MIN as real <= x + 0.5 < LONG_MAX as real + 1.0 ==>
              r as real <= x + 0.5 < r as real + 1.0
    ensures x + 0.5 < LONG_MIN as real ==> r == LONG_MIN
    ensures LONG_MAX as real + 1.0 <= x + 0.5 ==> r == LONG_MAX
  {
    var f := (x + 0.5).Floor;
    if f < LONG_MIN then LONG_MIN else if f > LONG_MAX then LONG_MAX else f
  }

  /** Whitespace as `String.trim` sees it: every character up to U+0020. */
  predicate IsTrimmed(c: char) {
    c <= ' '
  }

  /** A string made only of characters `trim` removes. */
  predicate IsBlank(s: string) {
    forall i :: 0 <= i < |s| ==> IsTrimmed(s[i])
  }

  function TrimStart(s: string): string {
    if s != [] && IsTrimmed(s[0]) then TrimStart(s[1..]) else s
  }

  function TrimEnd(s: string): string {
    if s != [] && IsTrimmed(s[|s| - 1]) then TrimEnd(s[..|s| - 1]) else s
  }

  /** `String.trim`: drop every leading and trailing character up to U+0020. */
  function Trim(s: string): string {
    TrimEnd(TrimStart(s))
  }

  lemma {:induction false} TrimStartEmptyIffBlank(s: string)
    ensures TrimStart(s) == [] <==> IsBlank(s)
  {
    if s != [] && IsTrimmed(s[0]) {
      TrimStartEmptyIffBlank(s[1..]);
      assert IsBlank(s) <==> IsBlank(s[1..]) by {
        if IsBlank(s[1..]) {
          forall i | 0 <= i < |s| ensures IsTrimmed(s[i]) {
            if i > 0 { assert s[i] == s[1..][i - 1]; }
          }
        }
      }
    }
  }

  lemma {:induction false} TrimEndKeepsNonEmpty(s: string)
    ensures TrimEnd(s) == [] ==> IsBlank(s)
    ensures s != [] && !IsTrimmed(s[0]) ==> TrimEnd(s) != []
  {
    if s != [] && IsTrimmed(s[|s| - 1]) {
      var t := s[..|s| - 1];
      TrimEndKeepsNonEmpty(t);
      if TrimEnd(s) == [] {
        forall i | 0 <= i < |s| ensures IsTrimmed(s[i]) {
          if i < |s| - 1 { assert s[i] == t[i]; }
        }
      }
      if s != [] && !IsTrimmed(s[0]) {
        assert t != [] && t[0] == s[0];
      }
    }
  }

  /** `s.trim().isEmpty()` holds exactly when `s` is blank. */
  lemma TrimEmptyIffBlank(s: string)
    ensures Trim(s) == [] <==> IsBlank(s)
  {
    TrimStartEmptyIffBlank(s);
    var t := TrimStart(s);
    TrimEndKeepsNonEmpty(t);
    TrimStartStopsAtText(s);
    if IsBlank(s) {
      assert t == [];
    }
  }

  lemma {:induction false} TrimStartStopsAtText(s: string)
    ensures TrimStart(s) == [] || !IsTrimmed(TrimStart(s)[0])
  {
    if s != [] && IsTrimmed(s[0]) {
      TrimStartStopsAtText(s[1..]);
    }
  }
}
