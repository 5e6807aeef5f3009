/** Start-up validation of the initial rotation speed given on the command
    line. The argument is taken after conversion to a Python float, which may
    also be an infinity or NaN; text that does not convert aborts the program. */
module Startup {
  import opened Transform

  datatype Option<T> = None | Some(value: T)

  /** A Python float: a finite value, an infinity, or NaN. Rounding of finite
      values is not modelled. */
  datatype Float = Finite(value: real) | PosInf | NegInf | NaN

  /** Python's `f < b` for a finite bound b; every comparison with NaN is false. */
  predicate Below(f: Float, b: real)
  {
    match f
    case Finite(x) => x < b
    case NegInf => true
    case _ => false
  }

  /** Python's `f > b` for a finite bound b. */
  predicate Above(f: Float, b: real)
  {
    match f
    case Finite(x) => x > b
    case PosInf => true
    case _ => false
  }

  /** The second command-line argument: missing, converted to a float, or text
      that the conversion rejects with an error. */
  datatype SpeedArg = Absent | Parsed(f: Float) | Unparsable

  /** The validation as written: the out-of-range test is the only filter, so
      the result is a finite value in [-180, 180] or NaN, for which both
      comparisons are false. None: the program aborts on the conversion error. */
  function StartSpeedAsWritten(arg: SpeedArg): (r: Option<Float>)
    ensures r.None? <==> arg.Unparsable?
    ensures r.Some? ==> !r.value.PosInf? && !r.value.NegInf?
    ensures r.Some? && r.value.Finite? ==> -MaxSpeed <= r.value.value <= MaxSpeed
  {
    match arg
    case Absent => Some(Finite(0.0))
    case Unparsable => None
    case Parsed(f) => if Below(f, -MaxSpeed) || Above(f, MaxSpeed) then Some(Finite(0.0)) else Some(f)
  }

  /** The written validation lets NaN through as the starting speed. */
  lemma NaNPassesValidation()
    ensures StartSpeedAsWritten(Parsed(NaN)) == Some(NaN)
    ensures !Below(NaN, -MaxSpeed) && !Above(NaN, MaxSpeed)
  {
  }

  /** The validation as intended: a finite value in [-180, 180] is kept, and
      every other converted value, NaN included, becomes 0. */
  function StartSpeed(arg: SpeedArg): (r: Option<real>)
    ensures r.None? <==> arg.Unparsable?
    ensures r.Some? ==> -MaxSpeed <= r.value <= MaxSpeed
    ensures arg.Absent? ==> r == Some(0.0)
    ensures arg.Parsed? && arg.f.Finite? && -MaxSpeed <= arg.f.value <= MaxSpeed ==> r == Some(arg.f.value)
    ensures arg.Parsed? && !(arg.f.Finite? && -MaxSpeed <= arg.f.value <= MaxSpeed) ==> r == Some(0.0)
  {
    match arg
    case Absent => Some(0.0)
    case Unparsable => None
    case Parsed(f) =>
      if f.Finite? && !Below(f, -MaxSpeed) && !Above(f, MaxSpeed) then Some(f.value) else Some(0.0)
  }

  /** The intended validation differs from the written one only on NaN. */
  lemma StartSpeedMatchesAsWritten(arg: SpeedArg)
    requires arg != Parsed(NaN)
    ensures StartSpeedAsWritten(arg) ==
      match StartSpeed(arg)
      case None => None
      case Some(v) => Some(Finite(v))
  {
  }

  /** The out-of-range start speed of 200 is replaced by 0. */
  lemma OutOfRangeStart()
    ensures StartSpeed(Parsed(Finite(200.0))) == Some(0.0)
    ensures StartSpeed(Parsed(NegInf)) == Some(0.0)
  {
  }
}
