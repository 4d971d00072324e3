/**
 * The argument guards every public and internal entry point uses. Each one
 * either passes or fails with the named argument.
 */
module Guards {
  import opened Wrappers
  import Unsigned

  /** A loosely typed argument, as the guards see it. */
  datatype Loose =
    | LUndefined
    | LNull
    | LBool(b: bool)
    | LNumber(n: int)
    | LString(s: string)
    | LObject

  /** JavaScript truthiness: undefined, null, false, 0 and "" are falsy. */
  predicate Truthy(v: Loose)
  {
    match v
    case LUndefined => false
    case LNull => false
    case LBool(b) => b
    case LNumber(n) => n != 0
    case LString(s) => s != ""
    case LObject => true
  }

  /** requiresTruthy: fails exactly on a falsy value. */
  function RequiresTruthy(name: string, v: Loose): (r: Outcome)
    ensures r.Pass? <==> Truthy(v)
    ensures r.Fail? ==> r.error == Falsy(name)
  {
    if Truthy(v) then Pass else Fail(Falsy(name))
  }

  /** requiresTruthy applied to a string: only the empty string fails. */
  function TruthyString(name: string, s: string): (r: Outcome)
    ensures r.Pass? <==> s != ""
    ensures r.Fail? ==> r.error == Falsy(name)
  {
    RequiresTruthy(name, LString(s))
  }

  /** requiresTruthy applied to a number: only zero fails. */
  function TruthyNumber(name: string, n: int): (r: Outcome)
    ensures r.Pass? <==> n != 0
    ensures r.Fail? ==> r.error == Falsy(name)
  {
    RequiresTruthy(name, LNumber(n))
  }

  /** requiresPositiveUnsigned: fails on a missing value or on zero. */
  function RequiresPositiveUnsigned(name: string, v: Option<Unsigned.Unsigned>): (r: Outcome)
    ensures r.Pass? <==> v.Some? && v.value.value > 0
    ensures r.Fail? ==> r.error == NotPositive(name)
  {
    if v.None? || Unsigned.Equals(v.value, Unsigned.Zero) then Fail(NotPositive(name)) else Pass
  }

  /**
   * requiresNumericPositive: fails on anything that is not a number and on
   * a negative number; zero passes despite the name.
   */
  function RequiresNumericPositive(name: string, v: Loose): (r: Outcome)
    ensures r.Pass? <==> v.LNumber? && v.n >= 0
    ensures r.Fail? ==> r.error == (if v.LNumber? then Negative(name) else NotANumber(name))
  {
    if !v.LNumber? then Fail(NotANumber(name))
    else if v.n < 0 then Fail(Negative(name))
    else Pass
  }

  /** requiresAtLeastOneElement: fails on a missing or empty array. */
  function RequiresAtLeastOne<T>(name: string, v: Option<seq<T>>): (r: Outcome)
    ensures r.Pass? <==> v.Some? && |v.value| > 0
    ensures r.Fail? ==> r.error == NoElements(name)
  {
    if v.None? || |v.value| == 0 then Fail(NoElements(name)) else Pass
  }
}
