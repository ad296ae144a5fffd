/**
 * Values as JavaScript hands them to the order code: a field that may be
 * `undefined`/`null`, a number that may be `NaN`, and a flag that may arrive
 * as a number or as a boolean. Only the comparisons the code performs on
 * them are defined here.
 */
module Js {

  /**
   * `None` stands for a missing value where the code does not tell `undefined`
   * from `null` (a nullable column, `x || d`), or for the `NaN` of `parseInt`.
   */
  datatype Option<+T> = None | Some(value: T) {
    /** `x || d`: the value when present, the default otherwise. */
    function GetOr(default: T): T {
      match this
      case Some(v) => v
      case None => default
    }
  }

  /** A parsed number read with `!x`: `NaN` and `0` are falsy. */
  predicate Truthy(x: Option<int>) {
    x.Some? && x.value != 0
  }

  /**
   * A field of a JSON body that should hold a number: absent (`undefined`),
   * `null`, `NaN`, or an integer. The comparisons below treat `null` and
   * `undefined` differently, as JavaScript does.
   */
  datatype Num = Undefined | Null | NaN | Int(value: int)

  /** `!!x`: `undefined`, `null`, `NaN` and `0` are falsy. */
  predicate IsTruthy(x: Num) {
    x.Int? && x.value != 0
  }

  /** `x <= 0`: `null` converts to `0`, while `undefined` and `NaN` compare false. */
  predicate AtMostZero(x: Num) {
    match x
    case Null => true
    case Int(n) => n <= 0
    case _ => false
  }

  /** `x === y`: `NaN` equals nothing, `null` and `undefined` equal only themselves. */
  predicate StrictlyEqual(x: Num, y: Num) {
    x == y && !x.NaN?
  }

  /** express-validator's `exists()`: anything but `undefined`. */
  predicate Exists(x: Num) {
    !x.Undefined?
  }

  /** `undefined` for a missing value, the integer otherwise. */
  function FromOption(x: Option<int>): Num {
    if x.Some? then Int(x.value) else Undefined
  }

  /** A flag such as `availability`: a number, a boolean, or missing. */
  datatype Flag = Num(n: int) | Bool(b: bool) | Absent

  /** `flag != 1` (loose inequality): `true == 1` holds in JavaScript. */
  predicate LooselyNotOne(f: Flag) {
    match f
    case Num(n) => n != 1
    case Bool(b) => !b
    case Absent => true
  }

  /** `flag !== 1` (strict inequality): only the number 1 is equal to 1. */
  predicate StrictlyNotOne(f: Flag) {
    !(f.Num? && f.n == 1)
  }

  /** Whatever passes the strict test passes the loose one; `true` shows the converse fails. */
  lemma StrictOneIsLooseOne(f: Flag)
    ensures !StrictlyNotOne(f) ==> !LooselyNotOne(f)
    ensures !LooselyNotOne(Bool(true)) && StrictlyNotOne(Bool(true))
  {
  }
}
