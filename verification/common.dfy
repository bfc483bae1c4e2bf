/** Values shared by every tracker: results with the errors the library
    throws, the two-component vector, and the preference store. */
module Common {

  datatype Option<T> = None | Some(value: T)

  /** What a call can throw: an `Error` with a message the library builds,
      a runtime `TypeError` (reading a property of `undefined`), or a miss
      in one of the alias tables, whose own message is not part of this model. */
  datatype Error = Thrown(message: string) | TypeError | TableMiss

  datatype Result<T> = Ok(value: T) | Err(error: Error)

  /** The outcome of an event handler that returns nothing but may throw. */
  datatype Outcome = Done | Failed(error: Error)

  /** A 2D value; numbers are modelled as reals. */
  datatype Vector2 = Vector2(x: real, y: real)

  const ZeroVector := Vector2(0.0, 0.0)

  /** The process-wide preference flag: true while the gamepad is the
      preferred input device. Every tracker holds the same Store. */
  class Store {
    var preferGamepad: bool

    constructor ()
      ensures !preferGamepad
    {
      preferGamepad := false;
    }
  }

  /** Property names every plain object literal inherits from
      Object.prototype (section 20.1.3 of ECMA-262 and its Annex B.2.2);
      the `in` operator finds them on any object literal. */
  const ObjectPrototypeKeys: set<string> := {
    "constructor", "hasOwnProperty", "isPrototypeOf", "propertyIsEnumerable",
    "toLocaleString", "toString", "valueOf", "__proto__",
    "__defineGetter__", "__defineSetter__", "__lookupGetter__", "__lookupSetter__"
  }

  predicate IsDigit(c: char) {
    '0' <= c <= '9'
  }

  function DigitChar(d: nat): (c: char)
    requires d < 10
    ensures IsDigit(c) && c as int - '0' as int == d
  {
    "0123456789"[d]
  }

  /** The plain decimal text of a non-negative integer: how a template
      literal prints an integer below 10^21 that a double holds exactly. */
  function NatToDecimal(n: nat): (s: string)
    ensures |s| >= 1
    ensures forall i :: 0 <= i < |s| ==> IsDigit(s[i])
    ensures s[0] == '0' ==> n == 0
  {
    if n < 10 then [DigitChar(n)] else NatToDecimal(n / 10) + [DigitChar(n % 10)]
  }

  /** The number a string of digits denotes. */
  function DecimalValue(s: string): nat
    requires forall i :: 0 <= i < |s| ==> IsDigit(s[i])
  {
    if s == [] then 0
    else
      assert IsDigit(s[|s| - 1]);
      DecimalValue(s[..|s| - 1]) * 10 + (s[|s| - 1] as int - '0' as int)
  }

  /** Printing a number and reading it back gives the number. */
  lemma {:induction false} DecimalRoundTrip(n: nat)
    ensures DecimalValue(NatToDecimal(n)) == n
  {
    if n >= 10 {
      DecimalRoundTrip(n / 10);
      var s := NatToDecimal(n);
      assert s[..|s| - 1] == NatToDecimal(n / 10);
    }
  }
}
