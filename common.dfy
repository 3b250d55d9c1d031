/** Values shared by every part of the model: optional values, results that carry
    the exceptions the system raises, and the identifiers of wires and of
    mid-circuit measurements. */
module Common {

  /** A wire label. */
  type Wire = int

  /** The identity of a mid-circuit measurement (its `hash`). */
  type Hash = int

  datatype Option<+T> = None | Some(value: T)

  /** The exceptions raised by the modelled code, by Python exception class.
      `KeyError` is raised either with the missing key itself, as `dct[key]`
      raises it, or with an explanatory message. */
  datatype Error =
    | KeyError(key: int)
    | KeyErrorMessage(message: string)
    | IndexError
    | AttributeError
    | ValueError(message: string)
    | TypeError(message: string)

  datatype Result<+T> = Success(value: T) | Failure(error: Error)

  /** Decimal digits of a natural number, as Python's `str` writes them. */
  function NatToString(n: nat): (s: string)
    ensures |s| > 0
    ensures forall i :: 0 <= i < |s| ==> '0' <= s[i] <= '9'
  {
    var d := ['0', '1', '2', '3', '4', '5', '6', '7', '8', '9'][n % 10];
    if n < 10 then [d] else NatToString(n / 10) + [d]
  }

  /** Decimal form of an integer, with a leading minus sign when negative. */
  function IntToString(i: int): (s: string)
    ensures |s| > 0
    ensures i >= 0 ==> s == NatToString(i)
    ensures i < 0 ==> s[0] == '-' && s[1..] == NatToString(-i)
  {
    if i >= 0 then NatToString(i) else "-" + NatToString(-i)
  }
}
