/**
 * Shared vocabulary of the MetalTensors model: the exceptions the library
 * throws, an outcome type that carries them, C#'s truncating integer
 * division, and the convolution padding enumeration.
 */
module Common {

  /** Floating-point values are only stored, copied and compared; they are modelled by reals. */
  type Float = real

  datatype Option<T> = None | Some(value: T)

  /** The .NET exceptions thrown by the modelled code, with the parameter name or message they carry. */
  datatype Exception =
    | ArgumentOutOfRange(param: string)
    | Argument(param: string)
    | InvalidOperation(message: string)
    | NotSupported
    | IndexOutOfRange
    | DivideByZero
    | Overflow
    | Format
    | InvalidCast
    | NullReference
    | Error(message: string)

  /** Either a value or the exception the source throws instead of returning one. */
  datatype Outcome<T> = Ok(value: T) | Fail(error: Exception)
  {
    predicate IsFailure() { Fail? }

    function PropagateFailure<U>(): Outcome<U>
      requires Fail?
    {
      Fail(error)
    }

    function Extract(): T
      requires Ok?
    {
      value
    }
  }

  /** MetalTensors/ConvPadding.cs: Valid = -1, Same = 0, Full = 1. */
  datatype ConvPadding = Valid | Same | Full

  /** C# `/` on int: the quotient is truncated toward zero. */
  function TruncDiv(a: int, b: int): (q: int)
    requires b != 0
    ensures Abs(q) == Abs(a) / Abs(b)
    ensures (0 <= a) == (0 < b) ==> q >= 0
    ensures (0 <= a) != (0 < b) ==> q <= 0
  {
    var m: int := NatDiv(Abs(a), Abs(b));
    if (0 <= a) == (0 < b) then m else -m
  }

  function Abs(x: int): nat { if x < 0 then -x else x }

  /** Division of naturals, kept apart so that the solver sees its sign without nonlinear reasoning. */
  function NatDiv(x: nat, y: nat): (m: nat)
    requires y > 0
    ensures m == x / y
  {
    x / y
  }

  function Max(a: int, b: int): int { if a < b then b else a }

  /**
   * char.IsWhiteSpace: the control characters U+0009 to U+000D and U+0085,
   * the space separators (U+0020, U+00A0, U+1680, U+2000 to U+200A, U+202F,
   * U+205F, U+3000), and the line and paragraph separators U+2028 and U+2029.
   */
  predicate IsWhiteSpace(c: char)
  {
    c == ' ' || c == '\t' || c == '\n' || c == '\r' || c == '\U{000B}' || c == '\U{000C}'
    || c == '\U{0085}' || c == '\U{00A0}' || c == '\U{1680}'
    || ('\U{2000}' <= c <= '\U{200A}')
    || c == '\U{2028}' || c == '\U{2029}' || c == '\U{202F}' || c == '\U{205F}' || c == '\U{3000}'
  }

  /** The length of s as a .NET string: one UTF-16 code unit per character, two above U+FFFF. */
  function Utf16Length(s: string): (n: nat)
    ensures |s| <= n <= 2 * |s|
  {
    if s == [] then 0
    else Utf16Length(s[..|s| - 1]) + (if s[|s| - 1] as int > 0xFFFF then 2 else 1)
  }

  /** Text within the Basic Multilingual Plane has one code unit per character. */
  lemma {:induction false} Utf16LengthBmp(s: string)
    requires forall i :: 0 <= i < |s| ==> s[i] as int <= 0xFFFF
    ensures Utf16Length(s) == |s|
  {
    if s != [] {
      Utf16LengthBmp(s[..|s| - 1]);
    }
  }

  /** Text made only of characters above U+FFFF has two code units per character. */
  lemma {:induction false} Utf16LengthAstral(s: string)
    requires forall i :: 0 <= i < |s| ==> s[i] as int > 0xFFFF
    ensures Utf16Length(s) == 2 * |s|
  {
    if s != [] {
      Utf16LengthAstral(s[..|s| - 1]);
    }
  }

  /** string.IsNullOrWhiteSpace. */
  predicate IsNullOrWhiteSpace(s: Option<string>)
  {
    s.None? || forall i :: 0 <= i < |s.value| ==> IsWhiteSpace(s.value[i])
  }
}
