/**
 * The few pieces of Python's built-in behaviour the training code relies on:
 * the values that travel in its records, the exceptions it can raise,
 * `f'{n}'` and `int(s)` for integers, `str.title()`, `' '.join(...)` and
 * `'{}'.format(v)`.
 */
module PyBase {

  datatype Option<+T> = None | Some(value: T)

  /** The outcome of a Python call: a returned value or a raised exception. */
  datatype Outcome<+T> = Done(value: T) | Raised(error: Error)

  /** The built-in exceptions the modelled code can raise. */
  datatype Error =
    | ValueError         // int() of a non-numeric name, a bad format specification
    | TypeError          // ordering None or a str against a float, formatting None
    | KeyError           // a missing dictionary key
    | IndexError         // pop(0) on an empty list, a list index out of range
    | FileNotFoundError  // reading or removing a file that is not there
    | UnboundLocalError  // reading a local variable that was never assigned

  /** A value stored in a record dictionary: int, float, str or None. */
  datatype Value = IntV(i: int) | FloatV(x: real) | StrV(s: string) | NoneV

  /**
   * Python's float formatting, which the model leaves abstract:
   * `fixed(x, p)` is `'{:.pf}'.format(x)` and `repr(x)` is `str(x)`.
   */
  datatype FloatFormat = FloatFormat(fixed: (real, nat) -> string, repr: real -> string)

  // ---------------------------------------------------------------------
  // Integers as decimal text

  predicate IsDigit(c: char) { '0' <= c <= '9' }

  predicate AllDigits(s: string) { forall k :: 0 <= k < |s| ==> IsDigit(s[k]) }

  function DigitChar(d: nat): (c: char)
    requires d < 10
    ensures IsDigit(c) && (c as int) - ('0' as int) == d
  {
    (('0' as int) + d) as char
  }

  /** The decimal digits of a natural number, most significant first, no leading zeros. */
  function Digits(n: nat): (s: string)
    ensures |s| >= 1 && AllDigits(s)
    ensures s[0] == '0' ==> n == 0
  {
    if n < 10 then [DigitChar(n)] else Digits(n / 10) + [DigitChar(n % 10)]
  }

  /** `f'{n}'` (equivalently `str(n)`) for an int. */
  function DecimalString(n: int): string
  {
    if n < 0 then "-" + Digits(-n) else Digits(n)
  }

  /** The number a string of decimal digits denotes (leading zeros allowed). */
  function DigitsValue(s: string): nat
    requires AllDigits(s)
  {
    if s == [] then 0
    else DigitsValue(s[..|s| - 1]) * 10 + ((s[|s| - 1] as int) - ('0' as int))
  }

  /**
   * `int(s)` on a file stem: an optional sign followed by one or more ASCII
   * digits; anything else makes `int` raise ValueError (None here).
   */
  function ParseInt(s: string): Option<int>
  {
    if |s| >= 2 && (s[0] == '-' || s[0] == '+') && AllDigits(s[1..]) then
      Some(if s[0] == '-' then 0 - DigitsValue(s[1..]) as int else DigitsValue(s[1..]))
    else if |s| >= 1 && AllDigits(s) then
      Some(DigitsValue(s))
    else
      None
  }

  lemma {:induction false} DigitsValueOfDigits(n: nat)
    ensures DigitsValue(Digits(n)) == n
  {
    if n >= 10 {
      var s := Digits(n);
      assert s[..|s| - 1] == Digits(n / 10);
      DigitsValueOfDigits(n / 10);
    }
  }

  /** `int(f'{n}') == n`: the decimal text of an integer parses back to it. */
  lemma DecimalRoundTrip(n: int)
    ensures ParseInt(DecimalString(n)) == Some(n)
  {
    if n < 0 {
      var s := DecimalString(n);
      assert s[1..] == Digits(-n);
      DigitsValueOfDigits(-n);
    } else {
      DigitsValueOfDigits(n);
    }
  }

  /** Distinct integers have distinct decimal texts (so distinct file names). */
  lemma DecimalInjective(m: int, n: int)
    ensures DecimalString(m) == DecimalString(n) <==> m == n
  {
    DecimalRoundTrip(m);
    DecimalRoundTrip(n);
  }

  // ---------------------------------------------------------------------
  // str.title(), ' '.join(...), '{}'.format(v)

  predicate IsUpper(c: char) { 'A' <= c <= 'Z' }

  predicate IsLower(c: char) { 'a' <= c <= 'z' }

  function ToUpper(c: char): char { if IsLower(c) then (c as int - 32) as char else c }

  function ToLower(c: char): char { if IsUpper(c) then (c as int + 32) as char else c }

  /**
   * `str.title()` over ASCII: a letter that follows a letter is lower-cased,
   * any other letter is upper-cased; `prevCased` says whether the character
   * before `s` was a letter.
   */
  function TitleFrom(s: string, prevCased: bool): (r: string)
    ensures |r| == |s|
  {
    if s == [] then []
    else if IsUpper(s[0]) || IsLower(s[0]) then
      [if prevCased then ToLower(s[0]) else ToUpper(s[0])] + TitleFrom(s[1..], true)
    else
      [s[0]] + TitleFrom(s[1..], false)
  }

  function Title(s: string): string { TitleFrom(s, false) }

  lemma {:induction false} TitleFromIdempotent(s: string, prevCased: bool)
    ensures TitleFrom(TitleFrom(s, prevCased), prevCased) == TitleFrom(s, prevCased)
  {
    if s != [] {
      var t := TitleFrom(s, prevCased);
      var next := IsUpper(s[0]) || IsLower(s[0]);
      assert t[1..] == TitleFrom(s[1..], next);
      TitleFromIdempotent(s[1..], next);
    }
  }

  /** Title-casing is idempotent, and keeps the length. */
  lemma TitleIdempotent(s: string)
    ensures Title(Title(s)) == Title(s) && |Title(s)| == |s|
  {
    TitleFromIdempotent(s, false);
  }

  /** `sep.join(parts)`. */
  function Join(parts: seq<string>, sep: string): string
  {
    if parts == [] then ""
    else if |parts| == 1 then parts[0]
    else parts[0] + sep + Join(parts[1..], sep)
  }

  /** `'{}'.format(v)`, that is `str(v)`. */
  function Str(v: Value, fmt: FloatFormat): string
  {
    match v
    case IntV(i) => DecimalString(i)
    case FloatV(x) => fmt.repr(x)
    case StrV(s) => s
    case NoneV => "None"
  }
}
