/**
 * `number2string` of kl/deepnet/trainer/util.py: render a number as text,
 * dispatching first on `dtype == 'int'` or an int value, then on
 * `dtype == 'float'` or a float value.
 */
module TrainerUtil {
  import opened PyBase

  const DefaultPrecision: int := 4
  const DefaultDtype: string := "int"

  /**
   * `'{:.%df}' % precision` applied to `value`. `str.format` hands the
   * specification to the value's own `__format__`: None's (that of
   * `object`) raises TypeError for any non-empty specification before
   * reading it, so None fails with TypeError whatever the precision. For
   * the other values a negative precision yields the specification
   * `'{:.-1f}'`, which is rejected with ValueError; with a valid one ints
   * and floats are put in fixed point and a str is rejected with ValueError.
   */
  function FixedPoint(value: Value, precision: int, fmt: FloatFormat): (r: Outcome<Option<string>>)
    ensures r.Done? ==> r.value.Some?
    ensures r.Done? <==> precision >= 0 && (value.IntV? || value.FloatV?)
    ensures value.NoneV? ==> r == Raised(TypeError)
    ensures !value.NoneV? && (precision < 0 || value.StrV?) ==> r == Raised(ValueError)
  {
    if value.NoneV? then Raised(TypeError)
    else if precision < 0 || value.StrV? then Raised(ValueError)
    else if value.IntV? then Done(Some(fmt.fixed(value.i as real, precision)))
    else Done(Some(fmt.fixed(value.x, precision)))
  }

  /**
   * `number2string(value, precision, dtype)`. `Done(None)` is the function
   * falling off its end and returning None.
   */
  function Number2String(value: Value, precision: int, dtype: string, fmt: FloatFormat): (r: Outcome<Option<string>>)
    // an int always renders as its plain decimal, whatever dtype says
    ensures value.IntV? ==> r == Done(Some(DecimalString(value.i)))
    // with dtype 'int' the first branch is taken for every value
    ensures dtype == "int" ==> r == Done(Some(Str(value, fmt)))
    // the fixed-point branch: only for dtype != 'int' and a value that is not an int
    ensures dtype != "int" && !value.IntV? && (dtype == "float" || value.FloatV?) ==>
              r == FixedPoint(value, precision, fmt)
    // nothing is returned exactly when neither condition holds
    ensures r == Done(None) <==>
              dtype != "int" && dtype != "float" && !value.IntV? && !value.FloatV?
  {
    if dtype == "int" || value.IntV? then
      Done(Some(Str(value, fmt)))
    else if dtype == "float" || value.FloatV? then
      FixedPoint(value, precision, fmt)
    else
      Done(None)
  }

  /** The text an int renders to reads back, through `int()`, as that int. */
  lemma IntRenderingRoundTrip(n: int, precision: int, dtype: string, fmt: FloatFormat)
    ensures var r := Number2String(IntV(n), precision, dtype, fmt);
            r.Done? && r.value.Some? && ParseInt(r.value.value) == Some(n)
  {
    DecimalRoundTrip(n);
  }

  /**
   * With the default dtype 'int' every value takes the `f'{value}'` branch:
   * a float comes out as `str(float)`, never in fixed point.
   */
  lemma DefaultDtypeRendersStr(value: Value, precision: int, fmt: FloatFormat)
    ensures Number2String(value, precision, DefaultDtype, fmt) == Done(Some(Str(value, fmt)))
    ensures value.FloatV? ==> Number2String(value, precision, DefaultDtype, fmt) == Done(Some(fmt.repr(value.x)))
  {
  }

  /** None with dtype 'float' reaches the template and raises TypeError, even at a negative precision. */
  lemma NoneFloatFails(precision: int, fmt: FloatFormat)
    ensures Number2String(NoneV, precision, "float", fmt) == Raised(TypeError)
  {
  }

  /** A float with dtype 'float' renders with `precision` digits (4 by default). */
  lemma FloatRendering(x: real, dtype: string, fmt: FloatFormat)
    requires dtype != "int"
    ensures Number2String(FloatV(x), DefaultPrecision, dtype, fmt) == Done(Some(fmt.fixed(x, 4)))
  {
  }
}
