/**
  Model of the capture-window calculation that prepares an FPGA emulation run
  (anasymod/blocks/execute_FPGA_sim.py, the constructor of TemplEXECUTE_FPGA_SIM).

  From the capture depth of the on-chip logic analyser, the requested time
  interval and the global time step it derives the window count, the decimation
  ratio and the start time as a fixed-point trigger value.  Times are exact reals
  here, and Python's `round` is written out as rounding half to even.
*/
module ExecuteFpgaSim {
  import opened Wrappers

  /** The exceptions the calculation can raise. */
  datatype Error = ZeroDivisionError | IndexError | ValueError(text: string)

  /** An entry of the probe configuration's time signal: name, bit width and exponent, all as text. */
  datatype TimeSignal = TimeSignal(name: string, width: string, exponent: string)

  /** The capture parameters handed to the hardware-programming script. */
  datatype CaptureParams = CaptureParams(
    windowCount: int,
    decimationRatio: int,
    timeName: string,
    startTimeInt: int,
    startTimeLiteral: string)

  function Abs(x: real): real {
    if x < 0.0 then -x else x
  }

  /*** Integer division and rounding ***/

  /** Python's `ila_depth // 2`: the quotient rounded toward minus infinity. */
  function WindowCount(ilaDepth: int): (r: int)
    ensures 2 * r <= ilaDepth < 2 * r + 2
  {
    ilaDepth / 2
  }

  /** Python's `round` on a number: the nearest integer, ties going to the even one. */
  function RoundHalfEven(x: real): (n: int)
    ensures Abs(x - n as real) <= 0.5
    ensures Abs(x - n as real) == 0.5 ==> n % 2 == 0
  {
    var f := x.Floor;
    var frac := x - f as real;
    if frac < 0.5 then f
    else if frac > 0.5 then f + 1
    else if f % 2 == 0 then f
    else f + 1
  }

  /** No integer is nearer to `x` than its rounding, and an integer rounds to itself. */
  lemma RoundIsNearest(x: real, m: int)
    ensures Abs(x - RoundHalfEven(x) as real) <= Abs(x - m as real)
    ensures RoundHalfEven(m as real) == m
  {
    var n := RoundHalfEven(x);
    if m < n {
      assert m as real <= n as real - 1.0;
    } else if m > n {
      assert m as real >= n as real + 1.0;
    }
  }

  /*** Decimation ***/

  /**
    `round(((stop_time - start_time) / dt) / (ila_depth / 2)) - 1`: the divisor is the
    real half depth, not the integer window count.  Both divisions raise for a zero divisor.
  */
  function RawDecimationRatio(startTime: real, stopTime: real, dt: real, ilaDepth: int): (r: int)
    requires dt != 0.0 && ilaDepth != 0
    ensures Abs(((stopTime - startTime) / dt) / (ilaDepth as real / 2.0) - (r + 1) as real) <= 0.5
  {
    RoundHalfEven(((stopTime - startTime) / dt) / (ilaDepth as real / 2.0)) - 1
  }

  /** The raw ratio clamped from below by 2, as `max(raw, 2)`. */
  function DecimationRatio(startTime: real, stopTime: real, dt: real, ilaDepth: int): (r: int)
    requires dt != 0.0 && ilaDepth != 0
    ensures r >= 2
    ensures RawDecimationRatio(startTime, stopTime, dt, ilaDepth) >= 2 ==> r == RawDecimationRatio(startTime, stopTime, dt, ilaDepth)
    ensures RawDecimationRatio(startTime, stopTime, dt, ilaDepth) < 2 ==> r == 2
  {
    var raw := RawDecimationRatio(startTime, stopTime, dt, ilaDepth);
    if raw >= 2 then raw else 2
  }

  /** For an odd depth the divisor `ila_depth / 2` exceeds the window count by one half. */
  lemma HalfDepthAndWindowCount(ilaDepth: int)
    ensures ilaDepth as real / 2.0 - WindowCount(ilaDepth) as real == if ilaDepth % 2 == 0 then 0.0 else 0.5
  {
  }

  /** 10000 steps of 1 over a depth of 1024: 512 windows, ratio round(19.53125) - 1 = 19. */
  lemma DecimationExampleLongRun()
    ensures WindowCount(1024) == 512
    ensures RawDecimationRatio(0.0, 10000.0, 1.0, 1024) == 19
    ensures DecimationRatio(0.0, 10000.0, 1.0, 1024) == 19
  {
    assert ((10000.0 - 0.0) / 1.0) / (1024 as real / 2.0) == 19.53125;
  }

  /** 200 steps over a depth of 1024: the raw ratio round(0.390625) - 1 = -1 is clamped to 2. */
  lemma DecimationExampleShortRun()
    ensures RawDecimationRatio(0.0, 100.0, 0.5, 1024) == -1
    ensures DecimationRatio(0.0, 100.0, 0.5, 1024) == 2
  {
    assert ((100.0 - 0.0) / 0.5) / (1024 as real / 2.0) == 0.390625;
  }

  /*** Fixed-point time ***/

  function Exp2(k: nat): (r: nat)
    ensures r > 0
  {
    if k == 0 then 1 else 2 * Exp2(k - 1)
  }

  /** 2 raised to an integer power, exactly: Python's `2**k` for any integer `k`. */
  function Pow2(e: int): (r: real)
    ensures r > 0.0
  {
    if e >= 0 then Exp2(e) as real else 1.0 / Exp2(-e) as real
  }

  lemma {:induction false} Pow2Inverse(e: int)
    ensures Pow2(e) * Pow2(-e) == 1.0
  {
    if e > 0 {
      var p := Exp2(e) as real;
      assert Pow2(e) * Pow2(-e) == p * (1.0 / p);
    } else if e < 0 {
      var p := Exp2(-e) as real;
      assert Pow2(e) * Pow2(-e) == (1.0 / p) * p;
    }
  }

  /** Scaling back by `u` a value within one half of `t * s`, where `u * s == 1`. */
  lemma ScaleBack(t: real, n: real, u: real, s: real)
    requires u > 0.0 && u * s == 1.0 && Abs(t * s - n) <= 0.5
    ensures Abs(n * u - t) <= u / 2.0
  {
    assert t * s * u == t by {
      calc {
        t * s * u;
        == t * (u * s);
        == t * 1.0;
      }
    }
    var d := n - t * s;
    assert n * u - t == d * u;
    if d >= 0.0 {
      assert d * u <= 0.5 * u;
    } else {
      assert -d * u <= 0.5 * u;
    }
  }

  /** `round(t * 2**(-exponent))`: a time as a whole number of units of 2**exponent seconds. */
  function EncodeTime(t: real, exponent: int): (n: int)
    ensures Abs(t * Pow2(-exponent) - n as real) <= 0.5
  {
    RoundHalfEven(t * Pow2(-exponent))
  }

  /** The time that an encoded value stands for. */
  function DecodeTime(n: int, exponent: int): real {
    n as real * Pow2(exponent)
  }

  /** Any value within one half of the scaled time stands for the time to within half a unit. */
  lemma {:induction false} DecodeWithinHalfUnit(t: real, n: int, exponent: int)
    requires Abs(t * Pow2(-exponent) - n as real) <= 0.5
    ensures Abs(DecodeTime(n, exponent) - t) <= Pow2(exponent) / 2.0
  {
    Pow2Inverse(exponent);
    ScaleBack(t, n as real, Pow2(exponent), Pow2(-exponent));
  }

  /** Encoding loses at most half a unit: decoding gives back the time within 2**exponent / 2. */
  lemma {:induction false} DecodeEncode(t: real, exponent: int)
    ensures Abs(DecodeTime(EncodeTime(t, exponent), exponent) - t) <= Pow2(exponent) / 2.0
  {
    DecodeWithinHalfUnit(t, EncodeTime(t, exponent), exponent);
  }

  /** A time that is a whole number of units encodes to exactly that number. */
  lemma {:induction false} EncodeDecode(n: int, exponent: int)
    ensures EncodeTime(DecodeTime(n, exponent), exponent) == n
  {
    Pow2Inverse(exponent);
    assert DecodeTime(n, exponent) * Pow2(-exponent) == n as real * (Pow2(exponent) * Pow2(-exponent));
    RoundIsNearest(n as real, n);
  }

  /*** Decimal text ***/

  predicate IsDigit(c: char) {
    '0' <= c <= '9'
  }

  predicate AllDigits(s: string) {
    |s| > 0 && forall i :: 0 <= i < |s| ==> IsDigit(s[i])
  }

  function DigitsValue(s: string): nat
    requires AllDigits(s)
  {
    if |s| == 1 then (s[0] as int - '0' as int)
    else DigitsValue(s[..|s| - 1]) * 10 + (s[|s| - 1] as int - '0' as int)
  }

  /** A decimal integer literal with an optional sign, as Python's `int` accepts it. */
  predicate IsIntLiteral(s: string) {
    if |s| > 0 && (s[0] == '-' || s[0] == '+') then AllDigits(s[1..]) else AllDigits(s)
  }

  /** Python's `int` on a string; anything but a signed decimal literal raises ValueError. */
  function ParseInt(s: string): (r: Result<int, Error>)
    ensures r.Success? <==> IsIntLiteral(s)
    ensures r.Failure? ==> r.error == ValueError(s)
  {
    if |s| > 0 && (s[0] == '-' || s[0] == '+') then
      if AllDigits(s[1..]) then
        var magnitude: int := DigitsValue(s[1..]);
        Success(if s[0] == '-' then -magnitude else magnitude)
      else Failure(ValueError(s))
    else if AllDigits(s) then Success(DigitsValue(s))
    else Failure(ValueError(s))
  }

  function DigitChar(d: nat): char
    requires d < 10
  {
    ('0' as int + d) as char
  }

  /** Python's `str` on a natural number: its decimal digits without leading zeros. */
  function NatToString(n: nat): (r: string)
    ensures AllDigits(r)
    ensures r[0] == '0' ==> n == 0
    decreases n
  {
    if n < 10 then [DigitChar(n)] else NatToString(n / 10) + [DigitChar(n % 10)]
  }

  /** Python's `str` on an integer. */
  function IntToString(i: int): (r: string)
    ensures |r| > 0 && (r[0] == '-' <==> i < 0)
    ensures i >= 0 ==> AllDigits(r) && (r[0] == '0' ==> r == "0")
    ensures i < 0 ==> AllDigits(r[1..]) && r[1] != '0'
  {
    if i < 0 then "-" + NatToString(-i) else NatToString(i)
  }

  lemma {:induction false} NatToStringDigits(n: nat)
    ensures AllDigits(NatToString(n)) && DigitsValue(NatToString(n)) == n
    decreases n
  {
    if n >= 10 {
      NatToStringDigits(n / 10);
      var s := NatToString(n);
      assert s[..|s| - 1] == NatToString(n / 10);
    }
  }

  /** Parsing the text of an integer gives the integer back. */
  lemma ParseIntToString(i: int)
    ensures ParseInt(IntToString(i)) == Success(i)
  {
    if i < 0 {
      ParseNegative(-i);
    } else {
      ParseNatural(i);
    }
  }

  lemma ParseNatural(n: nat)
    ensures ParseInt(NatToString(n)) == Success(n)
  {
    var t := NatToString(n);
    NatToStringDigits(n);
    assert IsDigit(t[0]);
    assert !(t[0] == '-' || t[0] == '+');
  }

  lemma ParseNegative(n: nat)
    requires n > 0
    ensures ParseInt("-" + NatToString(n)) == Success(-(n as int))
  {
    var t := NatToString(n);
    var s := "-" + t;
    NatToStringDigits(n);
    assert s[0] == '-' && s[1..] == t;
    assert AllDigits(s[1..]);
  }

  /*** The calculation ***/

  /**
    The constructor's arithmetic.  It checks neither `stop_time > start_time` nor
    `dt > 0`: a zero `dt` or a zero depth fails by division, an empty time-signal
    list by indexing, and an exponent that is not an integer literal by `int`.
  */
  function Calculate(ilaDepth: int, timeSignals: seq<TimeSignal>, startTime: real, stopTime: real, dt: real)
    : (r: Result<CaptureParams, Error>)
    ensures r == Failure(ZeroDivisionError) <==> dt == 0.0 || ilaDepth == 0
    ensures r == Failure(IndexError) <==> dt != 0.0 && ilaDepth != 0 && |timeSignals| == 0
    ensures r.Failure? && r.error.ValueError? <==>
              dt != 0.0 && ilaDepth != 0 && |timeSignals| > 0 && !IsIntLiteral(timeSignals[0].exponent)
    ensures r.Success? ==>
              && 2 * r.value.windowCount <= ilaDepth < 2 * r.value.windowCount + 2
              && r.value.decimationRatio >= 2
              && r.value.decimationRatio == DecimationRatio(startTime, stopTime, dt, ilaDepth)
              && r.value.timeName == timeSignals[0].name
              && ParseInt(timeSignals[0].exponent).Success?
              && r.value.startTimeInt == EncodeTime(startTime, ParseInt(timeSignals[0].exponent).value)
              && r.value.startTimeLiteral == timeSignals[0].width + "'u" + IntToString(r.value.startTimeInt)
  {
    var windowCount := WindowCount(ilaDepth);
    if dt == 0.0 || ilaDepth == 0 then Failure(ZeroDivisionError)
    else
      var decimationRatio := DecimationRatio(startTime, stopTime, dt, ilaDepth);
      if |timeSignals| == 0 then Failure(IndexError)
      else
        var TimeSignal(timeName, timeWidth, exponentText) := timeSignals[0];
        match ParseInt(exponentText)
        case Failure(e) => Failure(e)
        case Success(timeExponent) =>
          var startTimeInt := EncodeTime(startTime, timeExponent);
          Success(CaptureParams(windowCount, decimationRatio, timeName, startTimeInt,
                                timeWidth + "'u" + IntToString(startTimeInt)))
  }

  /** The trigger value stands for the start time to within half a time unit. */
  lemma CalculateStartTimeAccuracy(ilaDepth: int, timeSignals: seq<TimeSignal>, startTime: real, stopTime: real, dt: real)
    requires Calculate(ilaDepth, timeSignals, startTime, stopTime, dt).Success?
    ensures var e := ParseInt(timeSignals[0].exponent).value;
      Abs(DecodeTime(Calculate(ilaDepth, timeSignals, startTime, stopTime, dt).value.startTimeInt, e) - startTime)
        <= Pow2(e) / 2.0
  {
    DecodeEncode(startTime, ParseInt(timeSignals[0].exponent).value);
  }
}
