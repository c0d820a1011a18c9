/** Values shared by every part of the recorder model: samples, the
    dynamically typed option values, the clock readings of one save, the
    text renderings the Python runtime performs, and decimal digits. */
module Common {

  datatype Option<T> = None | Some(value: T)

  datatype Result<T, E> = Ok(value: T) | Err(error: E)

  /** One complex sample, kept as its real and imaginary parts. */
  datatype Sample = Sample(re: real, im: real)

  /** A value a caller may pass as an option; the radio parameters are stored
      as HDF5 attributes exactly as given, whatever their type. */
  datatype Value = VReal(r: real) | VInt(i: int) | VText(s: string)

  /** The clock readings one save makes: `start` is the first `time.time()`
      of the call, `ticks` the one reading taken per sample (the CSV writer
      only; the HDF5 writer reads the clock once). Seconds since the epoch. */
  datatype Clock = Clock(start: real, ticks: seq<real>)

  /** Text renderings done by the Python runtime and its libraries:
      `datePrefix(s)` is `strftime("%Y-%m-%d %H:%M:%S.")` of the UTC instant
      at whole second `s`; `number(x)` is `str(x)` of a float. */
  datatype Formatter = Formatter(datePrefix: int -> string, number: real -> string)

  function Reals(batch: seq<Sample>): (r: seq<real>)
    ensures |r| == |batch|
    ensures forall i :: 0 <= i < |batch| ==> r[i] == batch[i].re
  {
    seq(|batch|, i requires 0 <= i < |batch| => batch[i].re)
  }

  function Imags(batch: seq<Sample>): (r: seq<real>)
    ensures |r| == |batch|
    ensures forall i :: 0 <= i < |batch| ==> r[i] == batch[i].im
  {
    seq(|batch|, i requires 0 <= i < |batch| => batch[i].im)
  }

  // ---------------------------------------------------------------- digits

  predicate IsDigit(c: char) { '0' <= c <= '9' }

  function DigitChar(d: int): (c: char)
    requires 0 <= d < 10
    ensures IsDigit(c)
  {
    (48 + d) as char
  }

  function DigitValue(c: char): int { c as int - 48 }

  function Pow10(k: nat): (p: nat)
    ensures p >= 1
  {
    if k == 0 then 1 else 10 * Pow10(k - 1)
  }

  /** `f"{m:0{width}d}"` for a value that fits in `width` digits. */
  function PadDigits(m: nat, width: nat): (r: string)
    ensures |r| == width
    ensures forall i :: 0 <= i < |r| ==> IsDigit(r[i])
  {
    if width == 0 then [] else PadDigits(m / 10, width - 1) + [DigitChar(m % 10)]
  }

  /** The number a string of decimal digits denotes. */
  function DigitsValue(s: string): int
  {
    if s == [] then 0 else 10 * DigitsValue(s[..|s| - 1]) + DigitValue(s[|s| - 1])
  }

  /** Decimal digits denote a natural number. */
  lemma {:induction false} DigitsValueNat(s: string)
    requires forall i :: 0 <= i < |s| ==> IsDigit(s[i])
    ensures DigitsValue(s) >= 0
  {
    if s != [] {
      DigitsValueNat(s[..|s| - 1]);
    }
  }

  /** Reading the zero-padded field back gives the number written. */
  lemma {:induction false} PadDigitsRoundTrip(m: nat, width: nat)
    requires m < Pow10(width)
    ensures DigitsValue(PadDigits(m, width)) == m
  {
    if width > 0 {
      var r := PadDigits(m, width);
      assert r[..|r| - 1] == PadDigits(m / 10, width - 1);
      assert m / 10 < Pow10(width - 1);
      PadDigitsRoundTrip(m / 10, width - 1);
    }
  }

  /** `str(n)` of a non-negative Python int. */
  function NatText(n: nat): (r: string)
    ensures |r| >= 1
    decreases n
  {
    if n < 10 then [DigitChar(n)] else NatText(n / 10) + [DigitChar(n % 10)]
  }

  /** Reading the text of a natural number back gives the number. */
  lemma {:induction false} NatTextReadsBack(n: nat)
    ensures forall i :: 0 <= i < |NatText(n)| ==> IsDigit(NatText(n)[i])
    ensures DigitsValue(NatText(n)) == n
    decreases n
  {
    var r := NatText(n);
    if n >= 10 {
      NatTextReadsBack(n / 10);
      assert r[..|r| - 1] == NatText(n / 10);
    }
  }

  /** Python's `int(x)` of a float: truncation toward zero. */
  function TruncToZero(x: real): (n: int)
    ensures x >= 0.0 ==> 0 <= n && n as real <= x < n as real + 1.0
    ensures x < 0.0 ==> n <= 0 && n as real - 1.0 < x <= n as real
  {
    if x >= 0.0 then x.Floor else -((-x).Floor)
  }

  /** The texts `int(s)` accepts: an optional sign, then one or more
      decimal digits. */
  predicate IntText(s: string)
  {
    if |s| > 0 && (s[0] == '+' || s[0] == '-') then DigitText(s[1..]) else DigitText(s)
  }

  predicate DigitText(d: string)
  {
    |d| > 0 && forall i :: 0 <= i < |d| ==> IsDigit(d[i])
  }

  /** Python's `int(v)` of an option value, `None` where it raises
      `ValueError`: an int is kept, a float truncated, a text parsed. */
  function IntOf(v: Value): (r: Option<int>)
    ensures v.VInt? ==> r == Some(v.i)
    ensures v.VReal? ==> r == Some(TruncToZero(v.r))
    ensures v.VText? ==> (r.Some? <==> IntText(v.s))
    ensures v.VText? && IntText(v.s) && v.s[0] != '-' ==> r.Some? && r.value >= 0
  {
    match v
    case VInt(i) => Some(i)
    case VReal(x) => Some(TruncToZero(x))
    case VText(s) =>
      if !IntText(s) then None
      else if s[0] == '-' then Some(-DigitsValue(s[1..]))
      else if s[0] == '+' then DigitsValueNat(s[1..]); Some(DigitsValue(s[1..]))
      else DigitsValueNat(s); Some(DigitsValue(s))
  }

  /** `int(str(i))` is `i`: the text of an int parses back to it. */
  lemma IntOfValueText(fmt: Formatter, i: int)
    ensures IntOf(VText(ValueText(fmt, VInt(i)))) == Some(i)
  {
    var s := ValueText(fmt, VInt(i));
    if i < 0 {
      NatTextReadsBack(-i);
      assert s[1..] == NatText(-i);
    } else {
      NatTextReadsBack(i);
      assert s[0] != '-' && s[0] != '+';
    }
  }

  /** `f"{v}"` of an option value. */
  function ValueText(fmt: Formatter, v: Value): (r: string)
    ensures v.VText? ==> r == v.s
    ensures v.VReal? ==> r == fmt.number(v.r)
    ensures v.VInt? ==> |r| >= 1 && (r[0] == '-' <==> v.i < 0)
    ensures v.VInt? ==> forall k :: (if v.i < 0 then 1 else 0) <= k < |r| ==> IsDigit(r[k])
    ensures v.VInt? && v.i < 0 ==> |r| >= 2
  {
    match v
    case VReal(x) => fmt.number(x)
    case VInt(i) =>
      if i < 0 then NatTextReadsBack(-i); "-" + NatText(-i)
      else NatTextReadsBack(i); NatText(i)
    case VText(s) => s
  }
}
