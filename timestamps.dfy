/** Conversion of a provider `dt` field (Unix epoch seconds) to a UTC instant.
    Instants are kept as integer epoch seconds; the ISO-8601 text form is not modelled. */
module Timestamps {
  import opened Wrappers
  import opened JsonModel

  /** 0001-01-01T00:00:00Z and 9999-12-31T23:59:59Z: the range of Python's `datetime`.
      `datetime.fromtimestamp` raises for an epoch outside it. */
  const MinEpoch: int := -62135596800
  const MaxEpoch: int := 253402300799

  /** Outcome of the conversion: no timestamp (the field is null), an instant, or the
      exception that `int()` or `datetime.fromtimestamp` raises. */
  datatype Stamp = NoStamp | At(epoch: int) | BadStamp

  predicate IsDigit(c: char)
  {
    '0' <= c <= '9'
  }

  /** The value of a non-empty string of ASCII decimal digits. */
  function DigitsValue(s: string): (r: Option<nat>)
    ensures r.Some? <==> |s| > 0 && forall i :: 0 <= i < |s| ==> IsDigit(s[i])
    decreases |s|
  {
    if |s| == 0 || !IsDigit(s[|s| - 1]) then None
    else
      var d := (s[|s| - 1] as int) - ('0' as int);
      if |s| == 1 then Some(d)
      else match DigitsValue(s[..|s| - 1])
        case None => None
        case Some(v) => Some(10 * v + d)
  }

  /** Python's `int(s)` on a string: an optional sign followed by decimal digits. */
  function ParseIntLiteral(s: string): (r: Option<int>)
    ensures var signed := |s| > 0 && (s[0] == '-' || s[0] == '+');
      r.Some? <==> DigitsValue(if signed then s[1..] else s).Some?
    ensures r.Some? && |s| > 0 && s[0] == '-' ==> r.value <= 0
    ensures r.Some? && !(|s| > 0 && s[0] == '-') ==> r.value >= 0
    ensures r.Some? && |s| > 0 && s[0] == '-' ==> r.value == -(DigitsValue(s[1..]).value as int)
    ensures r.Some? && |s| > 0 && s[0] == '+' ==> r.value == DigitsValue(s[1..]).value
    ensures r.Some? && !(|s| > 0 && (s[0] == '-' || s[0] == '+')) ==> r.value == DigitsValue(s).value
  {
    if |s| > 0 && (s[0] == '-' || s[0] == '+') then
      match DigitsValue(s[1..])
      case None => None
      case Some(v) => var n: int := v; Some(if s[0] == '-' then -n else n)
    else
      match DigitsValue(s)
      case None => None
      case Some(v) => Some(v)
  }

  /** The decimal form of `n`, most significant digit first, without leading zeros. */
  function DigitString(n: nat): (s: string)
    ensures |s| > 0 && forall i :: 0 <= i < |s| ==> IsDigit(s[i])
  {
    var last := ('0' as int + n % 10) as char;
    if n < 10 then [last] else DigitString(n / 10) + [last]
  }

  /** Reading back the decimal form of `n` gives `n`: `int(str(n)) == n`. */
  lemma {:induction false} DigitsRoundTrip(n: nat)
    ensures DigitsValue(DigitString(n)) == Some(n)
  {
    var s := DigitString(n);
    if n >= 10 {
      DigitsRoundTrip(n / 10);
      assert s[..|s| - 1] == DigitString(n / 10);
    }
  }

  /** Leading zeros do not change the value: `int("0" + s) == int(s)`. With `DigitsRoundTrip`
      this fixes the value of every string of ASCII digits. */
  lemma {:induction false} LeadingZero(s: string)
    requires |s| > 0
    ensures DigitsValue("0" + s) == DigitsValue(s)
    decreases |s|
  {
    var t := "0" + s;
    if |s| > 1 {
      LeadingZero(s[..|s| - 1]);
      assert t[..|t| - 1] == "0" + s[..|s| - 1];
    } else {
      assert t[..|t| - 1] == "0";
    }
  }

  /** `k` ASCII zeros. */
  function Zeros(k: nat): (z: string)
    ensures |z| == k && forall i :: 0 <= i < k ==> z[i] == '0'
  {
    if k == 0 then "" else "0" + Zeros(k - 1)
  }

  /** Any number of leading zeros leaves the value unchanged: `int("000" + s) == int(s)`. */
  lemma {:induction false} LeadingZeros(k: nat, s: string)
    requires |s| > 0
    ensures DigitsValue(Zeros(k) + s) == DigitsValue(s)
  {
    if k > 0 {
      LeadingZeros(k - 1, s);
      LeadingZero(Zeros(k - 1) + s);
      assert Zeros(k) + s == "0" + (Zeros(k - 1) + s);
    } else {
      assert Zeros(k) + s == s;
    }
  }

  /** Python's `int(v)`: integers as they are, booleans as 0 and 1, floats truncated,
      numeric strings parsed; anything else raises. */
  function PyInt(v: Json): (r: Option<int>)
    ensures r.None? <==> v.JNull? || v.JList? || v.JObj? || (v.JStr? && ParseIntLiteral(v.s).None?)
    ensures v.JBool? ==> r.Some? && 0 <= r.value <= 1
  {
    match v
    case JInt(n) => Some(n)
    case JBool(b) => Some(if b then 1 else 0)
    case JNum(x) => Some(x.whole)
    case JStr(s) => ParseIntLiteral(s)
    case _ => None
  }

  /** `_utc_dt_from_unix`: null gives no timestamp; otherwise `int(ts)` epoch seconds as a UTC
      instant, or an error when `int()` or the datetime range rejects the value. */
  function UtcFromUnix(ts: Json): (r: Stamp)
    ensures r.NoStamp? <==> ts.JNull?
    ensures r.At? ==> MinEpoch <= r.epoch <= MaxEpoch && PyInt(ts) == Some(r.epoch)
    ensures ts.JInt? ==> r == (if MinEpoch <= ts.n <= MaxEpoch then At(ts.n) else BadStamp)
    ensures ts.JList? || ts.JObj? ==> r == BadStamp
    ensures !ts.JNull? ==> (r.At? <==> PyInt(ts).Some? && MinEpoch <= PyInt(ts).value <= MaxEpoch)
  {
    if ts.JNull? then NoStamp
    else
      match PyInt(ts)
      case None => BadStamp
      case Some(t) => if MinEpoch <= t <= MaxEpoch then At(t) else BadStamp
  }

  /** A digit string with value `n` parses to `n`, to `n` after a `+` and to `-n` after a `-`. */
  lemma SignedDigits(s: string, n: nat)
    requires DigitsValue(s) == Some(n)
    ensures ParseIntLiteral(s) == Some(n)
    ensures ParseIntLiteral("+" + s) == Some(n)
    ensures ParseIntLiteral("-" + s) == Some(-(n as int))
  {
    assert IsDigit(s[0]);
    assert ("+" + s)[1..] == s;
    assert ("-" + s)[1..] == s;
  }

  /** `int()` on the decimal form of `n` padded with `k` zeros, with a `+`, a `-` or no sign. */
  lemma PaddedRoundTrip(n: nat, k: nat)
    ensures ParseIntLiteral(Zeros(k) + DigitString(n)) == Some(n)
    ensures ParseIntLiteral("+" + (Zeros(k) + DigitString(n))) == Some(n)
    ensures ParseIntLiteral("-" + (Zeros(k) + DigitString(n))) == Some(-(n as int))
  {
    DigitsRoundTrip(n);
    LeadingZeros(k, DigitString(n));
    SignedDigits(Zeros(k) + DigitString(n), n);
  }

  /** A string `dt` that `int()` parses into range is that instant. */
  lemma StringDt(s: string, v: int)
    requires ParseIntLiteral(s) == Some(v)
    ensures MinEpoch <= v <= MaxEpoch ==> UtcFromUnix(JStr(s)) == At(v)
  {
  }

  /** `int()` accepts more than integers: a numeric string in range is an instant too, with a
      `+`, a `-` or no sign, and with any number of leading zeros. */
  lemma NumericStringDt(n: nat, k: nat)
    ensures n <= MaxEpoch ==> UtcFromUnix(JStr(Zeros(k) + DigitString(n))) == At(n)
    ensures n <= MaxEpoch ==> UtcFromUnix(JStr("+" + (Zeros(k) + DigitString(n)))) == At(n)
    ensures n <= -MinEpoch ==> UtcFromUnix(JStr("-" + (Zeros(k) + DigitString(n)))) == At(-(n as int))
  {
    PaddedRoundTrip(n, k);
    var padded := Zeros(k) + DigitString(n);
    StringDt(padded, n);
    StringDt("+" + padded, n);
    StringDt("-" + padded, -(n as int));
  }

  /** A float `dt` in range is its truncation; a boolean `dt` is the instant 0 or 1. */
  lemma FloatAndBoolDt(x: Num, b: bool)
    ensures MinEpoch <= x.whole <= MaxEpoch ==> UtcFromUnix(JNum(x)) == At(x.whole)
    ensures UtcFromUnix(JBool(b)) == At(if b then 1 else 0)
  {
  }
}
