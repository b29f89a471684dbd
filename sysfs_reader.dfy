/** The byte-level number reader of SysfsReader.kt: a fixed 512-byte buffer is
    filled by one read of a sysfs value file and scanned once by a small state
    machine into a signed 64-bit integer plus a decimal scale.

    The file itself is not modelled: a read is given as the bytes it delivered
    and the count it returned. Kotlin `Long` arithmetic wraps around, and so
    does the model (Wrap64). Kotlin `Float` results are modelled as exact reals. */
module Sysfs {
  import opened Wrappers

  /** A byte of the file, read as unsigned. Every byte the scanner reacts to is
      below 128, so the signed/unsigned reading of Kotlin's `Byte` makes no
      difference to any comparison below. */
  type Byte = b: int | 0 <= b < 256

  /** A decimal digit value. */
  type Digit = d: int | 0 <= d <= 9

  const MINUS: Byte := 45   // '-'
  const PERIOD: Byte := 46  // '.'
  const ZERO: Byte := 48    // '0'
  const NINE: Byte := 57    // '9'

  /** Size of the reader's scratch buffer. */
  const BUFFER_SIZE: nat := 512

  const TWO_TO_63: int := 0x8000_0000_0000_0000
  const TWO_TO_64: int := 0x1_0000_0000_0000_0000

  // ---------------------------------------------------------------------------
  // 64-bit two's-complement arithmetic

  /** `x` is a value of Kotlin's `Long`. */
  predicate InLong(x: int) { -TWO_TO_63 <= x < TWO_TO_63 }

  /** The Kotlin `Long` that the exact integer `x` wraps around to. */
  function Wrap64(x: int): (r: int)
    ensures -TWO_TO_63 <= r < TWO_TO_63
    ensures -TWO_TO_63 <= x < TWO_TO_63 ==> r == x
  {
    (x + TWO_TO_63) % TWO_TO_64 - TWO_TO_63
  }

  /** Wrapping only depends on the value modulo 2^64. */
  lemma WrapCongruent(x: int, y: int, k: int)
    requires x == y + k * TWO_TO_64
    ensures Wrap64(x) == Wrap64(y)
  {
    var a, b := x + TWO_TO_63, y + TWO_TO_63;
    assert a == b + k * TWO_TO_64;
    var qa, ra := a / TWO_TO_64, a % TWO_TO_64;
    var qb, rb := b / TWO_TO_64, b % TWO_TO_64;
    assert a == qa * TWO_TO_64 + ra && 0 <= ra < TWO_TO_64;
    assert b == qb * TWO_TO_64 + rb && 0 <= rb < TWO_TO_64;
    assert (qa - qb - k) * TWO_TO_64 == rb - ra;
  }

  /** Wrapping an intermediate result first and then multiplying and adding
      gives the same `Long` as wrapping once at the end. */
  lemma WrapMulAdd(x: int, c: int, d: int)
    ensures Wrap64(Wrap64(x) * c + d) == Wrap64(x * c + d)
  {
    var q := (x + TWO_TO_63) / TWO_TO_64;
    assert Wrap64(x) == x - q * TWO_TO_64;
    assert Wrap64(x) * c + d == x * c + d + (-(q * c)) * TWO_TO_64;
    WrapCongruent(Wrap64(x) * c + d, x * c + d, -(q * c));
  }

  // ---------------------------------------------------------------------------
  // The scanner, as functions

  predicate IsDigit(b: Byte) { ZERO <= b <= NINE }

  /** The bytes that do not stop the scan. */
  predicate IsNumeric(b: Byte) { b == MINUS || b == PERIOD || IsDigit(b) }

  predicate AllNumeric(s: seq<Byte>) { forall i :: 0 <= i < |s| ==> IsNumeric(s[i]) }

  /** The reader's three parse fields: `value`, `floatExp` and `isPositive`. */
  datatype Scan = Scan(value: int, floatExp: int, isPositive: bool)

  /** The fields as every successful read resets them. */
  const Initial := Scan(0, 0, true)

  /** One pass of the scan loop over a byte that does not stop it: `-`
      clears the sign, `.` resets the scale to 1, and a digit is appended to
      the value while the scale (if any) grows tenfold. The fields stay
      `Long` values. */
  function Step(st: Scan, b: Byte): (r: Scan)
    requires IsNumeric(b)
    ensures r.isPositive <==> st.isPositive && b != MINUS
    ensures InLong(st.value) && InLong(st.floatExp) ==> InLong(r.value) && InLong(r.floatExp)
  {
    if b == MINUS then st.(isPositive := false)
    else if b == PERIOD then st.(floatExp := 1)
    else Scan(Wrap64(st.value * 10 + (b - ZERO)), Wrap64(st.floatExp * 10), st.isPositive)
  }

  /** The scan fields after the loop has consumed all of `s`, in order. */
  function Fold(s: seq<Byte>): (r: Scan)
    requires AllNumeric(s)
    ensures s == [] ==> r == Initial
    ensures InLong(r.value) && InLong(r.floatExp)
  {
    if s == [] then Initial else Step(Fold(s[..|s| - 1]), s[|s| - 1])
  }

  /** How many bytes the scan consumes: it stops at the first byte that is not
      `-`, `.` or a digit. */
  function NumericPrefixLength(s: seq<Byte>): (n: nat)
    ensures n <= |s|
    ensures AllNumeric(s[..n])
    ensures n < |s| ==> !IsNumeric(s[n])
  {
    if s == [] || !IsNumeric(s[0]) then 0
    else
      var n := 1 + NumericPrefixLength(s[1..]);
      assert s[..n] == [s[0]] + s[1..][..n - 1];
      n
  }

  /** The fields after a read that delivered the bytes `s`: the scan of the
      numeric prefix, with the sign applied once at the end. */
  function Parse(s: seq<Byte>): (r: Scan)
    ensures InLong(r.value) && InLong(r.floatExp)
    ensures r.isPositive <==> MINUS !in s[..NumericPrefixLength(s)]
  {
    var p := s[..NumericPrefixLength(s)];
    FoldSign(p);
    var st := Fold(p);
    if st.isPositive then st else st.(value := Wrap64(st.value * -1))
  }

  function Max(a: int, b: int): int { if a < b then b else a }

  /** Float-to-Long conversion: truncation toward zero. */
  function Truncate(r: real): int {
    if r >= 0.0 then r.Floor else -((-r).Floor)
  }

  /** What `readLong` makes of the fields of a successful read: the value
      itself without a scale, otherwise the quotient truncated toward zero,
      which never leaves the range of `Long` (so the conversion never
      saturates). */
  function LongOf(st: Scan): (r: int)
    ensures st.floatExp == 0 ==> r == st.value
    ensures st.value >= 0 ==> 0 <= r <= st.value
    ensures st.value < 0 ==> st.value <= r <= 0
    ensures InLong(st.value) ==> InLong(r)
  {
    if st.floatExp != 0 then
      TruncatedQuotient(st.value, Max(1, st.floatExp));
      Truncate(st.value as real / Max(1, st.floatExp) as real)
    else st.value
  }

  /** Truncating `v / d` for `d >= 1` moves toward zero and no further. */
  lemma TruncatedQuotient(v: int, d: int)
    requires d >= 1
    ensures v >= 0 ==> 0 <= Truncate(v as real / d as real) <= v
    ensures v < 0 ==> v <= Truncate(v as real / d as real) <= 0
  {
    var q := v as real / d as real;
    assert q * d as real == v as real;
    if v >= 0 {
      assert q >= 0.0;
      assert q * (d - 1) as real >= 0.0;
      assert q <= v as real;
    } else {
      assert q < 0.0;
      assert -q * (d - 1) as real >= 0.0;
      assert -q <= -v as real;
    }
  }

  /** What `readFloat` makes of the fields of a successful read: the value
      divided by the scale, or the value itself when there is no scale. */
  function FloatOf(st: Scan): (r: real)
    ensures r * Max(1, st.floatExp) as real == st.value as real
    ensures st.floatExp <= 1 ==> r == st.value as real
  {
    st.value as real / Max(1, st.floatExp) as real
  }

  /** The result of `readLong` when the read delivered `incoming` and
      returned `count`: null exactly for an empty read, otherwise a `Long`. */
  function LongRead(incoming: seq<Byte>, count: int): (r: Option<int>)
    ensures r.Some? <==> count > 0
    ensures r.Some? ==> InLong(r.value)
  {
    if count <= 0 then None else Some(LongOf(Parse(incoming)))
  }

  /** The result of `readFloat` when the read delivered `incoming` and
      returned `count`: null exactly for an empty read, otherwise the parsed
      value divided by the parsed scale (at least 1). */
  function FloatRead(incoming: seq<Byte>, count: int): (r: Option<real>)
    ensures r.Some? <==> count > 0
    ensures r.Some? ==> r.value == Parse(incoming).value as real / Max(1, Parse(incoming).floatExp) as real
  {
    if count <= 0 then None else Some(FloatOf(Parse(incoming)))
  }

  // ---------------------------------------------------------------------------
  // The reader

  class SysfsReader {
    const buf: array<Byte>
    var readBytes: int
    var value: int
    var isPositive: bool
    var isValid: bool
    var floatExp: int

    /** Opening the file and its existence check are not modelled. */
    constructor ()
      ensures fresh(buf) && buf.Length == BUFFER_SIZE
      ensures readBytes == 0 && value == 0 && isPositive && !isValid && floatExp == 0
    {
      buf := new Byte[BUFFER_SIZE];
      readBytes, value, isPositive, isValid, floatExp := 0, 0, true, false, 0;
    }

    function Fields(): Scan
      reads this
    {
      Scan(value, floatExp, isPositive)
    }

    /** `readNumber`: the seek and read deliver `count` (the read's return
        value) and, when it is positive, the `incoming` bytes placed at the
        front of the buffer; then the bytes are scanned. */
    method ReadNumber(incoming: seq<Byte>, count: int)
      requires count <= buf.Length
      requires |incoming| == (if count > 0 then count else 0)
      modifies this, buf
      ensures readBytes == count && isValid == (count > 0)
      ensures count <= 0 ==> buf[..] == old(buf[..]) && Fields() == old(Fields())
      ensures count > 0 ==> buf[..count] == incoming && buf[count..] == old(buf[count..])
      ensures count > 0 ==> Fields() == Parse(incoming)
    {
      isValid := false;
      forall i | 0 <= i < |incoming| {
        buf[i] := incoming[i];
      }
      readBytes := count;
      if readBytes <= 0 {
        return;
      }
      assert buf[..readBytes] == incoming;
      isValid := true;
      value := 0;
      floatExp := 0;
      isPositive := true;
      var i := 0;
      while i < readBytes
        invariant readBytes == count && isValid
        invariant 0 <= i <= readBytes
        invariant buf[..count] == incoming && buf[count..] == old(buf[count..])
        invariant AllNumeric(incoming[..i])
        invariant Fields() == Fold(incoming[..i])
      {
        var b := buf[i];
        assert b == incoming[i];
        assert incoming[..i + 1][..i] == incoming[..i];
        if b == MINUS {
          isPositive := false;
        } else if b == PERIOD {
          floatExp := 1;
        } else if ZERO <= b <= NINE {
          value := Wrap64(value * 10 + (b - ZERO));
          floatExp := Wrap64(floatExp * 10);
        } else {
          PrefixLengthIs(incoming, i);
          break;
        }
        i := i + 1;
      }
      if i == readBytes {
        PrefixLengthIs(incoming, i);
      }
      if !isPositive {
        value := Wrap64(value * -1);
      }
    }

    /** `readLong`: null when nothing was read. */
    method ReadLong(incoming: seq<Byte>, count: int) returns (r: Option<int>)
      requires count <= buf.Length
      requires |incoming| == (if count > 0 then count else 0)
      modifies this, buf
      ensures r == LongRead(incoming, count)
    {
      ReadNumber(incoming, count);
      if !isValid {
        return None;
      }
      if floatExp != 0 {
        return Some(Truncate(value as real / Max(1, floatExp) as real));
      }
      return Some(value);
    }

    /** `readFloat`: null when nothing was read. */
    method ReadFloat(incoming: seq<Byte>, count: int) returns (r: Option<real>)
      requires count <= buf.Length
      requires |incoming| == (if count > 0 then count else 0)
      modifies this, buf
      ensures r == FloatRead(incoming, count)
    {
      ReadNumber(incoming, count);
      if !isValid {
        return None;
      }
      return Some(value as real / Max(1, floatExp) as real);
    }
  }

  // ---------------------------------------------------------------------------
  // Properties of the scanner

  /** The scan stops exactly at the first byte that is not `-`, `.` or a digit. */
  lemma {:induction false} PrefixLengthIs(s: seq<Byte>, i: nat)
    requires i <= |s| && AllNumeric(s[..i])
    requires i < |s| ==> !IsNumeric(s[i])
    ensures NumericPrefixLength(s) == i
  {
    if i > 0 {
      assert IsNumeric(s[..i][0]);
      assert s[1..][..i - 1] == s[..i][1..];
      PrefixLengthIs(s[1..], i - 1);
    }
  }

  /** A read of zero or fewer bytes is invalid: both readers return null. */
  lemma EmptyReadIsNull(incoming: seq<Byte>, count: int)
    requires count <= 0
    ensures LongRead(incoming, count) == None && FloatRead(incoming, count) == None
  {
  }

  /** Content that starts with a byte the scanner does not accept is a valid
      read of zero. */
  lemma NonNumericStartReadsZero(s: seq<Byte>)
    requires |s| > 0 && !IsNumeric(s[0])
    ensures Parse(s) == Initial
    ensures LongRead(s, |s|) == Some(0) && FloatRead(s, |s|) == Some(0.0)
  {
    assert NumericPrefixLength(s) == 0;
  }

  /** Bytes after the first stopping byte have no effect on the result. */
  lemma LaterBytesIgnored(s: seq<Byte>, t: seq<Byte>, k: nat)
    requires k < |s| && k < |t| && s[..k + 1] == t[..k + 1]
    requires !IsNumeric(s[k])
    ensures Parse(s) == Parse(t)
  {
    var n := NumericPrefixLength(s[..k + 1]);
    assert (s[..k + 1])[..n] == s[..n];
    assert (t[..k + 1])[..n] == t[..n];
    PrefixLengthIs(s, n);
    PrefixLengthIs(t, n);
  }

  /** The values of the digits of `p`, in order. */
  function Digits(p: seq<Byte>): seq<Digit> {
    if p == [] then []
    else
      var b := p[|p| - 1];
      Digits(p[..|p| - 1]) + (if IsDigit(b) then [b - ZERO] else [])
  }

  /** The number that a sequence of decimal digits denotes. */
  function DecimalOf(ds: seq<Digit>): nat {
    if ds == [] then 0 else DecimalOf(ds[..|ds| - 1]) * 10 + ds[|ds| - 1]
  }

  function Pow10(n: nat): nat {
    if n == 0 then 1 else 10 * Pow10(n - 1)
  }

  /** Every digit folds in as `value*10 + digit`, in order: `value` is the
      decimal number of all the digits seen (signs and points skipped),
      wrapped to 64 bits. */
  lemma {:induction false} FoldValue(p: seq<Byte>)
    requires AllNumeric(p)
    ensures Fold(p).value == Wrap64(DecimalOf(Digits(p)))
  {
    if p != [] {
      var q, b := p[..|p| - 1], p[|p| - 1];
      assert AllNumeric(q);
      FoldValue(q);
      assert Fold(p) == Step(Fold(q), b);
      if IsDigit(b) {
        var dq := DecimalOf(Digits(q));
        var ds := Digits(q) + [b - ZERO];
        assert Digits(p) == ds;
        assert ds[..|ds| - 1] == Digits(q);
        assert DecimalOf(ds) == dq * 10 + (b - ZERO);
        assert Fold(p).value == Wrap64(Wrap64(dq) * 10 + (b - ZERO));
        WrapMulAdd(dq, 10, b - ZERO);
      } else {
        assert Digits(p) == Digits(q);
      }
    }
  }

  /** The scan ends negative exactly when a `-` occurs anywhere in it. */
  lemma {:induction false} FoldSign(p: seq<Byte>)
    requires AllNumeric(p)
    ensures Fold(p).isPositive <==> MINUS !in p
  {
    if p != [] {
      var q := p[..|p| - 1];
      assert AllNumeric(q);
      FoldSign(q);
      assert p == q + [p[|p| - 1]];
    }
  }

  /** Without a `.`, the decimal scale stays 0. */
  lemma {:induction false} FloatExpWithoutPeriod(p: seq<Byte>)
    requires AllNumeric(p) && PERIOD !in p
    ensures Fold(p).floatExp == 0
  {
    if p != [] {
      var q := p[..|p| - 1];
      assert AllNumeric(q) && PERIOD !in q;
      FloatExpWithoutPeriod(q);
    }
  }

  /** After the last `.`, the scale is 10 to the number of digits that follow
      it (wrapped to 64 bits): a later `.` resets it to 1. */
  lemma {:induction false} FloatExpAfterLastPeriod(q: seq<Byte>, r: seq<Byte>)
    requires AllNumeric(q + [PERIOD] + r) && PERIOD !in r
    ensures Fold(q + [PERIOD] + r).floatExp == Wrap64(Pow10(|Digits(r)|))
  {
    var p := q + [PERIOD] + r;
    if r == [] {
      assert p[..|p| - 1] == q;
    } else {
      var r', b := r[..|r| - 1], r[|r| - 1];
      assert p[..|p| - 1] == q + [PERIOD] + r';
      assert AllNumeric(q + [PERIOD] + r');
      FloatExpAfterLastPeriod(q, r');
      if IsDigit(b) {
        WrapMulAdd(Pow10(|Digits(r')|), 10, 0);
      }
    }
  }

  /** The signed value of a read: the decimal number of the digits of the
      numeric prefix, negated when that prefix holds a `-`, wrapped to 64 bits. */
  lemma ParseValue(s: seq<Byte>)
    ensures var p := s[..NumericPrefixLength(s)];
            var d: int := DecimalOf(Digits(p));
            Parse(s).value == Wrap64(if MINUS in p then -d else d)
            && (Parse(s).isPositive <==> MINUS !in p)
  {
    var p := s[..NumericPrefixLength(s)];
    FoldValue(p);
    FoldSign(p);
    WrapMulAdd(DecimalOf(Digits(p)), -1, 0);
  }

  /** With no `.` and fewer than 2^63 as the magnitude, `readLong` returns the
      signed integer exactly. */
  lemma LongReadExact(s: seq<Byte>)
    requires |s| > 0
    requires var p := s[..NumericPrefixLength(s)];
             PERIOD !in p && DecimalOf(Digits(p)) < TWO_TO_63
    ensures var p := s[..NumericPrefixLength(s)];
            var d: int := DecimalOf(Digits(p));
            LongRead(s, |s|) == Some(if MINUS in p then -d else d)
  {
    var p := s[..NumericPrefixLength(s)];
    var d: int := DecimalOf(Digits(p));
    SmallValueIsExact(s, p, d);
    FloatExpWithoutPeriod(p);
  }

  lemma SmallValueIsExact(s: seq<Byte>, p: seq<Byte>, d: int)
    requires p == s[..NumericPrefixLength(s)] && d == DecimalOf(Digits(p)) && d < TWO_TO_63
    ensures Parse(s).value == if MINUS in p then -d else d
  {
    ParseValue(s);
  }

  /** "123" reads as the integer 123 and the decimal 123.0. */
  lemma ReadsOneTwoThree()
    ensures LongRead([49, 50, 51], 3) == Some(123)
    ensures FloatRead([49, 50, 51], 3) == Some(123.0)
  {
    var s: seq<Byte> := [49, 50, 51];
    PrefixLengthIs(s, 3);
    assert s[..3] == s;
    assert s[..2] == [49, 50] && s[..2][..1] == [49] && s[..1] == [49] && s[..0] == [];
    assert Fold([49]).value == 1;
    assert Fold([49, 50]).value == 12;
  }

  /** "-45.6" reads as the decimal -45.6 and, truncated, the integer -45. */
  lemma ReadsMinusFortyFivePointSix()
    ensures LongRead([45, 52, 53, 46, 54], 5) == Some(-45)
    ensures FloatRead([45, 52, 53, 46, 54], 5) == Some(-45.6)
  {
    ParsesMinusFortyFivePointSix();
    assert (-456) as real / 10 as real == -45.6;
  }

  /** The fields after reading "-45.6": value -456 at scale 10. */
  lemma ParsesMinusFortyFivePointSix()
    ensures Parse([45, 52, 53, 46, 54]) == Scan(-456, 10, false)
  {
    var s: seq<Byte> := [45, 52, 53, 46, 54];
    PrefixLengthIs(s, 5);
    assert s[..5] == s;
    assert s[..4] == [45, 52, 53, 46] && s[..3] == [45, 52, 53] && s[..2] == [45, 52] && s[..1] == [45];
    assert [45, 52, 53, 46][..3] == [45, 52, 53] && [45, 52, 53][..2] == [45, 52] && [45, 52][..1] == [45];
    assert Fold([45]) == Scan(0, 0, false);
    assert Fold([45, 52]) == Scan(4, 0, false);
    assert Fold([45, 52, 53]) == Scan(45, 0, false);
    assert Fold([45, 52, 53, 46]) == Scan(45, 1, false);
    assert Fold(s) == Scan(456, 10, false);
  }

  /** "abc" is a successful read of 0, not a failure. */
  lemma ReadsLettersAsZero()
    ensures LongRead([97, 98, 99], 3) == Some(0)
    ensures FloatRead([97, 98, 99], 3) == Some(0.0)
  {
    NonNumericStartReadsZero([97, 98, 99]);
  }
}
