/**
 * The pieces of Python's str and number parsing that the WSJT line parser
 * relies on: whitespace as str.isspace and the regular-expression class \s
 * see it, strip/rstrip, slicing with clamped bounds, int() and float() on
 * plain decimal text, and strptime's %H%M[%S] clock fields.
 */
module Text {
  import opened Basics

  /** str.isspace for one character; the str-pattern class \s matches the same set. */
  predicate IsSpace(c: char) {
    || '\t' <= c <= '\r'
    || '\U{1c}' <= c <= '\U{1f}'
    || c == ' ' || c == '\U{85}' || c == '\U{a0}' || c == '\U{1680}'
    || '\U{2000}' <= c <= '\U{200a}'
    || c == '\U{2028}' || c == '\U{2029}' || c == '\U{202f}' || c == '\U{205f}' || c == '\U{3000}'
  }

  /** An ASCII decimal digit. */
  predicate IsDigit(c: char) {
    '0' <= c <= '9'
  }

  predicate AllDigits(s: string) {
    forall i :: 0 <= i < |s| ==> IsDigit(s[i])
  }

  predicate StartsWith(s: string, prefix: string) {
    |prefix| <= |s| && s[..|prefix|] == prefix
  }

  /** str.lstrip(): drop leading whitespace. */
  function LStrip(s: string): (r: string)
    ensures |r| <= |s| && r == s[|s| - |r|..]
    ensures forall i :: 0 <= i < |s| - |r| ==> IsSpace(s[i])
    ensures r == [] || !IsSpace(r[0])
  {
    if s != [] && IsSpace(s[0]) then LStrip(s[1..]) else s
  }

  /** str.rstrip(): drop trailing whitespace. */
  function RStrip(s: string): (r: string)
    ensures |r| <= |s| && r == s[..|r|]
    ensures forall i :: |r| <= i < |s| ==> IsSpace(s[i])
    ensures r == [] || !IsSpace(r[|r| - 1])
  {
    if s != [] && IsSpace(s[|s| - 1]) then RStrip(s[..|s| - 1]) else s
  }

  /** str.strip(): the longest middle part that neither starts nor ends with whitespace. */
  function Strip(s: string): (r: string)
    ensures r == [] || (!IsSpace(r[0]) && !IsSpace(r[|r| - 1]))
  {
    LStrip(RStrip(s))
  }

  /** Stripping text without surrounding whitespace changes nothing, so strip is idempotent. */
  lemma {:induction false} StripIdempotent(s: string)
    ensures Strip(Strip(s)) == Strip(s)
  {
    var r := Strip(s);
    StripTrimmed(r);
  }

  /** Text with no whitespace at either end. */
  predicate Trimmed(s: string) {
    s == [] || (!IsSpace(s[0]) && !IsSpace(s[|s| - 1]))
  }

  lemma StripTrimmed(s: string)
    requires Trimmed(s)
    ensures Strip(s) == s
  {
  }

  /** lstrip removes exactly a leading run of whitespace that ends at k. */
  lemma {:induction false} LStripSkips(s: string, k: nat)
    requires k <= |s| && (forall i :: 0 <= i < k ==> IsSpace(s[i]))
    requires k == |s| || !IsSpace(s[k])
    ensures LStrip(s) == s[k..]
  {
    if k > 0 {
      LStripSkips(s[1..], k - 1);
      assert s[1..][k - 1..] == s[k..];
    }
  }

  /** rstrip removes exactly a trailing run of whitespace that starts at k. */
  lemma {:induction false} RStripSkips(s: string, k: nat)
    requires k <= |s| && (forall i :: k <= i < |s| ==> IsSpace(s[i]))
    requires k == 0 || !IsSpace(s[k - 1])
    ensures RStrip(s) == s[..k]
  {
    if k < |s| {
      RStripSkips(s[..|s| - 1], k);
      assert s[..|s| - 1][..k] == s[..k];
    }
  }

  /** s[lo:hi] for non-negative bounds: both bounds are clamped to the length and an inverted range is empty. */
  function Slice(s: string, lo: nat, hi: nat): (r: string)
    ensures lo <= hi <= |s| ==> r == s[lo..hi]
    ensures |s| <= lo ==> r == []
    ensures lo <= |s| <= hi ==> r == s[lo..]
    ensures forall i :: 0 <= i < |r| ==> lo + i < |s| && r[i] == s[lo + i]
  {
    var l := if lo <= |s| then lo else |s|;
    var h := if hi <= |s| then hi else |s|;
    if l <= h then s[l..h] else []
  }

  /** The value of a run of decimal digits, most significant first. */
  function DigitsValue(d: string): (v: nat)
    requires AllDigits(d)
  {
    if d == [] then 0 else 10 * DigitsValue(d[..|d| - 1]) + (d[|d| - 1] as int - '0' as int)
  }

  /** int() on text: surrounding whitespace, an optional sign, then at least one digit. */
  function ParseInt(s: string): Option<int> {
    SignedInteger(Strip(s))
  }

  /** Digits with an optional sign in front. */
  function SignedInteger(t: string): Option<int> {
    if t != [] && (t[0] == '-' || t[0] == '+') then
      var d := t[1..];
      if d != [] && AllDigits(d) then Some(if t[0] == '-' then 0 - DigitsValue(d) as int else DigitsValue(d)) else None
    else if t != [] && AllDigits(t) then Some(DigitsValue(t))
    else None
  }

  /** Decimal text of a natural number, without leading zeros. */
  function NatText(n: nat): (s: string)
    ensures s != [] && AllDigits(s)
  {
    var digit := ['0' + (n % 10) as char];
    if n < 10 then digit else NatText(n / 10) + digit
  }

  /** Decimal text of an integer, as str() writes it. */
  function IntText(n: int): (s: string) {
    if n < 0 then "-" + NatText(-n) else NatText(n)
  }

  lemma {:induction false} NatTextValue(n: nat)
    ensures DigitsValue(NatText(n)) == n
  {
    var s := NatText(n);
    if n >= 10 {
      NatTextValue(n / 10);
      assert s[..|s| - 1] == NatText(n / 10);
    }
  }

  /** int() reads back what str() writes. */
  lemma ParseIntText(n: int)
    ensures ParseInt(IntText(n)) == Some(n)
  {
    var t := IntText(n);
    IntTextTrimmed(n);
    StripTrimmed(t);
    if n < 0 {
      var d := NatText(-n);
      assert t[0] == '-' && t[1..] == d;
      NatTextValue(-n);
    } else {
      var d := NatText(n);
      assert IsDigit(t[0]);
      NatTextValue(n);
    }
  }

  /** 10 to the power k. */
  function Pow10(k: nat): (p: nat)
    ensures p >= 1
  {
    if k == 0 then 1 else 10 * Pow10(k - 1)
  }

  /** The index of the first '.' in s, or |s| when there is none. */
  function PointIndex(s: string): (p: nat)
    ensures p <= |s| && (p < |s| ==> s[p] == '.')
    ensures forall i :: 0 <= i < p ==> s[i] != '.'
  {
    if s == [] then 0 else if s[0] == '.' then 0 else 1 + PointIndex(s[1..])
  }

  /** n / 10^k, one decimal place at a time. */
  function Scaled(n: int, k: nat): real {
    if k == 0 then n as real else Scaled(n, k - 1) / 10.0
  }

  /** Scaling by k places divides by 10 to the power k. */
  lemma {:induction false} ScaledTimesPower(n: int, k: nat)
    ensures Scaled(n, k) * Pow10(k) as real == n as real
  {
    if k > 0 {
      ScaledTimesPower(n, k - 1);
      var a := Scaled(n, k - 1);
      var b := Pow10(k - 1) as real;
      assert Pow10(k) as real == 10.0 * b;
      assert Scaled(n, k) * Pow10(k) as real == (a / 10.0) * (10.0 * b);
      assert (a / 10.0) * (10.0 * b) == a * b;
    }
  }

  lemma {:induction false} ScaledSum(a: int, b: int, k: nat)
    ensures Scaled(a + b, k) == Scaled(a, k) + Scaled(b, k)
  {
    if k > 0 {
      ScaledSum(a, b, k - 1);
    }
  }

  lemma {:induction false} ScaledWhole(q: int, k: nat)
    ensures Scaled(q * Pow10(k), k) == q as real
    decreases k
  {
    if k > 0 {
      assert q * Pow10(k) == (10 * q) * Pow10(k - 1);
      ScaledWhole(10 * q, k - 1);
    }
  }

  lemma {:induction false} ScaledNegated(n: int, k: nat)
    ensures Scaled(-n, k) == -Scaled(n, k)
  {
    if k > 0 {
      ScaledNegated(n, k - 1);
    }
  }

  /**
   * The value of unsigned decimal text: digits, optionally one point and more
   * digits, at least one digit in all; the digits after the point count
   * tenths, hundredths and so on.
   */
  function DecimalValue(body: string): Option<real> {
    var p := PointIndex(body);
    DecimalParts(body[..p], if p < |body| then body[p + 1..] else [])
  }

  /** The value of the digits before and after the point. */
  function DecimalParts(whole: string, frac: string): Option<real> {
    if AllDigits(whole) && AllDigits(frac) && |whole| + |frac| > 0 then
      Some(DigitsValue(whole) as real + Scaled(DigitsValue(frac), |frac|))
    else None
  }

  /** Decimal text with an optional sign in front. */
  function SignedDecimal(t: string): Option<real> {
    var body := if t != [] && (t[0] == '-' || t[0] == '+') then t[1..] else t;
    match DecimalValue(body)
    case None => None
    case Some(v) => Some(if t[0] == '-' then -v else v)
  }

  /**
   * float() on plain decimal text: surrounding whitespace, an optional sign,
   * then unsigned decimal text.
   */
  function ParseFloat(s: string): Option<real> {
    SignedDecimal(Strip(s))
  }

  /** float() reads an integer's decimal text as that integer. */
  lemma ParseFloatIntText(n: int)
    ensures ParseFloat(IntText(n)) == Some(n as real)
  {
    var m: nat := if n < 0 then -n else n;
    var d := NatText(m);
    assert IsDigit(d[0]) && IsDigit(d[|d| - 1]);
    NatTextValue(m);
    DecimalValueOfDigits(d);
    ParseFloatSigned(n < 0, d, m as real, n as real);
  }

  /** Digits alone are a whole number. */
  lemma DecimalValueOfDigits(s: string)
    requires s != [] && AllDigits(s)
    ensures DecimalValue(s) == Some(DigitsValue(s) as real)
  {
    PointIndexOfDigits(s);
    assert s[..|s|] == s;
  }

  lemma PointIndexOfDigits(s: string)
    requires AllDigits(s)
    ensures PointIndex(s) == |s|
  {
    if s != [] {
      PointIndexOfDigits(s[1..]);
    }
  }

  /** Two decimal digits with a leading zero, as %H, %M and %S print. */
  function TwoDigits(n: nat): (s: string)
    requires n < 100
    ensures |s| == 2 && AllDigits(s)
  {
    ['0' + (n / 10) as char, '0' + (n % 10) as char]
  }

  lemma TwoDigitsValue(n: nat)
    requires n < 100
    ensures DigitsValue(TwoDigits(n)) == n
  {
    var s := TwoDigits(n);
    assert s[0] as int - '0' as int == n / 10;
    assert s[1] as int - '0' as int == n % 10;
    assert s[..1] == [s[0]];
    assert s[..1][..0] == [];
    assert DigitsValue(s[..1]) == n / 10;
  }

  /**
   * strptime with "%H%M" (four characters) or "%H%M%S" (six): the seconds
   * since midnight. Hours run to 23, minutes and seconds to 59.
   */
  function ParseClock(t: string, withSeconds: bool): (r: Option<nat>)
    ensures r.Some? ==> r.value < 86400
    ensures r.Some? && !withSeconds ==> r.value % 60 == 0
  {
    if |t| == (if withSeconds then 6 else 4) && AllDigits(t) then
      var h := DigitsValue(t[0..2]);
      var m := DigitsValue(t[2..4]);
      var sec := if withSeconds then DigitsValue(t[4..6]) else 0;
      if h <= 23 && m <= 59 && sec <= 59 then Some(3600 * h + 60 * m + sec) else None
    else None
  }

  /** The clock text of hours, minutes and (with "%S") seconds, as strftime writes it with the same format. */
  function ClockText(h: nat, m: nat, sec: nat, withSeconds: bool): (t: string)
    requires h < 24 && m < 60 && sec < 60
    ensures |t| == (if withSeconds then 6 else 4) && AllDigits(t)
  {
    var hm := TwoDigits(h) + TwoDigits(m);
    if withSeconds then hm + TwoDigits(sec) else hm
  }

  /** The seconds since midnight a clock shows; without "%S" the seconds are not written. */
  function ClockSeconds(h: nat, m: nat, sec: nat, withSeconds: bool): nat {
    3600 * h + 60 * m + (if withSeconds then sec else 0)
  }

  /** Parsing clock text gives back the time of day it was written from. */
  lemma ParseClockText(h: nat, m: nat, sec: nat, withSeconds: bool)
    requires h < 24 && m < 60 && sec < 60
    ensures ParseClock(ClockText(h, m, sec, withSeconds), withSeconds) == Some(ClockSeconds(h, m, sec, withSeconds))
  {
    var t := ClockText(h, m, sec, withSeconds);
    assert t[0..2] == TwoDigits(h);
    assert t[2..4] == TwoDigits(m);
    TwoDigitsValue(h);
    TwoDigitsValue(m);
    if withSeconds {
      assert t[4..6] == TwoDigits(sec);
      TwoDigitsValue(sec);
    }
  }

  /** n blanks. */
  function Spaces(n: nat): (s: string)
    ensures |s| == n && forall i :: 0 <= i < n ==> s[i] == ' '
  {
    seq(n, _ => ' ')
  }

  /** Text right-aligned in a field of the given width, as a printf width pads it; wider text is left whole. */
  function PadLeft(t: string, width: nat): (s: string)
    ensures |s| == if |t| < width then width else |t|
    ensures s[|s| - |t|..] == t
    ensures forall i :: 0 <= i < |s| - |t| ==> s[i] == ' '
  {
    if |t| < width then Spaces(width - |t|) + t else t
  }

  /** Stripping a padded field gives back the text that was padded. */
  lemma StripPadLeft(t: string, width: nat)
    requires t != [] && Trimmed(t)
    ensures Strip(PadLeft(t, width)) == t
  {
    var s := PadLeft(t, width);
    RStripSkips(s, |s|);
    assert s[..|s|] == s;
    LStripSkips(s, |s| - |t|);
  }

  /** A blank after a column is stripped away with the column's own padding. */
  lemma StripBlankLast(t: string)
    ensures Strip(t + " ") == Strip(t)
    ensures ParseInt(t + " ") == ParseInt(t) && ParseFloat(t + " ") == ParseFloat(t)
  {
    var b := t + " ";
    assert b[..|b| - 1] == t;
    assert RStrip(b) == RStrip(t);
  }

  /** int() and float() read a padded field as they read the text in it. */
  lemma ParsePadLeft(t: string, width: nat)
    requires t != [] && Trimmed(t)
    ensures ParseInt(PadLeft(t, width)) == ParseInt(t)
    ensures ParseFloat(PadLeft(t, width)) == ParseFloat(t)
  {
    StripPadLeft(t, width);
    StripTrimmed(t);
  }

  /** Decimal text of n as str() writes it is nonempty and has no surrounding whitespace; it ends in a digit. */
  lemma IntTextTrimmed(n: int)
    ensures var t := IntText(n);
      t != [] && Trimmed(t) && IsDigit(t[|t| - 1])
  {
    var d := NatText(if n < 0 then -n else n);
    assert IsDigit(d[0]) && IsDigit(d[|d| - 1]);
  }

  /** The last k decimal digits of m, zero-padded on the left to k places. */
  function LastDigits(m: nat, k: nat): (s: string)
    ensures |s| == k && AllDigits(s)
  {
    if k == 0 then [] else LastDigits(m / 10, k - 1) + ['0' + (m % 10) as char]
  }

  /** m with its last k decimal digits removed. */
  function DropDigits(m: nat, k: nat): nat {
    if k == 0 then m else DropDigits(m / 10, k - 1)
  }

  /** The removed digits and the remaining ones make up the number again. */
  lemma {:induction false} SplitDigits(m: nat, k: nat)
    ensures DropDigits(m, k) * Pow10(k) + DigitsValue(LastDigits(m, k)) == m
  {
    if k > 0 {
      SplitDigits(m / 10, k - 1);
      var s := LastDigits(m, k);
      var t := LastDigits(m / 10, k - 1);
      assert s[..|s| - 1] == t && s[|s| - 1] as int - '0' as int == m % 10;
      assert DigitsValue(s) == 10 * DigitsValue(t) + m % 10;
      ShiftDigit(m, DropDigits(m / 10, k - 1), Pow10(k - 1), DigitsValue(t));
    }
  }

  /** One more digit on the right multiplies the left part by ten. */
  lemma ShiftDigit(m: nat, d: nat, p: nat, r: nat)
    requires d * p + r == m / 10
    ensures d * (10 * p) + (10 * r + m % 10) == m
  {
    assert d * (10 * p) == 10 * (d * p);
  }

  /**
   * The fixed-point text of v / 10^places with that many decimals, as "%.Nf"
   * writes it: a minus sign for negative v, the whole part, a point, and the
   * fraction padded with zeros.
   */
  function FixedText(v: int, places: nat): (s: string)
    requires places >= 1
  {
    var body := FixedBody(if v < 0 then -v else v, places);
    if v < 0 then "-" + body else body
  }

  /** The unsigned part of FixedText: whole part, point, zero-padded fraction. */
  function FixedBody(m: nat, places: nat): (s: string)
    requires places >= 1
  {
    NatText(DropDigits(m, places)) + "." + LastDigits(m, places)
  }

  /** The characters of a number's text: digits, a minus sign and a point. */
  predicate NumberChars(s: string) {
    forall i :: 0 <= i < |s| ==> IsDigit(s[i]) || s[i] == '-' || s[i] == '.'
  }

  /** Fixed-point text is nonempty, has no surrounding whitespace and is made of number characters. */
  lemma FixedBodyShape(m: nat, places: nat)
    requires places >= 1
    ensures var b := FixedBody(m, places);
      b != [] && IsDigit(b[0]) && IsDigit(b[|b| - 1]) && NumberChars(b)
  {
    var w := NatText(DropDigits(m, places));
    var f := LastDigits(m, places);
    var body := w + "." + f;
    assert body[0] == w[0] && body[|body| - 1] == f[|f| - 1];
    assert NumberChars(body);
  }

  lemma FixedTextShape(v: int, places: nat)
    requires places >= 1
    ensures var t := FixedText(v, places);
      t != [] && Trimmed(t) && NumberChars(t)
  {
    var body := FixedBody(if v < 0 then -v else v, places);
    FixedBodyShape(if v < 0 then -v else v, places);
    if v < 0 {
      assert ("-" + body)[|body|] == body[|body| - 1];
      assert NumberChars("-" + body);
    }
  }

  /** In digits followed by a point, the first point is the one after the digits. */
  lemma PointIndexAfterDigits(w: string, rest: string)
    requires AllDigits(w) && rest != [] && rest[0] == '.'
    ensures PointIndex(w + rest) == |w|
  {
    var body := w + rest;
    assert body[|w|] == '.';
    assert forall i :: 0 <= i < |w| ==> body[i] == w[i];
  }

  /** Digits, a point and more digits: the whole part plus the fraction. */
  lemma DecimalValueOfPoint(w: string, f: string)
    requires w != [] && AllDigits(w) && AllDigits(f)
    ensures DecimalValue(w + "." + f) == Some(DigitsValue(w) as real + Scaled(DigitsValue(f), |f|))
  {
    PointAfterDigits(w, f);
    DecimalValueSplits(w, f);
    DecimalPartsOfDigits(w, f);
  }

  /** DecimalValueOfPoint with the values of both digit runs given. */
  lemma DecimalValueOfParts(w: string, f: string, a: nat, b: nat, k: nat, x: real)
    requires w != [] && AllDigits(w) && AllDigits(f)
    requires DigitsValue(w) == a && DigitsValue(f) == b && |f| == k
    requires x == a as real + Scaled(b, k)
    ensures DecimalValue(w + "." + f) == Some(x)
  {
    DecimalValueOfPoint(w, f);
  }

  lemma DecimalPartsOfDigits(w: string, f: string)
    requires w != [] && AllDigits(w) && AllDigits(f)
    ensures DecimalParts(w, f) == Some(DigitsValue(w) as real + Scaled(DigitsValue(f), |f|))
  {
  }

  lemma PointAfterDigits(w: string, f: string)
    requires AllDigits(w)
    ensures PointIndex(w + "." + f) == |w|
  {
    var body := w + "." + f;
    assert body == w + ("." + f);
    PointIndexAfterDigits(w, "." + f);
  }

  lemma DecimalValueSplits(w: string, f: string)
    requires PointIndex(w + "." + f) == |w|
    ensures DecimalValue(w + "." + f) == DecimalParts(w, f)
  {
    var body := w + "." + f;
    assert body[..|w|] == w && body[|w| + 1..] == f;
  }

  lemma SignedDecimalNegative(body: string, x: real)
    requires body != [] && IsDigit(body[0]) && DecimalValue(body) == Some(x)
    ensures SignedDecimal("-" + body) == Some(-x)
  {
    assert ("-" + body)[1..] == body;
  }

  lemma SignedDecimalUnsigned(body: string)
    requires body != [] && IsDigit(body[0])
    ensures SignedDecimal(body) == DecimalValue(body)
  {
  }

  /** float() on text without surrounding whitespace is the signed decimal value of the text itself. */
  lemma ParseFloatTrimmed(t: string)
    requires Trimmed(t)
    ensures ParseFloat(t) == SignedDecimal(t)
  {
    StripTrimmed(t);
  }

  /** float() on unsigned decimal text. */
  lemma ParseFloatUnsigned(body: string, x: real)
    requires body != [] && IsDigit(body[0]) && IsDigit(body[|body| - 1])
    requires DecimalValue(body) == Some(x)
    ensures ParseFloat(body) == Some(x)
  {
    assert Trimmed(body);
    ParseFloatTrimmed(body);
    SignedDecimalUnsigned(body);
  }

  /** float() on a minus sign before unsigned decimal text. */
  lemma ParseFloatNegative(body: string, x: real)
    requires body != [] && IsDigit(body[0]) && IsDigit(body[|body| - 1])
    requires DecimalValue(body) == Some(x)
    ensures ParseFloat("-" + body) == Some(-x)
  {
    var t := "-" + body;
    assert t[0] == '-' && t[|t| - 1] == body[|body| - 1];
    ParseFloatTrimmed(t);
    SignedDecimalNegative(body, x);
  }

  /** Scaling a number split as q * 10^k + r gives q plus the scaled remainder. */
  lemma ScaledQuotient(m: int, q: int, r: int, k: nat)
    requires m == q * Pow10(k) + r
    ensures Scaled(m, k) == q as real + Scaled(r, k)
  {
    ScaledSum(q * Pow10(k), r, k);
    ScaledWhole(q, k);
  }

  /** Scaled down by 10^k, m is its leading digits plus its last k digits scaled down. */
  lemma ScaledSplit(m: nat, k: nat)
    ensures Scaled(m, k) == DropDigits(m, k) as real + Scaled(DigitsValue(LastDigits(m, k)), k)
  {
    SplitDigits(m, k);
    ScaledQuotient(m, DropDigits(m, k), DigitsValue(LastDigits(m, k)), k);
  }

  /** The unsigned part of fixed-point text has the value it was written from. */
  lemma FixedBodyValue(m: nat, places: nat)
    requires places >= 1
    ensures DecimalValue(FixedBody(m, places)) == Some(Scaled(m, places))
  {
    var q := DropDigits(m, places);
    var w := NatText(q);
    var f := LastDigits(m, places);
    NatTextValue(q);
    ScaledSplit(m, places);
    DecimalValueOfParts(w, f, q, DigitsValue(f), places, Scaled(m, places));
  }

  /** float() on unsigned decimal text, or on the same text after a minus sign. */
  lemma ParseFloatSigned(negative: bool, body: string, x: real, y: real)
    requires body != [] && IsDigit(body[0]) && IsDigit(body[|body| - 1])
    requires DecimalValue(body) == Some(x) && y == (if negative then -x else x)
    ensures ParseFloat(if negative then "-" + body else body) == Some(y)
  {
    if negative {
      ParseFloatNegative(body, x);
    } else {
      ParseFloatUnsigned(body, x);
    }
  }

  /** float() reads fixed-point text back as the value it was written from. */
  lemma ParseFloatFixedText(v: int, places: nat)
    requires places >= 1
    ensures ParseFloat(FixedText(v, places)) == Some(Scaled(v, places))
  {
    var m: nat := if v < 0 then -v else v;
    FixedBodyShape(m, places);
    FixedBodyValue(m, places);
    ScaledNegated(v, places);
    ParseFloatSigned(v < 0, FixedBody(m, places), Scaled(m, places), Scaled(v, places));
  }
}
