/** Number parsing and integer conversions of the two runtimes: Java's
    `new BigDecimal(String)`, `Long.parseLong`, `BigDecimal.intValue()`, and
    JavaScript's `Number(string)` and `parseInt(string)`. Only ASCII digits
    are read. */
module Numbers {
  import opened Wrappers
  import Text

  predicate IsDigit(c: char) { '0' <= c <= '9' }

  predicate AllDigits(s: string) { forall i :: 0 <= i < |s| ==> IsDigit(s[i]) }

  function DigitValue(c: char): nat
    requires IsDigit(c)
  {
    c as int - '0' as int
  }

  /** Value of a string of decimal digits, most significant first. */
  function DigitsValue(s: string): nat
    requires AllDigits(s)
  {
    if s == [] then 0 else DigitsValue(s[..|s| - 1]) * 10 + DigitValue(s[|s| - 1])
  }

  function Pow10(n: nat): (r: nat)
    ensures r >= 1
  {
    if n == 0 then 1 else 10 * Pow10(n - 1)
  }

  /** Index of the first occurrence of `c` in `s`, or |s| when there is none. */
  function IndexOf(s: string, c: char): (k: nat)
    ensures k <= |s|
    ensures forall i :: 0 <= i < k ==> s[i] != c
    ensures k < |s| ==> s[k] == c
  {
    if s == [] then 0 else if s[0] == c then 0 else 1 + IndexOf(s[1..], c)
  }

  /** Splits off an optional leading '+' or '-'; the flag says whether it was '-'. */
  function SplitSign(s: string): (r: (bool, string))
    ensures |r.1| <= |s|
  {
    if |s| > 0 && s[0] == '-' then (true, s[1..])
    else if |s| > 0 && s[0] == '+' then (false, s[1..])
    else (false, s)
  }

  /** A signed integer written `sign? digits`, at least one digit. */
  function ParseSignedDigits(s: string): Option<int> {
    var (neg, d) := SplitSign(s);
    if d != [] && AllDigits(d) then Some(if neg then -(DigitsValue(d) as int) else DigitsValue(d)) else None
  }

  /** `intDigits ('.' fracDigits)?` with at least one digit in all. */
  function ParseSignificand(s: string): Option<real> {
    var k := IndexOf(s, '.');
    var ip := s[..k];
    var fp := if k < |s| then s[k + 1..] else "";
    if AllDigits(ip) && AllDigits(fp) && |ip| + |fp| > 0 then
      Some(DigitsValue(ip) as real + DigitsValue(fp) as real / Pow10(|fp|) as real)
    else None
  }

  function Scale(x: real, e: int): real {
    if e >= 0 then x * Pow10(e) as real else x / Pow10(-e) as real
  }

  /** Decimal text `sign? significand (('e'|'E') sign? digits)?`, the grammar
      shared by `new BigDecimal(String)` and the decimal literals of
      JavaScript's `Number(string)`, with no bound on the exponent. None is
      NaN; ParseBigDecimal adds Java's int bounds. */
  function ParseDecimal(s: string): Option<real> {
    var (neg, body) := SplitSign(s);
    var k := ExponentIndex(body);
    var sig := ParseSignificand(body[..k]);
    var exp := if k < |body| then ParseSignedDigits(body[k + 1..]) else Some(0);
    if sig.Some? && exp.Some? then Some(Signed(neg, Scale(sig.value, exp.value))) else None
  }

  /** Index of the first 'e' or 'E', or |s| when there is none. */
  function ExponentIndex(s: string): (k: nat)
    ensures k <= |s|
    ensures k < |s| ==> s[k] == 'e' || s[k] == 'E'
  {
    var ke := IndexOf(s, 'e');
    var kE := IndexOf(s, 'E');
    if ke < kE then ke else kE
  }

  function Signed(neg: bool, x: real): real {
    if neg then -x else x
  }

  /** Characters that can appear in decimal text. */
  predicate NumericChar(c: char) {
    IsDigit(c) || c == '+' || c == '-' || c == '.' || c == 'e' || c == 'E'
  }

  predicate AllNumeric(s: string) { forall i :: 0 <= i < |s| ==> NumericChar(s[i]) }

  lemma JoinNumeric(a: string, c: char, b: string)
    requires AllNumeric(a) && NumericChar(c) && AllNumeric(b)
    ensures AllNumeric(a + [c] + b)
  {
    var s := a + [c] + b;
    forall i | 0 <= i < |s| ensures NumericChar(s[i]) {
      if i < |a| { assert s[i] == a[i]; }
      else if i > |a| { assert s[i] == b[i - |a| - 1]; }
    }
  }

  lemma SignedNumeric(s: string, body: string)
    requires AllNumeric(body) && body == SplitSign(s).1
    ensures AllNumeric(s)
  {
    if body != s {
      assert s == [] + [s[0]] + body;
      JoinNumeric([], s[0], body);
    }
  }

  lemma SignedDigitsChars(s: string)
    requires ParseSignedDigits(s).Some?
    ensures AllNumeric(s)
  {
    SignedNumeric(s, SplitSign(s).1);
  }

  lemma SignificandChars(s: string)
    requires ParseSignificand(s).Some?
    ensures AllNumeric(s)
  {
    var k := IndexOf(s, '.');
    if k < |s| {
      assert s == s[..k] + [s[k]] + s[k + 1..];
      JoinNumeric(s[..k], s[k], s[k + 1..]);
    } else {
      assert s == s[..k];
    }
  }

  /** Whatever ParseDecimal accepts is made of digits, signs, '.', 'e' and 'E'
      only: any other character makes the text unparsable. */
  lemma DecimalChars(s: string)
    requires ParseDecimal(s).Some?
    ensures AllNumeric(s)
  {
    var body := SplitSign(s).1;
    var k := ExponentIndex(body);
    SignificandChars(body[..k]);
    if k < |body| {
      SignedDigitsChars(body[k + 1..]);
      assert body == body[..k] + [body[k]] + body[k + 1..];
      JoinNumeric(body[..k], body[k], body[k + 1..]);
    } else {
      assert body == body[..k];
    }
    SignedNumeric(s, body);
  }

  /** Decimal digits of a natural number, most significant first. */
  function ShowNat(n: nat): (r: string)
    ensures |r| > 0 && AllDigits(r)
  {
    if n < 10 then ['0' + n as char] else ShowNat(n / 10) + ['0' + (n % 10) as char]
  }

  lemma {:induction false} ShowNatValue(n: nat)
    ensures DigitsValue(ShowNat(n)) == n
  {
    if n >= 10 {
      var p := ShowNat(n / 10);
      ShowNatValue(n / 10);
      assert ShowNat(n)[..|ShowNat(n)| - 1] == p;
    }
  }

  /** Decimal text of an integer: a '-' sign for negatives, digits otherwise. */
  function ShowInt(n: int): string {
    if n < 0 then "-" + ShowNat(-n) else ShowNat(n)
  }

  /** Range of Java's long. */
  const MinLong: int := -0x8000_0000_0000_0000
  const MaxLong: int := 0x7FFF_FFFF_FFFF_FFFF

  /** `Long.parseLong(s)`: an optional sign and at least one digit, within the
      range of a long; None is the NumberFormatException. */
  function ParseLong(s: string): (r: Option<int>)
    ensures r.Some? ==> MinLong <= r.value <= MaxLong
  {
    var v := ParseSignedDigits(s);
    if v.Some? && MinLong <= v.value <= MaxLong then v else None
  }

  /** ParseLong reads back the decimal text of every long. */
  lemma ParseLongShowInt(n: int)
    requires MinLong <= n <= MaxLong
    ensures ParseLong(ShowInt(n)) == Some(n)
  {
    if n < 0 {
      ShowNatValue(-n);
      assert SplitSign(ShowInt(n)) == (true, ShowNat(-n));
    } else {
      ShowNatValue(n);
      assert SplitSign(ShowInt(n)) == (false, ShowNat(n));
    }
  }

  /** The decimal text of a natural number parses to that number. */
  lemma ParseDecimalShowNat(n: nat)
    ensures ParseDecimal(ShowNat(n)) == Some(n as real)
  {
    var s := ShowNat(n);
    ShowNatValue(n);
    assert SplitSign(s) == (false, s);
    assert ExponentIndex(s) == |s| && IndexOf(s, '.') == |s|;
    assert s[..|s|] == s;
  }

  /** Range of Java's int. */
  const MinInt: int := -0x8000_0000
  const MaxInt: int := 0x7FFF_FFFF

  /** The exponent of decimal text, 0 when it has none. */
  function ExponentOf(s: string): Option<int> {
    var body := SplitSign(s).1;
    var k := ExponentIndex(body);
    if k < |body| then ParseSignedDigits(body[k + 1..]) else Some(0)
  }

  /** The number of digits after the point: the scale BigDecimal gives the
      significand before the exponent shifts it. */
  function FractionDigits(s: string): nat {
    var body := SplitSign(s).1;
    var sig := body[..ExponentIndex(body)];
    var k := IndexOf(sig, '.');
    if k < |sig| then |sig| - k - 1 else 0
  }

  /** `new BigDecimal(String)`: ParseDecimal's grammar, except that the
      exponent must fit an int and so must the scale, the number of
      fraction digits less the exponent; None is the NumberFormatException. */
  function ParseBigDecimal(s: string): (r: Option<real>)
    ensures r.Some? <==>
      ParseDecimal(s).Some? && MinInt <= ExponentOf(s).value <= MaxInt &&
      MinInt <= FractionDigits(s) - ExponentOf(s).value <= MaxInt
    ensures r.Some? ==> r == ParseDecimal(s)
  {
    var e := ExponentOf(s);
    if ParseDecimal(s).Some? && MinInt <= e.value <= MaxInt && MinInt <= FractionDigits(s) - e.value <= MaxInt
    then ParseDecimal(s) else None
  }

  /** Text without an exponent marker and with a reasonable number of
      fraction digits reads the same in both runtimes. */
  lemma PlainDecimalAgrees(s: string)
    requires 'e' !in s && 'E' !in s && |s| <= MaxInt
    ensures ParseBigDecimal(s) == ParseDecimal(s)
  {
  }

  /** The decimal text of a natural number is a BigDecimal of that value. */
  lemma ParseBigDecimalShowNat(n: nat)
    requires |ShowNat(n)| <= MaxInt
    ensures ParseBigDecimal(ShowNat(n)) == Some(n as real)
  {
    ParseDecimalShowNat(n);
    AllDigitsNoMarker(ShowNat(n));
    PlainDecimalAgrees(ShowNat(n));
  }

  lemma AllDigitsNoMarker(s: string)
    requires AllDigits(s)
    ensures 'e' !in s && 'E' !in s
  {
  }

  /** `1eN` for an exponent N beyond the int range: a number to ParseDecimal,
      a NumberFormatException to BigDecimal. */
  lemma HugeExponentRefused(n: nat)
    requires n > MaxInt
    ensures ParseDecimal("1e" + ShowNat(n)) == Some(Pow10(n) as real)
    ensures ParseBigDecimal("1e" + ShowNat(n)) == None
  {
    var d := ShowNat(n);
    var s := "1e" + d;
    ExponentMarkerSplit(d);
    ShowNatValue(n);
    assert ParseSignificand(s[..1]) == Some(1.0) by {
      assert IndexOf("1", '.') == 1;
    }
    assert ParseSignedDigits(s[2..]) == Some(n);
    assert ParseDecimal(s) == Some(Scale(1.0, n));
    assert ExponentOf(s) == Some(n);
    assert FractionDigits(s) == 0 by {
      assert IndexOf("1", '.') == 1;
    }
  }

  /** Where `1eD` splits, for a string of digits D. */
  lemma ExponentMarkerSplit(d: string)
    requires AllDigits(d)
    ensures SplitSign("1e" + d) == (false, "1e" + d)
    ensures ExponentIndex("1e" + d) == 1
    ensures ("1e" + d)[..1] == "1" && ("1e" + d)[2..] == d
    ensures d != [] ==> SplitSign(d) == (false, d)
  {
    var s := "1e" + d;
    assert IndexOf(s, 'e') == 1;
    forall i | 2 <= i < |s| ensures s[i] != 'E' {
      assert s[i] == d[i - 2];
    }
  }

  /** Result of JavaScript's `Number(x)` on a string. */
  datatype JsNumber = NaN | Finite(value: real) | PosInfinity | NegInfinity

  /** `x >= y` on JavaScript numbers: false whenever NaN is involved. */
  predicate JsGe(x: JsNumber, y: JsNumber) {
    match (x, y)
    case (NaN, _) => false
    case (_, NaN) => false
    case (PosInfinity, _) => true
    case (_, NegInfinity) => true
    case (NegInfinity, _) => false
    case (_, PosInfinity) => false
    case (Finite(a), Finite(b)) => a >= b
  }

  function TrimStart(s: string): (r: string)
    ensures |r| <= |s|
  {
    if s != [] && Text.IsSpace(s[0]) then TrimStart(s[1..]) else s
  }

  function TrimEnd(s: string): (r: string)
    ensures |r| <= |s|
  {
    if s != [] && Text.IsSpace(s[|s| - 1]) then TrimEnd(s[..|s| - 1]) else s
  }

  /** `Number(s)`: surrounding white space is ignored, the empty string is 0,
      "Infinity" may be signed, and the rest is decimal text. */
  function ToNumber(s: string): JsNumber {
    var t := TrimEnd(TrimStart(s));
    if t == "" then Finite(0.0)
    else if t == "Infinity" || t == "+Infinity" then PosInfinity
    else if t == "-Infinity" then NegInfinity
    else match ParseDecimal(t)
      case Some(v) => Finite(v)
      case None => NaN
  }

  lemma TrimmedKeepsChars(s: string)
    ensures forall c :: c in TrimEnd(TrimStart(s)) ==> c in s
  {
    TrimStartSub(s);
    TrimEndSub(TrimStart(s));
  }

  lemma TrimStartSub(s: string)
    ensures forall c :: c in TrimStart(s) ==> c in s
  {
    if s != [] && Text.IsSpace(s[0]) {
      TrimStartSub(s[1..]);
    }
  }

  lemma TrimEndSub(s: string)
    ensures forall c :: c in TrimEnd(s) ==> c in s
  {
    if s != [] && Text.IsSpace(s[|s| - 1]) {
      TrimEndSub(s[..|s| - 1]);
    }
  }

  /** A string holding a character that is neither white space nor part of
      decimal text, and that is not one of the Infinity spellings, converts to
      NaN (`Number('abc')`). */
  lemma NonNumericIsNaN(s: string, c: char)
    requires c in s && !NumericChar(c) && !Text.IsSpace(c)
    requires c !in "Infinity"
    ensures ToNumber(s) == NaN
  {
    var t := TrimEnd(TrimStart(s));
    if c in t {
      assert t != "";
      if ParseDecimal(t).Some? {
        DecimalChars(t);
      }
    } else {
      NotInTrimmed(s, c);
    }
  }

  /** Trimming removes white space only. */
  lemma NotInTrimmed(s: string, c: char)
    requires c in s && !Text.IsSpace(c)
    ensures c in TrimEnd(TrimStart(s))
  {
    KeptByTrimStart(s, c);
    KeptByTrimEnd(TrimStart(s), c);
  }

  lemma KeptByTrimStart(s: string, c: char)
    requires c in s && !Text.IsSpace(c)
    ensures c in TrimStart(s)
  {
    if s != [] && Text.IsSpace(s[0]) {
      assert c in s[1..];
      KeptByTrimStart(s[1..], c);
    }
  }

  lemma KeptByTrimEnd(s: string, c: char)
    requires c in s && !Text.IsSpace(c)
    ensures c in TrimEnd(s)
  {
    if s != [] && Text.IsSpace(s[|s| - 1]) {
      assert c in s[..|s| - 1];
      KeptByTrimEnd(s[..|s| - 1], c);
    }
  }

  /** `parseInt(s)` with no radix: leading white space, an optional sign and
      the longest run of digits that follows; None is NaN. */
  function ParseIntPrefix(s: string): Option<int> {
    var (neg, body) := SplitSign(TrimStart(s));
    var n := DigitRun(body);
    if n == 0 then None
    else Some(if neg then -(DigitsValue(body[..n]) as int) else DigitsValue(body[..n]))
  }

  /** Length of the run of digits at the start of `s`. */
  function DigitRun(s: string): (n: nat)
    ensures n <= |s| && AllDigits(s[..n])
    ensures n < |s| ==> !IsDigit(s[n])
  {
    if s != [] && IsDigit(s[0]) then
      var m := DigitRun(s[1..]);
      assert s[..1 + m] == [s[0]] + s[1..][..m];
      1 + m
    else 0
  }

  /** Java's narrowing to a 32-bit int: only the low-order 32 bits are kept. */
  function ToInt32(x: int): (r: int)
    ensures -0x8000_0000 <= r < 0x8000_0000
    ensures (r - x) % 0x1_0000_0000 == 0
  {
    (x + 0x8000_0000) % 0x1_0000_0000 - 0x8000_0000
  }

  /** Conversion of a decimal to an integer, dropping the fraction (rounds
      toward zero, as BigDecimal.toBigInteger does). */
  function TruncateTowardZero(x: real): (r: int)
    ensures x >= 0.0 ==> r as real <= x < r as real + 1.0
    ensures x < 0.0 ==> r as real - 1.0 < x <= r as real
  {
    if x >= 0.0 then x.Floor else -((-x).Floor)
  }
}
