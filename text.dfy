/**
 * Text: what the importer does with strings. Java's `String.trim`, the
 * removal of commas, and the decimal syntax that `new BigDecimal(String)`
 * accepts, restricted to ASCII digits.
 */
module Text {
  import opened Wrappers
  import opened Seqs

  /** `trim()` removes every character up to and including the space. */
  predicate IsTrimmed(c: char) { c <= ' ' }

  /** The index of the first character at or after `i` that `trim()` keeps, or `|s|`. */
  function FirstKept(s: string, i: nat): (f: nat)
    requires i <= |s|
    ensures i <= f <= |s|
    ensures forall k :: i <= k < f ==> IsTrimmed(s[k])
    ensures f < |s| ==> !IsTrimmed(s[f])
    decreases |s| - i
  {
    if i == |s| || !IsTrimmed(s[i]) then i else FirstKept(s, i + 1)
  }

  /** One past the index of the last character before `j` that `trim()` keeps, or 0. */
  function EndKept(s: string, j: nat): (e: nat)
    requires j <= |s|
    ensures e <= j
    ensures forall k :: e <= k < j ==> IsTrimmed(s[k])
    ensures e > 0 ==> !IsTrimmed(s[e - 1])
  {
    if j == 0 || !IsTrimmed(s[j - 1]) then j else EndKept(s, j - 1)
  }

  /** `t` is `s` from index `i` on, with only trimmed characters around it. */
  predicate InfixAt(s: string, t: string, i: int)
  {
    && 0 <= i <= |s| - |t| && t == s[i..i + |t|]
    && (forall k :: 0 <= k < i ==> IsTrimmed(s[k]))
    && (forall k :: i + |t| <= k < |s| ==> IsTrimmed(s[k]))
  }

  /**
   * `s.trim()`: `s` without its leading and trailing run of spaces and
   * control characters. What is left neither starts nor ends with one.
   */
  function Trim(s: string): (t: string)
    ensures exists i :: InfixAt(s, t, i)
    ensures |t| > 0 ==> !IsTrimmed(t[0]) && !IsTrimmed(t[|t| - 1])
  {
    var i := FirstKept(s, 0);
    if i == |s| then
      assert InfixAt(s, "", |s|);
      ""
    else
      var j := EndKept(s, |s|);
      assert i < j;
      var t := s[i..j];
      assert InfixAt(s, t, i);
      t
  }

  /** A string that neither starts nor ends with a trimmed character is its own trim. */
  lemma TrimUntrimmed(s: string)
    requires |s| > 0 ==> !IsTrimmed(s[0]) && !IsTrimmed(s[|s| - 1])
    ensures Trim(s) == s
  {
    if |s| > 0 {
      assert FirstKept(s, 0) == 0;
      assert EndKept(s, |s|) == |s|;
      assert s[0..|s|] == s;
    }
  }

  /** Trimming twice trims no more than trimming once. */
  lemma TrimIdempotent(s: string)
    ensures Trim(Trim(s)) == Trim(s)
  {
    TrimUntrimmed(Trim(s));
  }

  predicate IsComma(c: char) { c == ',' }
  predicate NotComma(c: char) { c != ',' }

  /** `s.replace(",", "")`: the characters of `s` other than commas, in order. */
  function RemoveCommas(s: string): (t: string)
    ensures ',' !in t
    ensures forall c :: c in t <==> c in s && c != ','
  {
    FilterMembers(NotComma, s);
    Filter(NotComma, s)
  }

  /** Text without commas loses nothing to their removal. */
  lemma RemoveCommasNone(s: string)
    requires ',' !in s
    ensures RemoveCommas(s) == s
  {
    FilterAll(NotComma, s);
  }

  /** A thousands separator between two comma-free parts is all that is removed. */
  lemma RemoveCommasJoin(a: string, b: string)
    requires ',' !in a && ',' !in b
    ensures RemoveCommas(a + "," + b) == a + b
  {
    FilterAppend(NotComma, a + ",", b);
    FilterAppend(NotComma, a, ",");
    FilterSnoc(NotComma, [], ',');
    assert [] + [','] == ",";
    RemoveCommasNone(a);
    RemoveCommasNone(b);
  }

  // ---------------------------------------------------------------------
  // Digits
  // ---------------------------------------------------------------------

  predicate IsDigit(c: char) { '0' <= c <= '9' }

  predicate AllDigits(s: string)
  {
    forall k :: 0 <= k < |s| ==> IsDigit(s[k])
  }

  function DigitValue(c: char): nat
    requires IsDigit(c)
  {
    (c as int - '0' as int) as nat
  }

  function DigitChar(d: nat): (c: char)
    requires d < 10
    ensures IsDigit(c) && DigitValue(c) == d
  {
    (('0' as int) + d) as char
  }

  /** The number a string of decimal digits denotes, most significant first. */
  function DigitsValue(s: string): nat
    requires AllDigits(s)
  {
    if |s| == 0 then 0 else 10 * DigitsValue(s[..|s| - 1]) + DigitValue(s[|s| - 1])
  }

  /** The decimal numeral of `n`, without leading zeros; it denotes `n`. */
  function NatToString(n: nat): (s: string)
    ensures |s| > 0 && AllDigits(s) && DigitsValue(s) == n
    ensures |s| > 1 ==> s[0] != '0'
  {
    if n < 10 then [DigitChar(n)]
    else
      var init := NatToString(n / 10);
      var s := init + [DigitChar(n % 10)];
      assert s[..|s| - 1] == init;
      s
  }

  function Pow10(k: nat): (p: nat)
    ensures p >= 1
  {
    if k == 0 then 1 else 10 * Pow10(k - 1)
  }

  /** `v` times ten to the power `e`. */
  function Scaled(v: real, e: int): real
  {
    if e >= 0 then v * (Pow10(e) as real) else v / (Pow10(-e) as real)
  }

  // ---------------------------------------------------------------------
  // new BigDecimal(String)
  // ---------------------------------------------------------------------

  const IntMin: int := -0x8000_0000
  const IntMax: int := 0x7FFF_FFFF

  function IndexOf(s: string, c: char): (k: Option<nat>)
    ensures k.None? <==> c !in s
    ensures k.Some? ==> k.value < |s| && s[k.value] == c && c !in s[..k.value]
  {
    if |s| == 0 then None
    else if s[0] == c then Some(0)
    else match IndexOf(s[1..], c)
      case None => None
      case Some(j) =>
        assert s[..j + 1] == [s[0]] + s[1..][..j];
        Some(j + 1)
  }

  /** Where the exponent marker of a numeral is, if it has one. */
  function ExponentMarker(s: string): Option<nat>
  {
    match IndexOf(s, 'e')
    case Some(i) => (match IndexOf(s[..i], 'E') case Some(j) => Some(j) case None => Some(i))
    case None => IndexOf(s, 'E')
  }

  /** An optional sign, then the rest. */
  function Signed(s: string): (bool, string)
  {
    if |s| > 0 && (s[0] == '-' || s[0] == '+') then (s[0] == '-', s[1..]) else (false, s)
  }

  function Negated(neg: bool, v: real): real { if neg then -v else v }

  /** A significand: digits, a point, more digits; at least one digit. Its unscaled digits and its scale. */
  function ParseSignificand(s: string): (r: Option<(nat, nat)>)
  {
    match IndexOf(s, '.')
    case None => if |s| > 0 && AllDigits(s) then Some((DigitsValue(s), 0)) else None
    case Some(d) =>
      var whole, fraction := s[..d], s[d + 1..];
      if |whole| + |fraction| > 0 && AllDigits(whole) && AllDigits(fraction) then
        Some((DigitsValue(whole + fraction), |fraction|))
      else None
  }

  /** An exponent: an optional sign and at least one digit. */
  function ParseExponent(s: string): Option<int>
  {
    var (neg, digits) := Signed(s);
    if |digits| > 0 && AllDigits(digits) then
      Some(if neg then -(DigitsValue(digits) as int) else DigitsValue(digits))
    else None
  }

  /**
   * A numeral after its sign: a significand and an optional exponent. The
   * resulting scale, the number of fraction digits less the exponent, must
   * fit in a 32-bit int.
   */
  function ParseUnsigned(body: string): Option<real>
  {
    var (mantissa, exponent) :=
      match ExponentMarker(body)
      case None => (ParseSignificand(body), Some(0))
      case Some(m) => (ParseSignificand(body[..m]), ParseExponent(body[m + 1..]));
    if mantissa.None? || exponent.None? then None
    else
      var (unscaled, fractionDigits) := mantissa.value;
      var scale := fractionDigits - exponent.value;
      if scale < IntMin || scale > IntMax then None
      else Some(Scaled(unscaled as real, -scale))
  }

  /** `new BigDecimal(s)`: the value of a numeral, or `None` where the constructor throws. */
  function ParseDecimal(s: string): Option<real>
  {
    var (neg, body) := Signed(s);
    match ParseUnsigned(body)
    case None => None
    case Some(v) => Some(Negated(neg, v))
  }

  lemma DigitsHaveNoMarks(s: string)
    requires AllDigits(s)
    ensures 'e' !in s && 'E' !in s && '.' !in s
  {
  }

  /** A numeral without exponent is its significand's digits over a power of ten. */
  lemma UnsignedWithoutExponent(s: string, unscaled: nat, fractionDigits: nat)
    requires ExponentMarker(s).None?
    requires ParseSignificand(s) == Some((unscaled, fractionDigits)) && fractionDigits <= IntMax
    ensures ParseUnsigned(s) == Some((unscaled as real) / (Pow10(fractionDigits) as real))
  {
    assert fractionDigits - 0 == fractionDigits;
    assert Scaled(unscaled as real, -(fractionDigits as int)) == (unscaled as real) / (Pow10(fractionDigits) as real);
  }

  /** After its sign, a nonempty string of ASCII digits is the number it denotes. */
  lemma UnsignedDigits(s: string)
    requires |s| > 0 && AllDigits(s)
    ensures ParseUnsigned(s) == Some(DigitsValue(s) as real)
  {
    DigitsHaveNoMarks(s);
    assert ExponentMarker(s).None? by {
      assert IndexOf(s, 'e').None? && IndexOf(s, 'E').None?;
    }
    assert ParseSignificand(s) == Some((DigitsValue(s), 0)) by {
      assert IndexOf(s, '.').None?;
    }
    UnsignedWithoutExponent(s, DigitsValue(s), 0);
  }

  /** A numeral that starts with a digit has no sign. */
  lemma UnsignedOfDigitFirst(s: string)
    requires |s| > 0 && IsDigit(s[0])
    ensures ParseDecimal(s) == ParseUnsigned(s)
  {
    assert Signed(s) == (false, s);
  }

  /** A minus sign in front of an unsigned numeral negates its value. */
  lemma NegatedOfDigitFirst(s: string, v: real)
    requires |s| > 0 && IsDigit(s[0]) && ParseUnsigned(s) == Some(v)
    ensures ParseDecimal("-" + s) == Some(-v)
  {
    var m := "-" + s;
    assert m[1..] == s;
    assert Signed(m) == (true, s);
  }

  /** A nonempty string of ASCII digits is read as the number it denotes. */
  lemma ParseDigits(s: string)
    requires |s| > 0 && AllDigits(s)
    ensures ParseDecimal(s) == Some(DigitsValue(s) as real)
  {
    UnsignedDigits(s);
    UnsignedOfDigitFirst(s);
  }

  /** With a minus sign in front, it is read as the negation of that number. */
  lemma ParseNegativeDigits(s: string)
    requires |s| > 0 && AllDigits(s)
    ensures ParseDecimal("-" + s) == Some(-(DigitsValue(s) as real))
  {
    UnsignedDigits(s);
    NegatedOfDigitFirst(s, DigitsValue(s) as real);
  }

  /** A numeral of ASCII digits reads back as the number it was written from. */
  lemma ParseNatNumeral(n: nat)
    ensures ParseDecimal(NatToString(n)) == Some(n as real)
    ensures ParseDecimal("-" + NatToString(n)) == Some(-(n as real))
  {
    ParseDigits(NatToString(n));
    ParseNegativeDigits(NatToString(n));
  }

  lemma SignificandOfFraction(w: string, fraction: string)
    requires AllDigits(w) && AllDigits(fraction) && |w| > 0
    ensures ParseSignificand(w + "." + fraction) == Some((DigitsValue(w + fraction), |fraction|))
  {
    var s := w + "." + fraction;
    DigitsHaveNoMarks(w);
    assert s[|w|] == '.' && s[..|w|] == w && s[|w| + 1..] == fraction;
    assert IndexOf(s, '.') == Some(|w|);
  }

  /** A numeral with a point reads back as its digits over a power of ten. */
  lemma ParseFractionNumeral(whole: string, fraction: string)
    requires AllDigits(whole) && |whole| > 0 && AllDigits(fraction) && |fraction| <= IntMax
    ensures ParseDecimal(whole + "." + fraction)
         == Some((DigitsValue(whole + fraction) as real) / (Pow10(|fraction|) as real))
  {
    var s := whole + "." + fraction;
    DigitsHaveNoMarks(whole);
    DigitsHaveNoMarks(fraction);
    assert 'e' !in s && 'E' !in s by {
      assert forall k :: 0 <= k < |s| ==> s[k] == if k < |whole| then whole[k] else if k == |whole| then '.' else fraction[k - |whole| - 1];
    }
    assert ExponentMarker(s).None? by {
      assert IndexOf(s, 'e').None? && IndexOf(s, 'E').None?;
    }
    SignificandOfFraction(whole, fraction);
    UnsignedWithoutExponent(s, DigitsValue(whole + fraction), |fraction|);
    assert s[0] == whole[0];
    UnsignedOfDigitFirst(s);
  }

  /** Signs and points without digits are not numerals. */
  lemma NotNumerals()
    ensures ParseDecimal("") == None
    ensures ParseDecimal("-") == None
    ensures ParseDecimal(".") == None
  {
  }

  /** An exponent marker without exponent digits is not a numeral. */
  lemma ExponentWithoutDigits()
    ensures ParseDecimal("1e") == None
  {
    assert IndexOf("1e", 'e') == Some(1);
    assert ParseExponent("").None?;
  }

  /** Letters are not a numeral. */
  lemma LettersNotNumeral()
    ensures ParseDecimal("abc") == None
  {
    assert IndexOf("abc", 'e').None? && IndexOf("abc", 'E').None? && IndexOf("abc", '.').None?;
    assert !AllDigits("abc") by { assert !IsDigit("abc"[0]); }
  }
}
