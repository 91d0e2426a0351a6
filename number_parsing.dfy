/**
  .NET's `int.TryParse(string, out int)` in its default style
  (`NumberStyles.Integer` with the invariant culture's signs), and the
  decimal rendering of an `int` that it inverts.

  A string is accepted when it reads
    leading white space, an optional `+` or `-`, one or more ASCII digits,
    trailing white space, trailing NUL characters
  and the value lies in the 32-bit range.
*/
module NumberParsing {
  import opened Wrappers

  const MIN_INT32: int := -0x8000_0000
  const MAX_INT32: int := 0x7FFF_FFFF

  predicate InInt32(n: int) {
    MIN_INT32 <= n <= MAX_INT32
  }

  /** The characters `NumberStyles.AllowLeadingWhite`/`AllowTrailingWhite` skip: U+0009..U+000D and U+0020. */
  predicate IsWhite(c: char) {
    c == ' ' || '\t' <= c <= '\r'
  }

  predicate IsDigit(c: char) {
    '0' <= c <= '9'
  }

  predicate AllDigits(s: string) {
    forall i :: 0 <= i < |s| ==> IsDigit(s[i])
  }

  predicate AllWhite(s: string) {
    forall i :: 0 <= i < |s| ==> IsWhite(s[i])
  }

  function DigitValue(c: char): (d: nat)
    requires IsDigit(c)
    ensures d < 10
  {
    c as int - '0' as int
  }

  function DigitChar(d: nat): (c: char)
    requires d < 10
    ensures IsDigit(c) && DigitValue(c) == d
  {
    ('0' as int + d) as char
  }

  /** Length of the longest prefix of `s` made of white space. */
  function LeadingWhite(s: string): (n: nat)
    ensures n <= |s| && AllWhite(s[..n])
    ensures n < |s| ==> !IsWhite(s[n])
  {
    if s == [] || !IsWhite(s[0]) then 0 else 1 + LeadingWhite(s[1..])
  }

  /** Length of the longest prefix of `s` made of digits. */
  function LeadingDigits(s: string): (n: nat)
    ensures n <= |s| && AllDigits(s[..n])
    ensures n < |s| ==> !IsDigit(s[n])
  {
    if s == [] || !IsDigit(s[0]) then 0 else 1 + LeadingDigits(s[1..])
  }

  /** The value of a string of decimal digits, most significant first. */
  function DigitsValue(s: string): nat
    requires AllDigits(s)
  {
    if s == [] then 0 else DigitsValue(s[..|s| - 1]) * 10 + DigitValue(s[|s| - 1])
  }

  /** What may follow the digits: white space, then NUL characters. */
  predicate IsTrailer(s: string) {
    var w := LeadingWhite(s);
    forall i :: w <= i < |s| ==> s[i] == '\0'
  }

  /** The digits and what follows them: `Some` of the digits' value, or `None`. */
  function ParseMagnitude(u: string): (r: Option<nat>)
    ensures r.Some? ==> |u| > 0 && IsDigit(u[0])
  {
    var d := LeadingDigits(u);
    if d == 0 || !IsTrailer(u[d..]) then None else Some(DigitsValue(u[..d]))
  }

  /** The text after the leading white space: an optional sign, then the magnitude. */
  function ParseSigned(t: string): (r: Option<int>)
  {
    if |t| > 0 && t[0] == '-' then
      match ParseMagnitude(t[1..])
      case None => None
      case Some(m) => Some(-(m as int))
    else if |t| > 0 && t[0] == '+' then ParseMagnitude(t[1..])
    else ParseMagnitude(t)
  }

  /** `int.TryParse(s, out n)`: `Some(n)` where it returns true, `None` where it returns false. */
  function TryParseInt32(s: string): (r: Option<int>)
    ensures r.Some? ==> InInt32(r.value)
  {
    match ParseSigned(s[LeadingWhite(s)..])
    case None => None
    case Some(v) => if InInt32(v) then Some(v) else None
  }

  /** Decimal digits of `n`, without leading zeros (`n.ToString()` for `n >= 0`). */
  function NatToDecimal(n: nat): (s: string)
    ensures |s| > 0 && AllDigits(s)
  {
    (if n < 10 then "" else NatToDecimal(n / 10)) + [DigitChar(n % 10)]
  }

  /** `n.ToString()` under the invariant culture. */
  function Int32ToString(n: int): (s: string)
    ensures |s| > 0 && (s[0] == '-' || IsDigit(s[0]))
    ensures forall i :: 0 <= i < |s| ==> s[i] != '_' && !IsWhite(s[i])
  {
    if n < 0 then "-" + NatToDecimal(-n) else NatToDecimal(n)
  }

  /** Reading back the digits of `n` gives `n`. */
  lemma {:induction false} DigitsValueOfDecimal(n: nat)
    ensures DigitsValue(NatToDecimal(n)) == n
  {
    var s := NatToDecimal(n);
    if n >= 10 {
      assert s[..|s| - 1] == NatToDecimal(n / 10);
      DigitsValueOfDecimal(n / 10);
    } else {
      assert s[..|s| - 1] == "";
    }
  }

  lemma {:induction false} LeadingWhiteAfterWhite(a: string, b: string)
    requires AllWhite(a)
    requires b == [] || !IsWhite(b[0])
    ensures LeadingWhite(a + b) == |a|
  {
    if a != [] {
      assert (a + b)[1..] == a[1..] + b;
      LeadingWhiteAfterWhite(a[1..], b);
    }
  }

  lemma {:induction false} LeadingDigitsOfDigits(a: string, b: string)
    requires AllDigits(a)
    requires b == [] || !IsDigit(b[0])
    ensures LeadingDigits(a + b) == |a|
  {
    if a != [] {
      assert (a + b)[1..] == a[1..] + b;
      LeadingDigitsOfDigits(a[1..], b);
    }
  }

  lemma ParseMagnitudeOfDigits(digits: string, trail: string)
    requires |digits| > 0 && AllDigits(digits) && AllWhite(trail)
    ensures ParseMagnitude(digits + trail) == Some(DigitsValue(digits))
  {
    var u := digits + trail;
    LeadingDigitsOfDigits(digits, trail);
    assert u[..|digits|] == digits && u[|digits|..] == trail;
    LeadingWhiteAfterWhite(trail, "");
    assert trail + "" == trail;
  }

  lemma ParseMagnitudeOfDecimal(n: nat, trail: string)
    requires AllWhite(trail)
    ensures ParseMagnitude(NatToDecimal(n) + trail) == Some(n)
  {
    ParseMagnitudeOfDigits(NatToDecimal(n), trail);
    DigitsValueOfDecimal(n);
  }

  lemma ParseSignedOfNegative(m: nat, trail: string)
    requires AllWhite(trail)
    ensures ParseSigned("-" + NatToDecimal(m) + trail) == Some(-(m as int))
  {
    var u := NatToDecimal(m) + trail;
    var t := "-" + NatToDecimal(m) + trail;
    assert t == "-" + u;
    assert t[0] == '-' && t[1..] == u;
    ParseMagnitudeOfDecimal(m, trail);
  }

  lemma ParseSignedOfNatural(m: nat, trail: string)
    requires AllWhite(trail)
    ensures ParseSigned(NatToDecimal(m) + trail) == Some(m as int)
  {
    var t := NatToDecimal(m) + trail;
    assert t[0] == NatToDecimal(m)[0];
    ParseMagnitudeOfDecimal(m, trail);
  }

  lemma ParseSignedOfFormatted(n: int, trail: string)
    requires AllWhite(trail)
    ensures ParseSigned(Int32ToString(n) + trail) == Some(n)
  {
    if n < 0 {
      ParseSignedOfNegative(-n, trail);
    } else {
      ParseSignedOfNatural(n, trail);
    }
  }

  /**
    Round trip: every 32-bit value, written in decimal and surrounded by any
    white space, parses back to itself.
  */
  lemma ParseFormatted(n: int, lead: string, trail: string)
    requires InInt32(n)
    requires AllWhite(lead) && AllWhite(trail)
    ensures TryParseInt32(lead + Int32ToString(n) + trail) == Some(n)
  {
    var body := Int32ToString(n) + trail;
    var s := lead + body;
    assert lead + Int32ToString(n) + trail == s;
    LeadingWhiteAfterWhite(lead, body);
    assert s[|lead|..] == body;
    ParseSignedOfFormatted(n, trail);
  }

  /** The 32-bit range check: the decimal rendering of any value outside the range is refused. */
  lemma ParseRejectsOutOfRange(n: int)
    requires !InInt32(n)
    ensures TryParseInt32(Int32ToString(n)) == None
  {
    var s := Int32ToString(n);
    LeadingWhiteAfterWhite("", s);
    assert "" + s == s && s[0..] == s;
    ParseSignedOfFormatted(n, "");
    assert s + "" == s;
  }

  /** The value a sign (none, `+` or `-`) gives to a magnitude. */
  function Signed(sign: string, m: nat): int {
    if sign == "-" then -(m as int) else m as int
  }

  lemma AppendAssociative(a: string, b: string, c: string)
    ensures a + b + c == a + (b + c)
  {
  }

  /** A sign in front of an accepted magnitude gives it that sign. */
  lemma ParseSignedOfMagnitude(sign: string, u: string, m: nat)
    requires sign == "" || sign == "+" || sign == "-"
    requires ParseMagnitude(u) == Some(m)
    ensures ParseSigned(sign + u) == Some(Signed(sign, m))
  {
    var t := sign + u;
    if sign == "" {
      assert t == u;
    } else {
      assert t[0] == sign[0] && t[1..] == u;
    }
  }

  predicate AllNul(s: string) {
    forall i :: 0 <= i < |s| ==> s[i] == '\0'
  }

  /** White space followed by NUL characters is an accepted trailer, and it does not start with a digit. */
  lemma TrailerOfWhiteAndNul(trail: string, nuls: string)
    requires AllWhite(trail) && AllNul(nuls)
    ensures IsTrailer(trail + nuls)
    ensures trail + nuls == [] || !IsDigit((trail + nuls)[0])
  {
    LeadingWhiteAfterWhite(trail, nuls);
    assert forall i :: |trail| <= i < |trail + nuls| ==> (trail + nuls)[i] == nuls[i - |trail|];
  }

  lemma ParseMagnitudeOfNumeral(digits: string, trail: string, nuls: string)
    requires |digits| > 0 && AllDigits(digits)
    requires AllWhite(trail) && AllNul(nuls)
    ensures ParseMagnitude(digits + (trail + nuls)) == Some(DigitsValue(digits))
  {
    var rest := trail + nuls;
    var u := digits + rest;
    TrailerOfWhiteAndNul(trail, nuls);
    LeadingDigitsOfDigits(digits, rest);
    assert u[..|digits|] == digits && u[|digits|..] == rest;
  }

  lemma ParseSignedOfDigits(sign: string, digits: string, trail: string, nuls: string)
    requires AllWhite(trail) && AllNul(nuls)
    requires sign == "" || sign == "+" || sign == "-"
    requires |digits| > 0 && AllDigits(digits)
    ensures ParseSigned(sign + digits + trail + nuls) == Some(Signed(sign, DigitsValue(digits)))
  {
    ParseMagnitudeOfNumeral(digits, trail, nuls);
    AppendAssociative(digits, trail, nuls);
    AppendAssociative(sign + digits, trail, nuls);
    AppendAssociative(sign, digits, trail + nuls);
    ParseSignedOfMagnitude(sign, digits + (trail + nuls), DigitsValue(digits));
  }

  /** Leading white space in front of an accepted signed number is skipped. */
  lemma TryParseAfterWhite(lead: string, t: string, v: int)
    requires AllWhite(lead)
    requires ParseSigned(t) == Some(v)
    ensures TryParseInt32(lead + t) == if InInt32(v) then Some(v) else None
  {
    assert |t| > 0 && (t[0] == '-' || t[0] == '+' || IsDigit(t[0]));
    LeadingWhiteAfterWhite(lead, t);
    assert (lead + t)[|lead|..] == t;
  }

  /**
    Any numeral in the accepted shape: white space, then no sign, `+` or `-`,
    then digits with leading zeros allowed, then white space, then NUL
    characters. It parses to its signed value exactly when that value lies in
    the 32-bit range.
  */
  lemma ParseNumeral(lead: string, sign: string, digits: string, trail: string, nuls: string)
    requires AllWhite(lead) && AllWhite(trail) && AllNul(nuls)
    requires sign == "" || sign == "+" || sign == "-"
    requires |digits| > 0 && AllDigits(digits)
    ensures TryParseInt32(lead + sign + digits + trail + nuls)
         == (var v := Signed(sign, DigitsValue(digits)); if InInt32(v) then Some(v) else None)
  {
    var t := sign + digits + trail + nuls;
    AppendAssociative(lead, sign + digits + trail, nuls);
    AppendAssociative(lead, sign + digits, trail);
    AppendAssociative(lead, sign, digits);
    var v := Signed(sign, DigitsValue(digits));
    ParseSignedOfDigits(sign, digits, trail, nuls);
    TryParseAfterWhite(lead, t, v);
  }

  /** What `ParseMagnitude` accepts is digits, white space and NUL characters. */
  lemma MagnitudeShape(u: string, m: nat) returns (digits: string, trail: string, nuls: string)
    requires ParseMagnitude(u) == Some(m)
    ensures u == digits + trail + nuls
    ensures |digits| > 0 && AllDigits(digits) && AllWhite(trail) && AllNul(nuls)
    ensures m == DigitsValue(digits)
  {
    var d := LeadingDigits(u);
    digits := u[..d];
    var rest := u[d..];
    var w := LeadingWhite(rest);
    trail := rest[..w];
    nuls := rest[w..];
    assert rest == trail + nuls;
    assert u == digits + rest;
    AppendAssociative(digits, trail, nuls);
  }

  /** What `ParseSigned` accepts is an optional sign, then what `ParseMagnitude` accepts. */
  lemma SignedShape(t: string, v: int) returns (sign: string, digits: string, trail: string, nuls: string)
    requires ParseSigned(t) == Some(v)
    ensures t == sign + digits + trail + nuls
    ensures sign == "" || sign == "+" || sign == "-"
    ensures |digits| > 0 && AllDigits(digits) && AllWhite(trail) && AllNul(nuls)
    ensures v == Signed(sign, DigitsValue(digits))
  {
    var u: string;
    if t[0] == '-' {
      sign, u := "-", t[1..];
    } else if t[0] == '+' {
      sign, u := "+", t[1..];
    } else {
      sign, u := "", t;
    }
    assert t == sign + u;
    var m := ParseMagnitude(u).value;
    digits, trail, nuls := MagnitudeShape(u, m);
    AppendAssociative(sign, digits + trail, nuls);
    AppendAssociative(sign, digits, trail);
  }

  /**
    The converse of `ParseNumeral`: every string `int.TryParse` accepts is white
    space, an optional sign, digits, white space and NUL characters, and its
    value is the signed value of those digits.
  */
  lemma ParseAcceptsOnlyNumerals(s: string, v: int) returns (lead: string, sign: string, digits: string, trail: string, nuls: string)
    requires TryParseInt32(s) == Some(v)
    ensures s == lead + sign + digits + trail + nuls
    ensures AllWhite(lead) && AllWhite(trail) && AllNul(nuls)
    ensures sign == "" || sign == "+" || sign == "-"
    ensures |digits| > 0 && AllDigits(digits)
    ensures v == Signed(sign, DigitsValue(digits))
  {
    var w := LeadingWhite(s);
    lead := s[..w];
    var t := s[w..];
    assert s == lead + t;
    sign, digits, trail, nuls := SignedShape(t, v);
    AppendAssociative(lead, sign + digits + trail, nuls);
    AppendAssociative(lead, sign + digits, trail);
    AppendAssociative(lead, sign, digits);
  }

  /** The characters an accepted string is made of. */
  predicate IsNumeralChar(c: char) {
    IsWhite(c) || IsDigit(c) || c == '+' || c == '-' || c == '\0'
  }

  predicate AllNumeralChars(s: string) {
    forall i :: 0 <= i < |s| ==> IsNumeralChar(s[i])
  }

  lemma AllNumeralCharsAppend(a: string, b: string)
    requires AllNumeralChars(a) && AllNumeralChars(b)
    ensures AllNumeralChars(a + b)
  {
    assert forall i :: |a| <= i < |a + b| ==> (a + b)[i] == b[i - |a|];
  }

  /**
    A string holding any other character, such as a letter, a `.`, a `,` or an
    `x`, is refused: "1a", "1.0", "0x1F" and "1,000" do not parse.
  */
  lemma ParseRejectsForeignChar(s: string, i: nat)
    requires i < |s| && !IsNumeralChar(s[i])
    ensures TryParseInt32(s) == None
  {
    if TryParseInt32(s).Some? {
      var lead, sign, digits, trail, nuls := ParseAcceptsOnlyNumerals(s, TryParseInt32(s).value);
      AllNumeralCharsAppend(lead, sign);
      AllNumeralCharsAppend(lead + sign, digits);
      AllNumeralCharsAppend(lead + sign + digits, trail);
      AllNumeralCharsAppend(lead + sign + digits + trail, nuls);
    }
  }

  /** A bare run of digits, leading zeros allowed, parses to its value when that is in range. */
  lemma ParseDigits(digits: string)
    requires |digits| > 0 && AllDigits(digits) && DigitsValue(digits) <= MAX_INT32
    ensures TryParseInt32(digits) == Some(DigitsValue(digits))
  {
    LeadingWhiteAfterWhite("", digits);
    assert "" + digits == digits && digits[0..] == digits;
    ParseMagnitudeOfDigits(digits, "");
    assert digits + "" == digits;
    assert IsDigit(digits[0]);
  }

  /** A string without any digit, the empty string among them, does not parse. */
  lemma ParseNeedsDigit(s: string)
    requires forall i :: 0 <= i < |s| ==> !IsDigit(s[i])
    ensures TryParseInt32(s) == None
  {
  }
}
