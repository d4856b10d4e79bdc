/** Strings and decimal numbers as the other modules need them. */
module Text {

  /** The white space that Rust and JavaScript agree on. */
  predicate IsSpace(c: char) {
    c == ' ' || '\t' <= c <= '\r' || c == '\U{00A0}' || c == '\U{1680}' || '\U{2000}' <= c <= '\U{200A}'
    || c == '\U{2028}' || c == '\U{2029}' || c == '\U{202F}' || c == '\U{205F}' || c == '\U{3000}'
  }

  predicate IsRustSpace(c: char) { IsSpace(c) || c == '\U{0085}' }

  predicate IsJsSpace(c: char) { IsSpace(c) || c == '\U{FEFF}' }

  function TrimStart(s: string, space: char -> bool): (r: string)
    ensures |r| <= |s|
    ensures r != [] ==> !space(r[0])
  {
    if s != [] && space(s[0]) then TrimStart(s[1..], space) else s
  }

  function TrimEnd(s: string, space: char -> bool): (r: string)
    ensures r <= s
    ensures r != [] ==> !space(r[|r| - 1])
  {
    if s != [] && space(s[|s| - 1]) then TrimEnd(s[..|s| - 1], space) else s
  }

  /** Rust's `trim`. */
  function Trim(s: string): string { TrimEnd(TrimStart(s, IsRustSpace), IsRustSpace) }

  /** JavaScript's `trim`. */
  function JsTrim(s: string): string { TrimEnd(TrimStart(s, IsJsSpace), IsJsSpace) }

  /** Nothing to cut off when neither end is a space. */
  lemma TrimFixed(s: string)
    requires s != [] ==> !IsRustSpace(s[0]) && !IsRustSpace(s[|s| - 1])
    ensures Trim(s) == s
  {
  }

  lemma JsTrimFixed(s: string)
    requires s != [] ==> !IsJsSpace(s[0]) && !IsJsSpace(s[|s| - 1])
    ensures JsTrim(s) == s
  {
  }

  predicate Includes(s: string, part: string) {
    part <= s || (s != [] && Includes(s[1..], part))
  }

  lemma {:induction false} NotIncludes(s: string, part: string, c: char)
    requires c in part && c !in s
    ensures !Includes(s, part)
  {
    var i :| 0 <= i < |part| && part[i] == c;
    assert !(part <= s);
    if s != [] {
      NotIncludes(s[1..], part, c);
    }
  }

  // ---- decimal numbers -------------------------------------------------------

  predicate IsDigit(c: char) { '0' <= c <= '9' }

  function Digit(d: nat): (c: char)
    requires d < 10
    ensures IsDigit(c) && DigitValue(c) == d
  {
    (d + '0' as int) as char
  }

  function Decimal(n: nat): (s: string)
    ensures s != [] && forall k :: 0 <= k < |s| ==> IsDigit(s[k])
  {
    if n < 10 then [Digit(n)] else Decimal(n / 10) + [Digit(n % 10)]
  }

  function Signed(n: int): string { if n < 0 then "-" + Decimal(-n) else Decimal(n) }

  function DigitValue(c: char): nat
    requires IsDigit(c)
  {
    c as int - '0' as int
  }

  /** Value of a digit string, most significant digit first. */
  function DigitsValue(s: string): nat
    requires forall k :: 0 <= k < |s| ==> IsDigit(s[k])
  {
    if s == [] then 0 else 10 * DigitsValue(s[..|s| - 1]) + DigitValue(s[|s| - 1])
  }

  predicate AllDigits(s: string) { s != "" && forall k | 0 <= k < |s| :: IsDigit(s[k]) }

  datatype Parsed = Bad | Good(value: int)

  const I64_MIN: int := -0x8000_0000_0000_0000
  const I64_MAX: int := 0x7FFF_FFFF_FFFF_FFFF

  predicate InI64(n: int) { I64_MIN <= n <= I64_MAX }

  /** Reading a 64-bit integer: an optional sign, then digits and nothing else. */
  function ParseI64(s: string): (r: Parsed)
    ensures r.Good? ==> InI64(r.value)
  {
    var signed := s != [] && (s[0] == '-' || s[0] == '+');
    var digits := if signed then s[1..] else s;
    if !AllDigits(digits) then Bad
    else
      var magnitude: int := DigitsValue(digits);
      var n := if signed && s[0] == '-' then -magnitude else magnitude;
      if InI64(n) then Good(n) else Bad
  }

  lemma {:induction false} DecimalValue(n: nat)
    ensures DigitsValue(Decimal(n)) == n
  {
    if n >= 10 {
      DecimalValue(n / 10);
      assert Decimal(n)[..|Decimal(n)| - 1] == Decimal(n / 10);
    }
  }

  lemma ParseDigits(digits: string, negative: bool)
    requires digits != "" && forall k :: 0 <= k < |digits| ==> IsDigit(digits[k])
    ensures var magnitude: int := DigitsValue(digits);
            var n := if negative then -magnitude else magnitude;
            ParseI64(if negative then "-" + digits else digits) == if InI64(n) then Good(n) else Bad
  {
    if negative {
      assert ("-" + digits)[1..] == digits;
    }
  }

  /** Reading back what was printed. */
  lemma ParsePrinted(n: int)
    requires InI64(n)
    ensures ParseI64(Signed(n)) == Good(n)
  {
    var magnitude := if n < 0 then -n else n;
    DecimalValue(magnitude);
    ParseDigits(Decimal(magnitude), n < 0);
  }

  /** A printed number has no spaces around it and ends in a digit. */
  lemma PrintedShape(n: int)
    ensures Signed(n) != [] && Trim(Signed(n)) == Signed(n) && IsDigit(Signed(n)[|Signed(n)| - 1])
  {
    TrimFixed(Signed(n));
  }

  /** Digits, perhaps after a sign, are read as their value if that fits 64 bits;
      a plus changes nothing. */
  lemma NumbersExactly(s: string)
    requires AllDigits(s)
    ensures ParseI64(s) == ParseI64("+" + s)
         == if DigitsValue(s) <= 9223372036854775807 then Good(DigitsValue(s)) else Bad
    ensures ParseI64("-" + s) == if DigitsValue(s) <= 9223372036854775808 then Good(0 - DigitsValue(s) as int) else Bad
  {
    assert IsDigit(s[0]) && ("+" + s)[1..] == s && ("-" + s)[1..] == s;
  }

  /** And nothing else is a number. */
  lemma NoOtherNumber(s: string)
    requires !AllDigits(s) && (s != "" && (s[0] == '-' || s[0] == '+') ==> !AllDigits(s[1..]))
    ensures ParseI64(s) == Bad
  {
  }
}
