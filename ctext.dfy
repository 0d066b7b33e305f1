/** The two pieces of the C and C++ runtime the core leans on: atoi, which
    turns the arrayExtent metadata into a number, and the lexicographic
    order of std::string, by which the spreadsheets are sorted. */
module CText {

  /** The characters C's isspace accepts in the "C" locale. */
  predicate IsSpace(c: char) {
    c == ' ' || c == '\t' || c == '\n' || c == '\U{000B}' || c == '\U{000C}' || c == '\r'
  }

  predicate IsDigit(c: char) {
    '0' <= c <= '9'
  }

  predicate AllDigits(s: string) {
    forall i :: 0 <= i < |s| ==> IsDigit(s[i])
  }

  /** The longest prefix of s made of decimal digits. */
  function DigitPrefix(s: string): (d: string)
    ensures AllDigits(d) && d <= s
    ensures |d| < |s| ==> !IsDigit(s[|d|])
  {
    if s != [] && IsDigit(s[0]) then [s[0]] + DigitPrefix(s[1..]) else []
  }

  /** The value of a string of decimal digits, most significant first. */
  function DigitsValue(d: string): nat
    requires AllDigits(d)
    decreases |d|
  {
    if d == [] then 0 else DigitsValue(d[..|d| - 1]) * 10 + (d[|d| - 1] as int - '0' as int)
  }

  /** atoi: leading white space, an optional sign, then as many digits as
      follow; 0 when there are none. (Overflow, undefined in C, is not
      modelled: the integers here are unbounded.) */
  function Atoi(s: string): int {
    if s != [] && IsSpace(s[0]) then Atoi(s[1..])
    else if s != [] && s[0] == '-' then -(DigitsValue(DigitPrefix(s[1..])) as int)
    else if s != [] && s[0] == '+' then DigitsValue(DigitPrefix(s[1..]))
    else DigitsValue(DigitPrefix(s))
  }

  /** The decimal numeral of n, without sign or leading zeros. */
  function Decimal(n: nat): (s: string)
    ensures s != [] && AllDigits(s)
  {
    if n < 10 then [('0' as int + n) as char]
    else Decimal(n / 10) + [('0' as int + n % 10) as char]
  }

  lemma {:induction false} DigitPrefixOfDigits(s: string)
    requires AllDigits(s)
    ensures DigitPrefix(s) == s
    decreases |s|
  {
    if s != [] {
      DigitPrefixOfDigits(s[1..]);
    }
  }

  lemma {:induction false} DigitsValueOfDecimal(n: nat)
    ensures DigitsValue(Decimal(n)) == n
  {
    if n >= 10 {
      var d := Decimal(n);
      assert d[..|d| - 1] == Decimal(n / 10);
      DigitsValueOfDecimal(n / 10);
    }
  }

  /** atoi reads back every numeral it could be given, with either sign. */
  lemma AtoiOfDecimal(n: nat)
    ensures Atoi(Decimal(n)) == n
    ensures Atoi("-" + Decimal(n)) == -(n as int)
    ensures Atoi("+" + Decimal(n)) == n
  {
    var d := Decimal(n);
    DigitPrefixOfDigits(d);
    DigitsValueOfDecimal(n);
    assert IsDigit(d[0]);
    assert Atoi(d) == DigitsValue(DigitPrefix(d));
    var minus, plus := "-" + d, "+" + d;
    assert minus[0] == '-' && minus[1..] == d;
    assert plus[0] == '+' && plus[1..] == d;
  }

  /** atoi skips a leading white-space character. */
  lemma AtoiSkipsSpace(s: string)
    requires s != [] && IsSpace(s[0])
    ensures Atoi(s) == Atoi(s[1..])
  {
  }

  lemma {:induction false} DigitPrefixStops(d: string, t: string)
    requires AllDigits(d) && (t == [] || !IsDigit(t[0]))
    ensures DigitPrefix(d + t) == d
    decreases |d|
  {
    if d == [] {
      assert d + t == t;
    } else {
      assert (d + t)[1..] == d[1..] + t;
      DigitPrefixStops(d[1..], t);
    }
  }

  /** With a digit at its head, atoi reads the digit prefix, signed or not. */
  lemma AtoiOfDigitHead(u: string)
    requires u != [] && IsDigit(u[0])
    ensures Atoi(u) == DigitsValue(DigitPrefix(u))
    ensures Atoi("-" + u) == -(DigitsValue(DigitPrefix(u)) as int)
    ensures Atoi("+" + u) == DigitsValue(DigitPrefix(u))
  {
    assert !IsSpace(u[0]) && u[0] != '-' && u[0] != '+';
    var minus, plus := "-" + u, "+" + u;
    assert minus[0] == '-' && !IsSpace(minus[0]) && minus[1..] == u;
    assert plus[0] == '+' && !IsSpace(plus[0]) && plus[1..] == u;
  }

  /** atoi reads the digits at the head of its text, after an optional
      sign, and ignores whatever follows the first non-digit. */
  lemma AtoiReadsLeadingDigits(d: string, t: string)
    requires d != [] && AllDigits(d) && (t == [] || !IsDigit(t[0]))
    ensures Atoi(d + t) == DigitsValue(d)
    ensures Atoi("-" + d + t) == -(DigitsValue(d) as int)
    ensures Atoi("+" + d + t) == DigitsValue(d)
  {
    var u := d + t;
    DigitPrefixStops(d, t);
    assert u[0] == d[0];
    AtoiOfDigitHead(u);
    assert "-" + d + t == "-" + u && "+" + d + t == "+" + u;
  }

  /** After any white space, the text does not start with a digit, nor with
      a sign followed by a digit. */
  predicate NoLeadingNumber(s: string) {
    if s != [] && IsSpace(s[0]) then NoLeadingNumber(s[1..])
    else if s != [] && (s[0] == '-' || s[0] == '+') then |s| == 1 || !IsDigit(s[1])
    else s == [] || !IsDigit(s[0])
  }

  /** Text with no number at its head reads as 0. */
  lemma {:induction false} AtoiNoDigits(s: string)
    requires NoLeadingNumber(s)
    ensures Atoi(s) == 0
  {
    if s != [] && IsSpace(s[0]) {
      AtoiNoDigits(s[1..]);
    } else if s != [] && (s[0] == '-' || s[0] == '+') {
      assert DigitPrefix(s[1..]) == [];
    } else {
      assert DigitPrefix(s) == [];
    }
  }

  /** Four readings: leading space, trailing junk, leading junk, nothing. */
  lemma AtoiExamples()
    ensures Atoi(" 3") == 3
    ensures Atoi("3x") == 3
    ensures Atoi("x3") == 0
    ensures Atoi("") == 0
  {
    assert " 3"[1..] == "3";
    assert "3x"[1..] == "x";
    assert DigitPrefix("3x") == "3";
    assert "3"[..0] == "";
  }

  /** a <= b in the order of std::string: lexicographic by character, a
      proper prefix before the longer string. */
  predicate KeyLe(a: string, b: string)
    decreases |a|
  {
    if a == [] then true
    else if b == [] then false
    else if a[0] != b[0] then a[0] < b[0]
    else KeyLe(a[1..], b[1..])
  }

  lemma {:induction false} KeyLeReflexive(a: string)
    ensures KeyLe(a, a)
    decreases |a|
  {
    if a != [] {
      KeyLeReflexive(a[1..]);
    }
  }

  lemma {:induction false} KeyLeTotal(a: string, b: string)
    ensures KeyLe(a, b) || KeyLe(b, a)
    decreases |a|
  {
    if a != [] && b != [] && a[0] == b[0] {
      KeyLeTotal(a[1..], b[1..]);
    }
  }

  lemma {:induction false} KeyLeAntisymmetric(a: string, b: string)
    requires KeyLe(a, b) && KeyLe(b, a)
    ensures a == b
    decreases |a|
  {
    if a != [] && b != [] {
      KeyLeAntisymmetric(a[1..], b[1..]);
      assert a == [a[0]] + a[1..] && b == [b[0]] + b[1..];
    }
  }

  lemma {:induction false} KeyLeTransitive(a: string, b: string, c: string)
    requires KeyLe(a, b) && KeyLe(b, c)
    ensures KeyLe(a, c)
    decreases |a|
  {
    if a != [] && b != [] && c != [] && a[0] == b[0] && b[0] == c[0] {
      KeyLeTransitive(a[1..], b[1..], c[1..]);
    }
  }
}
