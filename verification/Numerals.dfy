/** Integer numerals: std::stoi with base 0, and the decimal text that boost::to_string gives. */
module Numerals {
  import opened Wrappers

  const INT_MAX: int := 0x7FFF_FFFF
  const INT_MIN: int := -0x8000_0000

  /** How a call of std::stoi ends: with a value, or with one of its two exceptions. */
  datatype StoiResult = Value(n: int) | InvalidArgument | OutOfRange

  predicate IsSpace(c: char) {
    c in {' ', '\t', '\n', '\r', '\U{0B}', '\U{0C}'}
  }

  /** The space characters of the C locale, by their codes. */
  lemma SpaceCodes(c: char)
    ensures IsSpace(c) <==> c as int == 32 || 9 <= c as int <= 13
  {
  }

  /** The value of a digit or letter; 36, which no base admits, for anything else. */
  function DigitValue(c: char): (v: nat)
    ensures v <= 36
  {
    if '0' <= c <= '9' then c as int - '0' as int
    else if 'a' <= c <= 'z' then c as int - 'a' as int + 10
    else if 'A' <= c <= 'Z' then c as int - 'A' as int + 10
    else 36
  }

  predicate IsDigit(c: char, base: nat) {
    DigitValue(c) < base
  }

  /** What the digits and letters stand for, one by one. */
  lemma DigitMeans(d: nat)
    ensures d < 10 ==> DigitValue("0123456789"[d]) == d
    ensures d < 6 ==> DigitValue("abcdef"[d]) == 10 + d && DigitValue("ABCDEF"[d]) == 10 + d
  {
  }

  /** And no other character stands for a value below 16. */
  lemma DigitIsLiteral(c: char)
    requires DigitValue(c) < 16
    ensures var v := DigitValue(c);
            if v < 10 then c == "0123456789"[v] else c == "abcdef"[v - 10] || c == "ABCDEF"[v - 10]
  {
    var v := DigitValue(c);
    if '0' <= c <= '9' {
      assert c == ('0' as int + v) as char;
    } else if 'a' <= c <= 'z' {
      assert c == ('a' as int + (v - 10)) as char;
    } else {
      assert c == ('A' as int + (v - 10)) as char;
    }
  }

  function SkipSpaces(s: string): (r: string)
    ensures r != "" ==> !IsSpace(r[0])
  {
    if s != "" && IsSpace(s[0]) then SkipSpaces(s[1..]) else s
  }

  lemma {:induction false} SkippedSpaces(s: string) returns (w: string)
    ensures IsSpaces(w) && s == w + SkipSpaces(s)
  {
    if s != "" && IsSpace(s[0]) {
      w := SkippedSpaces(s[1..]);
      w := [s[0]] + w;
    } else {
      w := "";
    }
  }

  predicate IsSpaces(w: string) {
    forall j :: 0 <= j < |w| ==> IsSpace(w[j])
  }

  /** Base detection of section 7.22.1.4 of C11: "0x" only counts with a digit after it. */
  function DetectBase(s: string): nat {
    if |s| >= 3 && s[0] == '0' && s[1] in {'x', 'X'} && IsDigit(s[2], 16) then 16
    else if s != "" && s[0] == '0' then 8
    else 10
  }

  function AfterPrefix(s: string): string {
    if DetectBase(s) == 16 then s[2..] else s
  }

  /** The value of the leading digits, accumulated from the left as strtol does. */
  function Accumulate(s: string, base: nat, acc: nat): nat {
    if s != "" && IsDigit(s[0], base) then Accumulate(s[1..], base, acc * base + DigitValue(s[0])) else acc
  }

  function Unsigned(s: string): Option<nat> {
    var digits := AfterPrefix(s);
    var base := DetectBase(s);
    if digits != "" && IsDigit(digits[0], base) then Some(Accumulate(digits, base, 0)) else None
  }

  /** std::stoi(s, nullptr, 0). */
  function Stoi(s: string): StoiResult {
    var t := SkipSpaces(s);
    var negative := t != "" && t[0] == '-';
    var u := if t != "" && t[0] in {'-', '+'} then t[1..] else t;
    match Unsigned(u)
    case None => InvalidArgument
    case Some(magnitude) =>
      var n := (if negative then -1 else 1) * magnitude;
      if INT_MIN <= n <= INT_MAX then Value(n) else OutOfRange
  }

  // ---------- what the accumulation computes ----------

  function Pow(base: nat, e: nat): nat {
    if e == 0 then 1 else base * Pow(base, e - 1)
  }

  /** The positional value of a digit string: digit by digit times its power of the base. */
  function Positional(digits: string, base: nat): nat {
    if digits == "" then 0
    else DigitValue(digits[0]) * Pow(base, |digits| - 1) + Positional(digits[1..], base)
  }

  predicate AllDigits(digits: string, base: nat) {
    forall j :: 0 <= j < |digits| ==> IsDigit(digits[j], base)
  }

  /** Accumulating reads the longest digit prefix and yields its positional value. */
  lemma {:induction false} AccumulateIsPositional(digits: string, rest: string, base: nat, acc: nat)
    requires AllDigits(digits, base)
    requires rest != "" ==> !IsDigit(rest[0], base)
    ensures Accumulate(digits + rest, base, acc) == acc * Pow(base, |digits|) + Positional(digits, base)
  {
    if digits == "" {
      assert digits + rest == rest;
    } else {
      var d := DigitValue(digits[0]);
      assert (digits + rest)[1..] == digits[1..] + rest;
      AccumulateIsPositional(digits[1..], rest, base, acc * base + d);
      var p := Pow(base, |digits| - 1);
      AccumulateStep(acc, base, d, p);
    }
  }

  lemma AccumulateStep(acc: nat, base: nat, d: nat, p: nat)
    ensures (acc * base + d) * p == acc * (base * p) + d * p
  {
    assert (acc * base) * p == acc * (base * p);
  }

  /** A text read as: spaces, an optional sign, an optional prefix that sets the base, at least
    * one digit of that base, and a rest at which the digits stop. */
  datatype Numeral = Numeral(spaces: string, sign: string, prefix: string, base: nat, digits: string, rest: string) {
    function Text(): string {
      spaces + (sign + (prefix + (digits + rest)))
    }

    ghost predicate Valid() {
      && IsSpaces(spaces)
      && sign in {"", "+", "-"}
      && digits != "" && AllDigits(digits, base)
      && (rest != "" ==> !IsDigit(rest[0], base))
      && match base {
           case 16 => prefix in {"0x", "0X"}
           case 8 => prefix == "" && digits[0] == '0' && !HexFollows(digits + rest)
           case 10 => prefix == "" && digits[0] != '0'
           case _ => false
         }
    }

    function Value(): int {
      (if sign == "-" then -1 else 1) * Positional(digits, base)
    }
  }

  /** "0x" and a hexadecimal digit. */
  predicate HexFollows(s: string) {
    |s| >= 3 && s[0] == '0' && s[1] in {'x', 'X'} && IsDigit(s[2], 16)
  }

  lemma {:induction false} SkipSpacesOf(w: string, t: string)
    requires IsSpaces(w) && (t != "" ==> !IsSpace(t[0]))
    ensures SkipSpaces(w + t) == t
  {
    if w == "" {
      assert w + t == t;
    } else {
      assert (w + t)[1..] == w[1..] + t;
      SkipSpacesOf(w[1..], t);
    }
  }

  /** The prefix decides the base, and is what is taken off. */
  lemma PrefixOf(m: Numeral)
    requires m.Valid()
    ensures var body := m.digits + m.rest;
            var u := m.prefix + body;
            && DetectBase(u) == m.base && AfterPrefix(u) == body
            && u != "" && u[0] == if m.base == 16 then '0' else m.digits[0]
  {
    var body := m.digits + m.rest;
    var u := m.prefix + body;
    assert body[0] == m.digits[0] && IsDigit(m.digits[0], m.base);
    if m.base == 16 {
      assert u[0] == '0' && u[1] in {'x', 'X'} && u[2] == body[0] && u[2..] == body;
    } else {
      assert u == body;
    }
  }

  lemma UnsignedOf(m: Numeral)
    requires m.Valid()
    ensures Unsigned(m.prefix + (m.digits + m.rest)) == Some(Positional(m.digits, m.base))
    ensures var u := m.prefix + (m.digits + m.rest); u != "" && !IsSpace(u[0]) && u[0] !in {'-', '+'}
  {
    PrefixOf(m);
    AccumulateIsPositional(m.digits, m.rest, m.base, 0);
    assert IsDigit(m.digits[0], m.base) && (m.digits + m.rest)[0] == m.digits[0];
  }

  /** A well-formed numeral is read as its mathematical value, or reported out of range. */
  lemma StoiOfNumeral(m: Numeral)
    requires m.Valid()
    ensures Stoi(m.Text()) == if INT_MIN <= m.Value() <= INT_MAX then Value(m.Value()) else OutOfRange
  {
    UnsignedOf(m);
    SignedText(m);
  }

  /** After its spaces, a numeral has its sign and then the rest. */
  lemma SignedText(m: Numeral)
    requires m.Valid()
    ensures var u := m.prefix + (m.digits + m.rest);
            var t := SkipSpaces(m.Text());
            && t != "" && (t[0] == '-' <==> m.sign == "-")
            && (if t[0] in {'-', '+'} then t[1..] else t) == u
  {
    UnsignedOf(m);
    var u := m.prefix + (m.digits + m.rest);
    var t := m.sign + u;
    assert t[0] == if m.sign == "" then u[0] else m.sign[0];
    SkipSpacesOf(m.spaces, t);
    assert m.sign != "" ==> t[1..] == u;
    assert m.sign == "" ==> t == u;
  }

  /** The longest prefix of digits. */
  function DigitRun(s: string, base: nat): (d: string)
    ensures AllDigits(d, base) && d <= s
    ensures |d| < |s| ==> !IsDigit(s[|d|], base)
    ensures s != "" && IsDigit(s[0], base) ==> d != ""
  {
    if s != "" && IsDigit(s[0], base) then
      var d := DigitRun(s[1..], base);
      assert s == [s[0]] + s[1..];
      [s[0]] + d
    else
      ""
  }

  lemma NumeralOfUnsigned(u: string) returns (m: Numeral)
    requires Unsigned(u).Some?
    ensures m.Valid() && m.spaces == "" && m.sign == "" && m.prefix + (m.digits + m.rest) == u
  {
    var base := DetectBase(u);
    var body := AfterPrefix(u);
    var digits := DigitRun(body, base);
    var rest := body[|digits|..];
    assert digits + rest == body;
    m := Numeral("", "", if base == 16 then u[..2] else "", base, digits, rest);
    assert digits[0] == body[0];
    assert base == 16 ==> u[..2] == ['0', u[1]];
  }

  /** Main result: stoi yields a value or reports overflow exactly on the texts that start, after
    * spaces, with a numeral; the value is the mathematical one. */
  lemma StoiExactly(s: string)
    ensures Stoi(s).InvalidArgument? <==> !(exists m: Numeral :: m.Valid() && m.Text() == s)
    ensures forall m: Numeral :: m.Valid() && m.Text() == s ==>
              Stoi(s) == if -0x8000_0000 <= m.Value() <= 0x7FFF_FFFF then Value(m.Value()) else OutOfRange
  {
    forall m: Numeral | m.Valid() && m.Text() == s
      ensures Stoi(s) == if INT_MIN <= m.Value() <= INT_MAX then Value(m.Value()) else OutOfRange
    {
      StoiOfNumeral(m);
    }
    if !Stoi(s).InvalidArgument? {
      var m := NumeralOf(s);
    }
  }

  lemma NumeralOf(s: string) returns (m: Numeral)
    requires !Stoi(s).InvalidArgument?
    ensures m.Valid() && m.Text() == s
  {
    var t := SkipSpaces(s);
    var w := SkippedSpaces(s);
    var signed := t != "" && t[0] in {'-', '+'};
    var bare := NumeralOfUnsigned(if signed then t[1..] else t);
    m := bare.(spaces := w, sign := if signed then [t[0]] else "");
    assert m.sign + (m.prefix + (m.digits + m.rest)) == t;
  }

  // ---------- decimal text ----------

  function DigitChar(d: nat): (c: char)
    requires d < 10
    ensures DigitValue(c) == d && '0' <= c <= '9'
  {
    ('0' as int + d) as char
  }

  /** The canonical decimal numeral of `n`. */
  function ToDecimal(n: nat): (s: string)
    ensures s != "" && AllDigits(s, 10)
  {
    if n < 10 then [DigitChar(n)] else ToDecimal(n / 10) + [DigitChar(n % 10)]
  }

  /** The decimal text, character by character: the last one is the last digit, before it comes the
    * text of the tenth part. */
  lemma ToDecimalExactly(n: nat)
    ensures var s := ToDecimal(n);
            && s[|s| - 1] == "0123456789"[n % 10]
            && s[..|s| - 1] == if n < 10 then "" else ToDecimal(n / 10)
  {
    DigitCharIs(n % 10);
    if n >= 10 {
      var a, c := ToDecimal(n / 10), DigitChar(n % 10);
      assert (a + [c])[..|a|] == a && (a + [c])[|a|] == c;
    }
  }

  lemma DigitCharIs(d: nat)
    requires d < 10
    ensures DigitChar(d) == "0123456789"[d]
  {
    DigitIsLiteral(DigitChar(d));
  }

  lemma {:induction false} PositionalAppend(a: string, c: char, base: nat)
    ensures Positional(a + [c], base) == Positional(a, base) * base + DigitValue(c)
  {
    if a == "" {
      assert a + [c] == [c];
      assert Pow(base, 0) == 1;
    } else {
      assert (a + [c])[1..] == a[1..] + [c];
      PositionalAppend(a[1..], c, base);
      var d := DigitValue(a[0]);
      var p := Pow(base, |a| - 1);
      var q := Positional(a[1..], base);
      AppendStep(d, base, p, q);
      assert Pow(base, |a|) == base * p;
      assert Positional(a + [c], base) == d * Pow(base, |a|) + Positional(a[1..] + [c], base);
    }
  }

  lemma AppendStep(d: nat, base: nat, p: nat, q: nat)
    ensures (d * p + q) * base == d * (base * p) + q * base
  {
    assert (d * p) * base == d * (base * p);
  }

  lemma {:induction false} ToDecimalValue(n: nat)
    ensures Positional(ToDecimal(n), 10) == n
    ensures ToDecimal(n)[0] == '0' <==> n == 0
  {
    if n < 10 {
      assert Pow(10, 0) == 1;
    } else {
      ToDecimalValue(n / 10);
      PositionalAppend(ToDecimal(n / 10), DigitChar(n % 10), 10);
    }
  }

  /** Main result: the decimal text of a number reads back as the number, with base detection on. */
  lemma DecimalRoundTrip(n: nat)
    requires n <= 0x7FFF_FFFF
    ensures Stoi(ToDecimal(n)) == Value(n)
  {
    ToDecimalValue(n);
    var s := ToDecimal(n);
    if n == 0 {
      var m := Numeral("", "", "", 8, s, "");
      assert s == "0" && m.Text() == s;
      assert Pow(8, 0) == 1 && Positional(s[1..], 8) == 0;
      StoiOfNumeral(m);
    } else {
      var m := Numeral("", "", "", 10, s, "");
      assert m.Text() == s;
      StoiOfNumeral(m);
    }
  }

  /** A decimal numeral without a leading zero is the canonical text of its own value. */
  lemma {:induction false} CanonicalText(s: string)
    requires s != "" && AllDigits(s, 10) && (s[0] == '0' ==> |s| == 1)
    ensures ToDecimal(Positional(s, 10)) == s
    decreases |s|
  {
    if |s| == 1 {
      assert Pow(10, 0) == 1;
      assert s[1..] == "";
      DigitCharOf(s[0]);
    } else {
      var a, c := s[..|s| - 1], s[|s| - 1];
      assert s == a + [c];
      CanonicalText(a);
      PositionalAppend(a, c, 10);
      LeadingDigit(a);
      ToDecimalAppend(Positional(a, 10), c);
    }
  }

  lemma ToDecimalAppend(v: nat, c: char)
    requires v > 0 && IsDigit(c, 10)
    ensures ToDecimal(v * 10 + DigitValue(c)) == ToDecimal(v) + [c]
  {
    DigitCharOf(c);
    assert (v * 10 + DigitValue(c)) / 10 == v;
  }

  lemma DigitCharOf(c: char)
    requires IsDigit(c, 10)
    ensures DigitChar(DigitValue(c)) == c
  {
  }

  lemma LeadingDigit(s: string)
    requires s != "" && AllDigits(s, 10) && s[0] != '0'
    ensures Positional(s, 10) > 0
  {
    PowPositive(10, |s| - 1);
    assert DigitValue(s[0]) >= 1;
    assert DigitValue(s[0]) * Pow(10, |s| - 1) >= 1;
  }

  lemma PowPositive(base: nat, e: nat)
    requires base > 0
    ensures Pow(base, e) > 0
  {
  }
}
