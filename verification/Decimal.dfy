/** Decimal numbers in text: std::to_string, and the std::stoi family that reads a number at the front of
    a text and ignores what follows. */
module Decimal {
  import opened Bytes

  predicate IsDigit(c: char) { '0' <= c <= '9' }

  function DigitOf(d: nat): (c: char)
    requires d < 10
    ensures IsDigit(c) && c as int - '0' as int == d
  {
    (d + '0' as int) as char
  }

  function Digits(n: nat): (s: string)
    ensures s != "" && forall c :: c in s ==> IsDigit(c)
  {
    if n < 10 then [DigitOf(n)] else Digits(n / 10) + [DigitOf(n % 10)]
  }

  /** std::to_string. */
  function Text(n: int): (s: string)
    ensures s != "" && forall c :: c in s ==> IsDigit(c) || c == '-'
  {
    if n < 0 then "-" + Digits(-n) else Digits(n)
  }

  predicate AllDigits(s: string) { forall c :: c in s ==> IsDigit(c) }

  function Value(s: string): (v: nat)
    requires AllDigits(s)
  {
    if s == "" then 0
    else
      assert IsDigit(s[|s| - 1]);
      10 * Value(s[..|s| - 1]) + (s[|s| - 1] as int - '0' as int)
  }

  /** How many digits the text begins with. */
  function Run(s: string): (k: nat)
    ensures k <= |s| && AllDigits(s[..k])
    ensures k < |s| ==> !IsDigit(s[k])
  {
    if s == "" || !IsDigit(s[0]) then 0
    else
      var k := Run(s[1..]);
      assert s[..1 + k] == [s[0]] + s[1..][..k];
      1 + k
  }

  predicate IsSpace(c: char) { c == ' ' || '\t' <= c <= '\r' }

  function SkipSpace(s: string): (r: string)
  {
    if s != "" && IsSpace(s[0]) then SkipSpace(s[1..]) else s
  }

  datatype Number = Number(negative: bool, magnitude: nat)

  /** White space, a sign, then at least one digit; everything after the digits is ignored. */
  function Scan(s: string): (r: Option<Number>)
  {
    var t := SkipSpace(s);
    var signed := t != "" && (t[0] == '-' || t[0] == '+');
    var u := if signed then t[1..] else t;
    var k := Run(u);
    if k == 0 then None else Some(Number(signed && t[0] == '-', Value(u[..k])))
  }

  /** std::stoi: None where it throws. */
  function Stoi(s: string): (r: Option<i32>)
  {
    var n :- Scan(s);
    var v: int := if n.negative then 0 - n.magnitude else n.magnitude;
    if -0x8000_0000 <= v < 0x8000_0000 then Some(v) else None
  }

  /** std::stoul and std::stoull for an unsigned type with the given modulus: a minus sign negates within
      the type. */
  function Unsigned(s: string, modulus: nat): (r: Option<nat>)
    requires modulus > 0
    ensures r.Some? ==> r.value < modulus
  {
    var n :- Scan(s);
    if n.magnitude >= modulus then None
    else Some(if n.negative then (modulus - n.magnitude) % modulus else n.magnitude)
  }

  lemma {:induction false} ValueOfDigits(n: nat)
    ensures Value(Digits(n)) == n
  {
    if n < 10 {
      assert Digits(n)[..0] == "";
    } else {
      ValueOfDigits(n / 10);
      assert Digits(n)[..|Digits(n)| - 1] == Digits(n / 10);
    }
  }

  lemma {:induction false} RunOfDigits(s: string, rest: string)
    requires AllDigits(s) && (rest != "" ==> !IsDigit(rest[0]))
    ensures Run(s + rest) == |s|
  {
    if s == "" {
      assert s + rest == rest;
    } else {
      assert (s + rest)[1..] == s[1..] + rest;
      RunOfDigits(s[1..], rest);
    }
  }

  /** A printed number, whatever follows it short of another digit, is read back. */
  lemma ScanText(n: int, rest: string)
    requires rest != "" ==> !IsDigit(rest[0])
    ensures Scan(Text(n) + rest) == Some(Number(n < 0, if n < 0 then -n else n))
  {
    hide Scan;
    var m: nat := if n < 0 then -n else n;
    var d := Digits(m) + rest;
    hide Digits;
    ScanDigits(m, rest);
    if n < 0 {
      assert Text(n) + rest == "-" + d;
      ScanSigned(d);
    }
  }

  lemma ScanDigits(m: nat, rest: string)
    requires rest != "" ==> !IsDigit(rest[0])
    ensures var d := Digits(m) + rest;
            Scan(d) == Some(Number(false, m)) && d != "" && IsDigit(d[0])
  {
    hide Digits, Value, Run;
    var d := Digits(m) + rest;
    ValueOfDigits(m);
    RunOfDigits(Digits(m), rest);
    assert d[0] == Digits(m)[0] && d[0] in Digits(m);
    assert d[..|Digits(m)|] == Digits(m);
  }

  lemma ScanSigned(d: string)
    requires d != "" && IsDigit(d[0]) && Scan(d).Some?
    ensures Scan("-" + d) == Some(Scan(d).value.(negative := true))
  {
    hide Run, Value;
    assert ("-" + d)[1..] == d;
  }

  /** White space before a number makes no difference. */
  lemma ScanSpace(c: char, s: string)
    requires c == ' ' || 9 <= c as int <= 13
    ensures Scan([c] + s) == Scan(s)
  {
    assert ([c] + s)[1..] == s;
  }

  lemma ScanPlus(n: nat, rest: string)
    requires rest != "" ==> !IsDigit(rest[0])
    ensures Scan("+" + (Text(n) + rest)) == Some(Number(false, n))
  {
    var d := Text(n) + rest;
    ScanDigits(n, rest);
    hide Run, Value, Digits;
    assert ("+" + d)[1..] == d;
  }

  /** No number: nothing there, another character first, or a sign that no digit follows. */
  lemma ScanNone(s: string)
    requires s == "" || !(s[0] in "+-0123456789" || s[0] == ' ' || 9 <= s[0] as int <= 13)
          || (s[0] in "+-" && (|s| == 1 || s[1] !in "0123456789"))
    ensures Scan(s) == None
  {
    if s != "" { DigitIs(s[0]); }
    if |s| > 1 { DigitIs(s[1]); }
  }

  lemma DigitIs(c: char)
    ensures IsDigit(c) ==> c in "0123456789"
  {
    if IsDigit(c) { assert "0123456789"[c as int - 48] == c; }
  }

  /** Reading back what was printed fails exactly outside 32 bits. */
  lemma StoiText(n: int)
    ensures Stoi(Text(n)) == if -2147483648 <= n <= 2147483647 then Some(n) else None
  {
    hide Scan, Text;
    ScanText(n, "");
    assert Text(n) + "" == Text(n);
  }

  /** A number whose magnitude fits comes back modulo the type's range; others are refused. */
  lemma UnsignedText(n: int, modulus: nat)
    requires modulus > 0
    ensures Unsigned(Text(n), modulus) == if 0 - modulus < n < modulus then Some(n % modulus) else None
  {
    hide Scan, Text;
    ScanText(n, "");
    assert Text(n) + "" == Text(n);
    if 0 - modulus < n < 0 {
      ModNegative(n, modulus);
    } else if 0 <= n < modulus {
      ModSmall(n, modulus);
    }
  }

  lemma ModSmall(n: nat, modulus: nat)
    requires n < modulus
    ensures n % modulus == n
  {}

  lemma ModNegative(n: int, modulus: nat)
    requires 0 - modulus < n < 0
    ensures n % modulus == (modulus + n) % modulus
  {
    ModSmall(modulus + n, modulus);
    var q, r := n / modulus, n % modulus;
    assert n == q * modulus + r;
    assert q <= -2 ==> q * modulus <= -2 * modulus;
    assert q >= 0 ==> q * modulus >= 0;
    assert q == -1;
  }
}
