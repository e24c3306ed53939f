/** The C library's reading and printing of text, as far as the chat uses it: `%d`, `%s`, white space and
    literals in sscanf formats, atoi, strtok. */
module Text {
  import opened Wrappers

  predicate IsDigit(c: char) {
    '0' <= c <= '9'
  }

  /** isspace() in the C locale. */
  predicate IsSpace(c: char) {
    c == ' ' || c == '\t' || c == '\n' || c == '\r' || c == 11 as char || c == 12 as char
  }

  function Value(c: char): nat
    requires IsDigit(c)
  {
    c as int - '0' as int
  }

  /** `%d` of a number that is not negative. */
  function Decimal(n: nat): (s: string)
    ensures |s| > 0 && forall i :: 0 <= i < |s| ==> IsDigit(s[i])
  {
    if n < 10 then ["0123456789"[n]] else Decimal(n / 10) + ["0123456789"[n % 10]]
  }

  /** How many digits s starts with. */
  function Digits(s: string): (k: nat)
    ensures k <= |s| && (forall i :: 0 <= i < k ==> IsDigit(s[i])) && (k < |s| ==> !IsDigit(s[k]))
  {
    if s == "" || !IsDigit(s[0]) then 0 else 1 + Digits(s[1..])
  }

  function Number(s: string): nat
    requires forall i :: 0 <= i < |s| ==> IsDigit(s[i])
  {
    if s == "" then 0 else 10 * Number(s[..|s| - 1]) + Value(s[|s| - 1])
  }

  lemma {:induction false} NumberOfDecimal(n: nat)
    ensures Number(Decimal(n)) == n
  {
    if n < 10 {
      var d := "0123456789"[n];
      assert Decimal(n)[..0] == "" && Value(d) == n;
    } else {
      NumberOfDecimal(n / 10);
      var d := "0123456789"[n % 10];
      assert Decimal(n)[..|Decimal(n)| - 1] == Decimal(n / 10) && Value(d) == n % 10;
    }
  }

  function Power(d: nat): nat {
    if d == 0 then 1 else 10 * Power(d - 1)
  }

  lemma {:induction false} DecimalLength(n: nat, d: nat)
    requires d > 0 && n < Power(d)
    ensures |Decimal(n)| <= d
  {
    if n >= 10 {
      assert Power(1) == 10;
      DecimalLength(n / 10, d - 1);
    }
  }

  // ----- Conversions -----

  function SkipSpace(s: string): (r: string)
    ensures r == "" || !IsSpace(r[0])
  {
    if s == "" || !IsSpace(s[0]) then s else SkipSpace(s[1..])
  }

  function Unsigned(negative: bool, s: string): Option<(int, string)> {
    var k := Digits(s);
    if k == 0 then None
    else
      var magnitude: int := Number(s[..k]);
      Some((if negative then -magnitude else magnitude, s[k..]))
  }

  /** The optional sign and the digits that `%d` and atoi read. */
  function Signed(s: string): Option<(int, string)> {
    if s != "" && s[0] == '-' then Unsigned(true, s[1..])
    else if s != "" && s[0] == '+' then Unsigned(false, s[1..])
    else Unsigned(false, s)
  }

  function ScanInt(s: string): Option<(int, string)> {
    Signed(SkipSpace(s))
  }

  function Atoi(s: string): int {
    var r := Signed(SkipSpace(s));
    if r.None? then 0 else r.value.0
  }

  /** How long the word is that s starts with. */
  function WordLength(s: string): (k: nat)
    ensures k <= |s| && (forall i :: 0 <= i < k ==> !IsSpace(s[i])) && (k < |s| ==> IsSpace(s[k]))
  {
    if s == "" || IsSpace(s[0]) then 0 else 1 + WordLength(s[1..])
  }

  /** `%s`. */
  function ScanWord(s: string): Option<(string, string)> {
    var t := SkipSpace(s);
    if t == "" then None else Some((t[..WordLength(t)], t[WordLength(t)..]))
  }

  /** White space and then a literal, as in "\n\tDEPS:". */
  function ScanLiteral(lit: string, s: string): Option<string> {
    var t := SkipSpace(s);
    if lit <= t then Some(t[|lit|..]) else None
  }

  predicate EndsNumber(rest: string) {
    rest == "" || !IsDigit(rest[0])
  }

  lemma {:induction false} DigitsThen(d: string, rest: string)
    requires (forall i :: 0 <= i < |d| ==> IsDigit(d[i])) && EndsNumber(rest)
    ensures Digits(d + rest) == |d|
  {
    if d != "" {
      DigitsThen(d[1..], rest);
      assert (d + rest)[1..] == d[1..] + rest;
    } else {
      assert d + rest == rest;
    }
  }

  lemma {:induction false} SignedDecimal(n: nat, rest: string)
    requires EndsNumber(rest)
    ensures Signed(Decimal(n) + rest) == Some((n, rest))
  {
    UnsignedDecimal(false, n, rest);
    assert IsDigit((Decimal(n) + rest)[0]);
  }

  lemma {:induction false} AtoiDecimal(n: nat)
    ensures Atoi(Decimal(n)) == n
  {
    SignedDecimal(n, "");
    assert Decimal(n) + "" == Decimal(n);
    assert IsDigit(Decimal(n)[0]);
  }

  lemma {:induction false} WordThen(w: string, rest: string)
    requires forall i :: 0 <= i < |w| ==> !IsSpace(w[i])
    requires rest == "" || IsSpace(rest[0])
    ensures WordLength(w + rest) == |w|
  {
    if w != "" {
      WordThen(w[1..], rest);
      assert (w + rest)[1..] == w[1..] + rest;
    } else {
      assert w + rest == rest;
    }
  }

  predicate IsLiteral(lit: string) {
    lit != "" && !IsSpace(lit[0])
  }

  lemma {:induction false} LiteralThen(lit: string, rest: string)
    requires IsLiteral(lit)
    ensures ScanLiteral(lit, "\n\t" + lit + rest) == Some(rest)
  {
    var s := "\n\t" + lit + rest;
    assert s[1..][1..] == lit + rest;
    assert SkipSpace(s) == SkipSpace(s[1..]) == lit + rest;
    assert (lit + rest)[|lit|..] == rest;
  }

  predicate Blank(s: string) {
    forall i :: 0 <= i < |s| ==> IsSpace(s[i])
  }

  lemma {:induction false} SkipBlank(s: string)
    ensures SkipSpace(s) == "" <==> Blank(s)
  {
    if s != "" && IsSpace(s[0]) {
      SkipBlank(s[1..]);
      if Blank(s[1..]) {
        forall i | 0 <= i < |s| ensures IsSpace(s[i]) {
          assert i > 0 ==> s[i] == s[1..][i - 1];
        }
      }
    }
  }

  /** The first digit is not a zero, but of 0 itself; so a number has one decimal text only. */
  lemma {:induction false} DecimalShape(n: nat)
    ensures n > 0 ==> Decimal(n)[0] != '0'
  {
    if n >= 10 {
      DecimalShape(n / 10);
    }
  }

  lemma {:induction false} DecimalExample()
    ensures Decimal(0) == "0" && Decimal(102) == "102"
  {
    assert Decimal(1) == "1";
    assert Decimal(10) == "10";
  }

  lemma {:induction false} UnsignedDecimal(negative: bool, n: nat, rest: string)
    requires EndsNumber(rest)
    ensures Unsigned(negative, Decimal(n) + rest) == Some((if negative then 0 - n else n, rest))
  {
    DigitsThen(Decimal(n), rest);
    NumberOfDecimal(n);
    var s := Decimal(n) + rest;
    assert s[..|Decimal(n)|] == Decimal(n) && s[|Decimal(n)|..] == rest;
  }

  /** A sign before the digits is read as such. */
  lemma {:induction false} SignedNumbers(sign: char, n: nat, rest: string)
    requires EndsNumber(rest) && (sign == '-' || sign == '+')
    ensures Signed([sign] + (Decimal(n) + rest)) == Some((if sign == '-' then 0 - n else n, rest))
  {
    UnsignedDecimal(sign == '-', n, rest);
    var s := Decimal(n) + rest;
    assert ([sign] + s)[1..] == s && ([sign] + s)[0] == sign;
  }

  /** White space before a number is skipped, and what does not begin like a number reads as 0. */
  lemma {:induction false} AtoiElse(c: char, s: string)
    ensures IsSpace(c) ==> Atoi([c] + s) == Atoi(s) && ScanInt([c] + s) == ScanInt(s)
    ensures s == "" || !(IsSpace(s[0]) || IsDigit(s[0]) || s[0] == '-' || s[0] == '+') ==>
              Atoi(s) == 0 && ScanInt(s).None?
  {
    assert ([c] + s)[1..] == s;
  }
}
