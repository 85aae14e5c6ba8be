/** Decimal printing (%d of an unsigned number) and strconv.Atoi. */
module Decimal {
  import opened Options

  predicate IsDigit(c: char) {
    '0' <= c <= '9'
  }

  predicate AllDigits(s: string) {
    forall i :: 0 <= i < |s| ==> IsDigit(s[i])
  }

  function DigitValue(c: char): (d: nat)
    requires IsDigit(c)
    ensures d < 10
  {
    c as int - '0' as int
  }

  function DigitChar(d: nat): (c: char)
    requires d < 10
    ensures IsDigit(c) && DigitValue(c) == d
  {
    "0123456789"[d]
  }

  /** %d of n. */
  function Dec(n: nat): string {
    if n < 10 then [DigitChar(n)] else Dec(n / 10) + [DigitChar(n % 10)]
  }

  function Value(s: string): nat
    requires AllDigits(s)
  {
    if s == [] then 0 else Value(s[..|s| - 1]) * 10 + DigitValue(s[|s| - 1])
  }

  /** The form %d prints: digits only and no leading zero. */
  predicate Canonical(s: string) {
    s != [] && AllDigits(s) && (s[0] == '0' ==> |s| == 1)
  }

  lemma {:induction false} DecIsCanonical(n: nat)
    ensures Canonical(Dec(n)) && (n > 0 ==> Dec(n)[0] != '0')
  {
    if n >= 10 {
      DecIsCanonical(n / 10);
    }
  }

  lemma {:induction false} ValueOfDec(n: nat)
    ensures AllDigits(Dec(n)) && Value(Dec(n)) == n
  {
    DecIsCanonical(n);
    if n < 10 {
      assert Dec(n)[..0] == [];
    } else {
      ValueOfDec(n / 10);
      assert Dec(n)[..|Dec(n)| - 1] == Dec(n / 10);
    }
  }

  lemma DecInjective(m: nat, n: nat)
    requires Dec(m) == Dec(n)
    ensures m == n
  {
    ValueOfDec(m);
    ValueOfDec(n);
  }

  lemma {:induction false} ValuePositive(s: string)
    requires AllDigits(s) && s != [] && s[0] != '0'
    ensures Value(s) > 0
  {
    if |s| > 1 {
      ValuePositive(s[..|s| - 1]);
    } else {
      assert s[..0] == [];
      assert DigitValue(s[0]) != 0;
    }
  }

  /** One more digit. */
  lemma DecSnoc(a: nat, d: nat)
    requires a > 0 && d < 10
    ensures Dec(a * 10 + d) == Dec(a) + [DigitChar(d)]
  {
    hide DigitChar;
    assert (a * 10 + d) / 10 == a && (a * 10 + d) % 10 == d;
  }

  /** A digit string without a leading zero is what %d prints. */
  lemma {:induction false} CanonicalIsDec(s: string)
    requires Canonical(s)
    ensures Dec(Value(s)) == s
  {
    hide DigitChar, DigitValue;
    var front, last := s[..|s| - 1], s[|s| - 1];
    DigitRoundTrip(last);
    if |s| == 1 {
      assert front == [];
    } else {
      assert front[0] == s[0];
      ValuePositive(front);
      CanonicalIsDec(front);
      DecSnoc(Value(front), DigitValue(last));
    }
  }

  lemma DigitRoundTrip(c: char)
    requires IsDigit(c)
    ensures DigitChar(DigitValue(c)) == c
  {
  }

  // ---------- strconv.Atoi ----------

  /** The builds: int has 64 bits, or 32 on linux/arm. */
  datatype Platform = W64 | W32

  /** The first value above the range of int. */
  function IntLimit(p: Platform): int {
    match p
    case W64 => 0x8000_0000_0000_0000
    case W32 => 0x8000_0000
  }

  function Unsigned(s: string): string {
    if s != [] && (s[0] == '-' || s[0] == '+') then s[1..] else s
  }

  /** An optional sign, then digits, within the range of int. */
  function Atoi(s: string, p: Platform): Option<int> {
    var body := Unsigned(s);
    if body == [] || !AllDigits(body) then None
    else
      var v := if s[0] == '-' then 0 - Value(body) else Value(body);
      if -IntLimit(p) <= v < IntLimit(p) then Some(v) else None
  }

  /** s is the number v: digits after at most one sign. */
  predicate Numeral(s: string, body: string, v: int) {
    && body != [] && AllDigits(body)
    && ((v == Value(body) && (s == body || s == "+" + body)) || (v == 0 - Value(body) && s == "-" + body))
  }

  /** Atoi accepts exactly the numerals whose number fits the platform's int, and returns that number. */
  lemma AtoiExactlyWhen(s: string, p: Platform, v: int)
    ensures Atoi(s, p) == Some(v) <==> -IntLimit(p) <= v < IntLimit(p) && exists body: string :: Numeral(s, body, v)
  {
    var body := Unsigned(s);
    if Atoi(s, p) == Some(v) {
      assert s == body || s == [s[0]] + body;
      assert Numeral(s, body, v);
    }
    if b: string :| Numeral(s, b, v) {
      assert IsDigit(b[0]);
      assert Unsigned(s) == b;
    }
  }

  lemma AtoiOfDec(n: nat, p: Platform)
    ensures Atoi(Dec(n), p) == if n < IntLimit(p) then Some(n) else None
  {
    DecIsCanonical(n);
    ValueOfDec(n);
    assert IsDigit(Dec(n)[0]);
  }
}
