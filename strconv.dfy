/**
 * Decimal integer text, read the way Go's strconv.Atoi reads it when the
 * webhook validator coerces `maxAlerts`: an optional '+' or '-' sign followed
 * by one or more ASCII digits. Any other text is a syntax error, which the
 * validator discards, so it reads as 0. Itoa is the canonical rendering of an
 * integer, the inverse of Atoi.
 */
module Strconv {

  datatype Option<T> = None | Some(value: T)

  const MinInt64: int := -0x8000_0000_0000_0000
  const MaxInt64: int := 0x7FFF_FFFF_FFFF_FFFF

  predicate IsDigit(c: char) { '0' <= c <= '9' }

  predicate IsSign(c: char) { c == '+' || c == '-' }

  predicate AllDigits(s: string) {
    forall i :: 0 <= i < |s| ==> IsDigit(s[i])
  }

  function DigitValue(c: char): (d: nat)
    requires IsDigit(c)
    ensures d < 10
  {
    (c as int) - ('0' as int)
  }

  function DigitChar(d: nat): (c: char)
    requires d < 10
    ensures IsDigit(c) && DigitValue(c) == d
  {
    ('0' as int + d) as char
  }

  function Pow10(k: nat): (p: nat)
    ensures p >= 1
  {
    if k == 0 then 1 else 10 * Pow10(k - 1)
  }

  /** The value of a run of decimal digits, most significant digit first.
      A run of k digits stays below 10^k. */
  function DigitsValue(s: string): (n: nat)
    requires AllDigits(s)
    ensures n < Pow10(|s|)
  {
    if s == [] then 0 else 10 * DigitsValue(s[..|s| - 1]) + DigitValue(s[|s| - 1])
  }

  /** A decimal integer literal: an optional sign, then at least one digit. */
  ghost predicate IsDecimalLiteral(s: string) {
    && |s| > 0
    && (IsSign(s[0]) ==> |s| >= 2)
    && forall i :: 0 <= i < |s| && !(i == 0 && IsSign(s[0])) ==> IsDigit(s[i])
  }

  /** The integer a decimal literal denotes, or None on a syntax error. */
  function ParseDecimal(s: string): (r: Option<int>)
  {
    if |s| > 0 && IsSign(s[0]) then
      var body := s[1..];
      if body != [] && AllDigits(body) then
        var n: int := DigitsValue(body);
        var v := if s[0] == '-' then -n else n;
        Some(v)
      else None
    else if s != [] && AllDigits(s) then Some(DigitsValue(s))
    else None
  }

  /** strconv.Atoi with its error discarded: the literal's value, or 0. */
  function Atoi(s: string): int
  {
    match ParseDecimal(s)
    case Some(v) => v
    case None => 0
  }

  /** Decimal digits of a natural number, without leading zeros. */
  function FormatDigits(n: nat): (s: string)
    ensures |s| > 0 && AllDigits(s)
  {
    if n < 10 then [DigitChar(n)] else FormatDigits(n / 10) + [DigitChar(n % 10)]
  }

  /** Canonical decimal text of an integer, as strconv.Itoa writes it. */
  function Itoa(n: int): (s: string)
    ensures IsDecimalLiteral(s)
  {
    if n < 0 then "-" + FormatDigits(-n) else FormatDigits(n)
  }

  lemma DigitsValueSnoc(s: string, c: char)
    requires AllDigits(s) && IsDigit(c)
    ensures AllDigits(s + [c])
    ensures DigitsValue(s + [c]) == 10 * DigitsValue(s) + DigitValue(c)
  {
    assert (s + [c])[..|s|] == s;
  }

  /** Reading back the digits of n gives n. */
  lemma {:induction false} DigitsRoundTrip(n: nat)
    ensures DigitsValue(FormatDigits(n)) == n
  {
    if n >= 10 {
      DigitsRoundTrip(n / 10);
      DigitsValueSnoc(FormatDigits(n / 10), DigitChar(n % 10));
    }
  }

  /** Atoi inverts Itoa: every integer's canonical text reads back as that integer. */
  lemma AtoiItoa(n: int)
    ensures Atoi(Itoa(n)) == n
  {
    if n < 0 {
      var s := Itoa(n);
      assert s[1..] == FormatDigits(-n);
      DigitsRoundTrip(-n);
    } else {
      DigitsRoundTrip(n);
    }
  }

  /** Atoi succeeds exactly on decimal literals: an optional sign followed by
      one or more digits. */
  lemma ParseDecimalAcceptsExactlyLiterals(s: string)
    ensures ParseDecimal(s).Some? <==> IsDecimalLiteral(s)
  {
    if |s| > 0 && IsSign(s[0]) {
      var body := s[1..];
      if IsDecimalLiteral(s) {
        forall j | 0 <= j < |body| ensures IsDigit(body[j]) {
          assert body[j] == s[j + 1];
        }
      }
      if body != [] && AllDigits(body) {
        forall i | 0 <= i < |s| && i != 0 ensures IsDigit(s[i]) {
          assert s[i] == body[i - 1];
        }
      }
    }
  }

  /** A character that is neither a digit nor a leading sign (a '.', an 'e',
      a letter, a space) makes the whole text read as 0. */
  lemma AtoiRejectsStrayCharacter(s: string, i: int)
    requires 0 <= i < |s| && !IsDigit(s[i]) && !(i == 0 && IsSign(s[i]))
    ensures Atoi(s) == 0
  {
    ParseDecimalAcceptsExactlyLiterals(s);
  }

  lemma {:induction false} Pow10Monotone(j: nat, k: nat)
    requires j <= k
    ensures Pow10(j) <= Pow10(k)
  {
    if j < k {
      Pow10Monotone(j, k - 1);
    }
  }

  /** Where Go's int is 64 bits, Go's Atoi never leaves the 64-bit range on
      texts of at most 18 characters, and the unbounded value here is the one
      it returns. */
  lemma AtoiShortTextFitsInt64(s: string)
    requires |s| <= 18
    ensures MinInt64 < Atoi(s) < MaxInt64
  {
    Pow10Monotone(|s|, 18);
    assert Pow10(2) == 100;
    assert Pow10(4) == 10_000;
    assert Pow10(6) == 1_000_000;
    assert Pow10(8) == 100_000_000;
    assert Pow10(10) == 10_000_000_000;
    assert Pow10(12) == 1_000_000_000_000;
    assert Pow10(14) == 100_000_000_000_000;
    assert Pow10(16) == 10_000_000_000_000_000;
    assert Pow10(18) == 1_000_000_000_000_000_000;
  }

  /** Texts that are not integer literals read as 0; integer literals read as
      their value. */
  lemma AtoiExamples()
    ensures Atoi("7") == 7 && Atoi("+7") == 7 && Atoi("-7") == -7 && Atoi("007") == 7
    ensures Atoi("1.5") == 0 && Atoi("1e3") == 0 && Atoi("abc") == 0
    ensures Atoi("") == 0 && Atoi("-") == 0 && Atoi(" 7") == 0
  {
    AtoiRejectsStrayCharacter("1.5", 1);
    AtoiRejectsStrayCharacter("1e3", 1);
    AtoiRejectsStrayCharacter("abc", 0);
    AtoiRejectsStrayCharacter(" 7", 0);
    assert "007"[..2] == "00" && "00"[..1] == "0";
    assert "+7"[1..] == "7";
    assert "-7"[1..] == "7";
  }
}
