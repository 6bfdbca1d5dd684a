/**
 Decimal integers as label values: the parser that `strconv.Atoi` provides on a
 64-bit platform, the printer `strconv.FormatInt`, and the fact that every integer
 has arbitrarily long spellings.
 */
module Strconv {
  import opened Common

  const MAX_INT64: int := 0x7FFF_FFFF_FFFF_FFFF
  const MIN_INT64: int := -0x8000_0000_0000_0000

  predicate IsDigit(c: char) { '0' <= c <= '9' }

  predicate AllDigits(s: string) { forall i :: 0 <= i < |s| ==> IsDigit(s[i]) }

  function DigitValue(c: char): (d: int)
    requires IsDigit(c)
    ensures 0 <= d < 10
  {
    c as int - '0' as int
  }

  function Magnitude(s: string): (n: nat)
    requires AllDigits(s)
  {
    if s == [] then 0 else Magnitude(s[..|s| - 1]) * 10 + DigitValue(s[|s| - 1])
  }

  function Unsigned(s: string): string {
    if s != [] && (s[0] == '+' || s[0] == '-') then s[1..] else s
  }

  predicate IsDecimal(s: string) { Unsigned(s) != [] && AllDigits(Unsigned(s)) }

  /** The integer a decimal string spells, of any size. */
  function Spelled(s: string): int
    requires IsDecimal(s)
  {
    if s[0] == '-' then 0 - Magnitude(Unsigned(s)) else Magnitude(Unsigned(s)) + 0
  }

  predicate InRange(n: int) { MIN_INT64 <= n <= MAX_INT64 }

  /** `strconv.Atoi` with its error as `None`: a syntax error or a value outside 64 bits. */
  function Atoi(s: string): Option<int> {
    if IsDecimal(s) && InRange(Spelled(s)) then Some(Spelled(s)) else None
  }

  /** The value `strconv.Atoi` returns when its error is dropped: zero, or the nearest bound. */
  function AtoiIgnoringError(s: string): (n: int)
    ensures InRange(n)
  {
    if !IsDecimal(s) then 0 else Max(MIN_INT64, Min(MAX_INT64, Spelled(s)))
  }

  function Digits(n: nat): (s: string)
    ensures s != [] && AllDigits(s)
  {
    if n < 10 then [('0' as int + n) as char] else Digits(n / 10) + [('0' as int + n % 10) as char]
  }

  function FormatInt(n: int): string {
    if n < 0 then "-" + Digits(-n) else Digits(n)
  }

  lemma {:induction false} DigitsSpell(n: nat)
    ensures Magnitude(Digits(n)) == n
  {
    if n >= 10 {
      DigitsSpell(n / 10);
      assert Digits(n)[..|Digits(n)| - 1] == Digits(n / 10);
    } else {
      assert Digits(n)[..0] == [];
    }
  }

  /** What a sign in front of a nonempty digit string spells. */
  lemma SignedDigits(d: string)
    requires d != [] && AllDigits(d)
    ensures IsDecimal(d) && Spelled(d) == Magnitude(d)
    ensures IsDecimal("-" + d) && Spelled("-" + d) == 0 - Magnitude(d)
  {
    assert IsDigit(d[0]);
    assert Unsigned("-" + d) == d;
  }

  /** Parsing what was printed gives the number back, for every 64-bit integer. */
  lemma AtoiFormatInt(n: int)
    requires InRange(n)
    ensures Atoi(FormatInt(n)) == Some(n)
  {
    DigitsSpell(if n < 0 then -n else n);
    SignedDigits(Digits(if n < 0 then -n else n));
  }

  function Zeros(k: nat): (s: string)
    ensures |s| == k && forall i :: 0 <= i < k ==> s[i] == '0'
  {
    if k == 0 then [] else Zeros(k - 1) + ['0']
  }

  lemma {:induction false} MagnitudePadded(k: nat, t: string)
    requires AllDigits(t)
    ensures AllDigits(Zeros(k) + t) && Magnitude(Zeros(k) + t) == Magnitude(t)
    decreases |t|, k
  {
    var s := Zeros(k) + t;
    if t != [] {
      assert s[..|s| - 1] == Zeros(k) + t[..|t| - 1];
      MagnitudePadded(k, t[..|t| - 1]);
    } else if k > 0 {
      assert s[..|s| - 1] == Zeros(k - 1) + [];
      MagnitudePadded(k - 1, []);
    }
  }

  /** A spelling of `n` with `k` leading zeros. */
  function Padded(n: int, k: nat): string {
    if n < 0 then "-" + (Zeros(k) + Digits(-n)) else Zeros(k) + Digits(n)
  }

  lemma AtoiPadded(n: int, k: nat)
    requires InRange(n)
    ensures Atoi(Padded(n, k)) == Some(n) && |Padded(n, k)| > k
  {
    var m := if n < 0 then -n else n;
    MagnitudePadded(k, Digits(m));
    DigitsSpell(m);
    SignedDigits(Zeros(k) + Digits(m));
  }

  /** A length no member of a finite set of strings reaches. */
  ghost function LongerThanAll(excluded: set<string>): (k: nat)
    ensures forall s :: s in excluded ==> |s| < k
  {
    if excluded == {} then 0
    else
      var s :| s in excluded;
      var k := LongerThanAll(excluded - {s});
      if |s| < k then k else |s| + 1
  }

  /** No finite set of strings holds every spelling of an integer. */
  lemma FreshSpelling(n: int, excluded: set<string>) returns (s: string)
    requires InRange(n)
    ensures Atoi(s) == Some(n) && s !in excluded
  {
    var k := LongerThanAll(excluded);
    AtoiPadded(n, k);
    s := Padded(n, k);
  }
}
