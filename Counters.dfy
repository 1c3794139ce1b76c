/** The static `int _gameCounter` fields of src/MAZE/GameRepository.cs and
    src/MAZE/GameService.cs: a C# `int` incremented with `++` in an
    unchecked context, and its decimal rendering by `ToString()`. */
module Counters {

  newtype int32 = x: int | -0x8000_0000 <= x < 0x8000_0000

  const MaxValue: int32 := 0x7fff_ffff
  const MinValue: int32 := -0x8000_0000

  /** `counter++`: one more, except that the largest value wraps around to
      the smallest. */
  function Increment(x: int32): (r: int32)
    ensures (r as int - x as int - 1) % 0x1_0000_0000 == 0
  {
    if x == MaxValue then MinValue else x + 1
  }

  /** The value a counter that starts at zero holds after `k` increments,
      which is also the value the `k`-th call (counting from zero) hands out. */
  function Issued(k: nat): int32 {
    if k == 0 then 0 else Increment(Issued(k - 1))
  }

  /** Until the counter wraps, call `k` hands out `k`. */
  lemma {:induction false} IssuedInOrder(k: nat)
    requires k <= MaxValue as int
    ensures Issued(k) as int == k
  {
    if k > 0 {
      IssuedInOrder(k - 1);
    }
  }

  /** After 2^31 calls the counter has wrapped to `int.MinValue`. */
  lemma IssuedWraps()
    ensures Issued(MaxValue as nat + 1) == MinValue
  {
    IssuedInOrder(MaxValue as nat);
  }

  function Digit(d: int): char
    requires 0 <= d < 10
  {
    "0123456789"[d]
  }

  function DigitValue(c: char): (d: nat)
    ensures forall e :: 0 <= e < 10 && c == Digit(e) ==> d == e
  {
    if '0' <= c <= '9' then c as int - '0' as int else 0
  }

  /** The digits of `n`, most significant first, without leading zeros. */
  function NatString(n: nat): (s: string)
    ensures |s| >= 1
    ensures forall i :: 0 <= i < |s| ==> '0' <= s[i] <= '9'
    ensures |s| > 1 ==> s[0] != '0'
  {
    if n < 10 then [Digit(n)] else NatString(n / 10) + [Digit(n % 10)]
  }

  /** `int.ToString()` with the invariant culture: a minus sign, then the
      digits of the magnitude. */
  function DecimalString(n: int): (s: string)
    ensures |s| >= 1
    ensures n < 0 <==> s[0] == '-'
  {
    if n < 0 then "-" + NatString(-n) else NatString(n)
  }

  /** Reads the digits back, most significant first. */
  function ParseNat(s: string): nat {
    if s == [] then 0 else ParseNat(s[..|s| - 1]) * 10 + DigitValue(s[|s| - 1])
  }

  lemma {:induction false} ParseNatString(n: nat)
    ensures ParseNat(NatString(n)) == n
  {
    if n >= 10 {
      var s := NatString(n);
      assert s[..|s| - 1] == NatString(n / 10);
      ParseNatString(n / 10);
    }
  }

  function ParseDecimal(s: string): int {
    if s != [] && s[0] == '-' then -(ParseNat(s[1..]) as int) else ParseNat(s)
  }

  /** `ToString` loses nothing: the number can be read back from it. */
  lemma ParseDecimalString(n: int)
    ensures ParseDecimal(DecimalString(n)) == n
  {
    if n < 0 {
      ParseNatString(-n);
      ParseSigned(NatString(-n));
    } else {
      ParseNatString(n);
      assert NatString(n)[0] != '-';
    }
  }

  /** A leading minus sign negates the digits after it. */
  lemma ParseSigned(t: string)
    ensures ParseDecimal("-" + t) == -(ParseNat(t) as int)
  {
    assert ("-" + t)[1..] == t;
  }

  /** Different numbers are rendered differently. */
  lemma DecimalStringInjective(a: int, b: int)
    requires DecimalString(a) == DecimalString(b)
    ensures a == b
  {
    ParseDecimalString(a);
    ParseDecimalString(b);
  }

  /** Until the counter wraps, the ids handed out as strings are pairwise
      distinct and read back as the call number. */
  lemma IssuedIdsAreDistinct(j: nat, k: nat)
    requires j < k <= MaxValue as int
    ensures DecimalString(Issued(j) as int) != DecimalString(Issued(k) as int)
    ensures ParseDecimal(DecimalString(Issued(k) as int)) == k
  {
    IssuedInOrder(j);
    IssuedInOrder(k);
    ParseDecimalString(k);
    if DecimalString(Issued(j) as int) == DecimalString(Issued(k) as int) {
      DecimalStringInjective(j, k);
    }
  }
}
