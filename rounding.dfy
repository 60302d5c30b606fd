/** Cash rounding of forint amounts (src/rounding.rs). Hungarian cash payments
    are settled in multiples of 5 HUF. */
module Rounding {
  import opened Prims

  /** `round_huf`: rounds the magnitude of `n` to the nearest multiple of 5 by
      its last decimal digit and puts the sign back. `n.abs()` overflows on
      `i32::MIN`, so that one value is excluded. */
  function RoundHuf(n: i32): (r: i32)
    requires n != I32_MIN
    ensures r as int % 5 == 0
    ensures -2 <= r as int - n as int <= 2
    ensures n >= 0 ==> r >= 0
    ensures n <= 0 ==> r <= 0
  {
    var a := if n < 0 then -(n as int) else n as int;
    var sign := if n < 0 then -1 else 1;
    var x := a % 10;
    var m :=
      if x == 1 || x == 2 then a - x
      else if x == 3 || x == 4 then a + (5 - x)
      else if x == 6 || x == 7 then a - (x - 5)
      else if x == 8 || x == 9 then a + (10 - x)
      else a;
    assert m % 5 == 0 && -2 <= m - a <= 2 && 0 <= m;
    (sign * m) as i32
  }

  /** Independent reference: the multiple of 5 nearest to `n` (5 is odd, so
      there is never a tie). */
  function NearestMultipleOf5(n: int): (r: int)
    ensures r % 5 == 0
    ensures -2 <= r - n <= 2
  {
    5 * ((n + 2) / 5)
  }

  /** At most one multiple of 5 lies within 2 of any amount. */
  lemma MultipleOf5WithinTwoIsUnique(n: int, p: int, q: int)
    requires p % 5 == 0 && q % 5 == 0
    requires -2 <= p - n <= 2 && -2 <= q - n <= 2
    ensures p == q
  {
    var d := p - q;
    assert d == 5 * (p / 5 - q / 5);
  }

  /** `round_huf` is the rounding to the nearest multiple of 5. */
  lemma RoundHufIsNearest(n: i32)
    requires n != I32_MIN
    ensures RoundHuf(n) as int == NearestMultipleOf5(n as int)
  {
    MultipleOf5WithinTwoIsUnique(n as int, RoundHuf(n) as int, NearestMultipleOf5(n as int));
  }

  /** Any multiple of 5 within 2 of `n` is the one `round_huf` returns. */
  lemma RoundHufUnique(n: i32, m: int)
    requires n != I32_MIN
    requires m % 5 == 0 && -2 <= m - n as int <= 2
    ensures m == RoundHuf(n) as int
  {
    MultipleOf5WithinTwoIsUnique(n as int, m, RoundHuf(n) as int);
  }

  /** The negation of a multiple of 5 is one. */
  lemma NegatedMultipleOf5(m: int)
    requires m % 5 == 0
    ensures (-m) % 5 == 0
  {
    assert m == 5 * (m / 5);
    assert -m == 5 * -(m / 5);
  }

  /** Sign symmetry: a negative amount rounds like its magnitude. */
  lemma RoundHufOdd(n: i32)
    requires n != I32_MIN
    ensures -n != I32_MIN
    ensures RoundHuf(-n) == -RoundHuf(n)
  {
    var r := RoundHuf(n) as int;
    NegatedMultipleOf5(r);
    RoundHufUnique(-n, -r);
  }

  /** Amounts ending in 0 or 5 are already payable in cash and stay unchanged. */
  lemma RoundHufFixesMultiplesOf5(n: i32)
    requires n != I32_MIN
    requires n as int % 5 == 0
    ensures RoundHuf(n) == n
  {
    RoundHufUnique(n, n as int);
  }

  /** Rounding twice is rounding once. */
  lemma RoundHufIdempotent(n: i32)
    requires n != I32_MIN
    ensures RoundHuf(n) != I32_MIN
    ensures RoundHuf(RoundHuf(n)) == RoundHuf(n)
  {
    RoundHufFixesMultiplesOf5(RoundHuf(n));
  }

  /** Small amounts of either sign round to nothing rather than across zero. */
  lemma RoundHufSmallAmountsVanish(n: i32)
    requires -2 <= n <= 2
    ensures RoundHuf(n) == 0
  {
    RoundHufUnique(n, 0);
  }
}
