/** Byte counts in binary units: the divisor and the unit the loop arrives at. */
module ByteUnits {

  const UNIT := 1024
  const MAX_UINT64 := 0xFFFF_FFFF_FFFF_FFFF
  const MAX_INT64 := 0x7FFF_FFFF_FFFF_FFFF

  function Pow(b: nat, e: nat): nat {
    if e == 0 then 1 else b * Pow(b, e - 1)
  }

  lemma {:induction false} PowMono(a: nat, b: nat)
    requires a <= b
    ensures 0 < Pow(UNIT, a) <= Pow(UNIT, b)
  {
    if a < b { PowMono(a, b - 1); } else if a > 0 { PowMono(a - 1, a - 1); }
  }

  lemma {:induction false} Pow7()
    ensures Pow(UNIT, 6) == 0x1000_0000_0000_0000 && Pow(UNIT, 7) > MAX_UINT64
  {
    assert Pow(UNIT, 1) == UNIT && Pow(UNIT, 2) == 0x10_0000 && Pow(UNIT, 3) == 0x4000_0000;
    assert Pow(UNIT, 4) == 0x100_0000_0000 && Pow(UNIT, 5) == 0x4_0000_0000_0000;
  }

  /** A power that does not exceed a 64-bit count is at most the sixth, and so fits a signed 64-bit integer. */
  lemma {:induction false} Fits(e: nat, b: nat)
    requires Pow(UNIT, e) <= b <= MAX_UINT64
    ensures e <= 6 && Pow(UNIT, e) <= MAX_INT64
  {
    Pow7();
    if e >= 7 { PowMono(7, e); } else { PowMono(e, 6); }
  }

  /**
   The unit loop, for every count that reaches it. `div` is a signed 64-bit integer and the assertion in
   the loop is that multiplying it does not overflow; `exp` indexes "KMGTPE".
   */
  method Scale(b: nat) returns (div: nat, exp: nat)
    requires UNIT <= b <= MAX_UINT64
    ensures div == Pow(UNIT, exp + 1) && div <= b < UNIT * div
    ensures exp <= 5 && exp < |"KMGTPE"| && div <= MAX_INT64
  {
    div, exp := UNIT, 0;
    var n := b / UNIT;
    assert n >= 1;
    assert Pow(UNIT, 1) == UNIT * Pow(UNIT, 0);
    while n >= UNIT
      invariant n > 0 && div > 0
      invariant div == Pow(UNIT, exp + 1) && Quotient(b, div, n)
      decreases n
    {
      Divide(b, div, n);
      Fits(exp + 2, b);
      assert div * UNIT <= MAX_INT64;
      div := div * UNIT;
      exp := exp + 1;
      n := n / UNIT;
    }
    Bracket(b, div, n);
    Fits(exp + 1, b);
  }

  /** `n` is `b` divided by `d`, rounded down. */
  predicate Quotient(b: nat, d: nat, n: nat) {
    n * d <= b < (n + 1) * d
  }

  lemma {:induction false} Monotone(a: nat, b: nat, d: nat)
    requires a <= b
    ensures a * d <= b * d
  {
  }

  lemma {:induction false} Assoc(a: nat, d: nat)
    ensures (a * UNIT) * d == a * (d * UNIT)
  {
  }

  lemma {:induction false} Divide(b: nat, d: nat, n: nat)
    requires Quotient(b, d, n) && n >= UNIT
    ensures Quotient(b, d * UNIT, n / UNIT) && d * UNIT <= b && n / UNIT > 0
  {
    var p := n / UNIT;
    Monotone(p * UNIT, n, d);
    Monotone(n + 1, (p + 1) * UNIT, d);
    Assoc(p, d);
    Assoc(p + 1, d);
    Monotone(1, p, d * UNIT);
  }

  lemma {:induction false} Bracket(b: nat, d: nat, n: nat)
    requires Quotient(b, d, n) && 0 < n < UNIT
    ensures d <= b < UNIT * d
  {
    Monotone(1, n, d);
    Monotone(n + 1, UNIT, d);
  }

  /** The bracket pins the unit: no other exponent has it. */
  lemma {:induction false} OneUnit(b: nat, e: nat, f: nat)
    requires Pow(UNIT, e + 1) <= b < Pow(UNIT, e + 2) && Pow(UNIT, f + 1) <= b < Pow(UNIT, f + 2)
    ensures e == f
  {
    if e < f { PowMono(e + 2, f + 1); }
    if f < e { PowMono(f + 2, e + 1); }
  }
}
