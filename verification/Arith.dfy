/** Integer division as the contract performs it, and the few nonlinear facts the proofs rest on. */
module Arith {

  const I128_MAX: int := 0x7fff_ffff_ffff_ffff_ffff_ffff_ffff_ffff
  const U64_MAX: int := 0xffff_ffff_ffff_ffff
  const U32_MAX: int := 0xffff_ffff

  /** Division of signed integers rounding toward zero. */
  function TruncDiv(a: int, b: int): int
    requires b != 0
  {
    if b > 0 then
      if a >= 0 then a / b else -((-a) / b)
    else
      if a >= 0 then -(a / -b) else (-a) / (-b)
  }

  /** A cast of a signed integer to 32 unsigned bits: it wraps. */
  function AsU32(x: int): (r: nat) {
    x % 0x1_0000_0000
  }

  function Min(a: int, b: int): int {
    if a <= b then a else b
  }

  function Max(a: int, b: int): int {
    if a >= b then a else b
  }

  lemma MulMono(a: int, b: int, c: int)
    requires a <= b && 0 <= c
    ensures a * c <= b * c
  {
  }

  lemma MulSwap(a: int, b: int, c: int)
    ensures a * b * c == a * c * b
  {
  }

  lemma MulDist(a: int, b: int, c: int)
    ensures (a + b) * c == a * c + b * c
  {
  }

  lemma MulDistLeft(a: int, b: int, c: int)
    ensures a * (b + c) == a * b + a * c
  {
  }

  lemma MulNonNeg(a: nat, b: nat)
    ensures 0 <= a * b
  {
  }

  lemma MulCancel(a: int, b: int, c: int)
    requires 0 < c && a * c <= b * c
    ensures a <= b
  {
  }

  lemma MulCancelStrict(a: int, b: int, c: int)
    requires 0 < c && a * c < b * c
    ensures a < b
  {
  }

  lemma DivBounds(a: int, b: int)
    requires 0 < b
    ensures (a / b) * b <= a < (a / b + 1) * b
  {
  }

  /** The quotient is the only integer between the two multiples. */
  lemma DivUnique(a: int, b: int, q: int)
    requires 0 < b && q * b <= a < (q + 1) * b
    ensures a / b == q
  {
    DivBounds(a, b);
    if q < a / b {
      MulMono(q + 1, a / b, b);
    } else if a / b < q {
      MulMono(a / b + 1, q, b);
    }
  }

  lemma DivMono(a: int, b: int, c: int)
    requires 0 < c && a <= b
    ensures a / c <= b / c
  {
    DivBounds(a, c);
    DivBounds(b, c);
    MulCancelStrict(a / c, b / c + 1, c);
  }

  lemma DivNonNeg(a: int, b: int)
    requires 0 < b && 0 <= a
    ensures 0 <= a / b <= a
  {
    DivBounds(a, b);
    if a / b < 0 {
      MulMono(a / b + 1, 0, b);
    }
    MulMono(1, b, a / b);
  }

  lemma DivLe(a: int, b: int, q: int)
    requires 0 < b && a <= q * b
    ensures a / b <= q
  {
    DivBounds(a, b);
    MulCancel(a / b, q, b);
  }

  lemma DivGe(a: int, b: int, q: int)
    requires 0 < b && q * b <= a
    ensures q <= a / b
  {
    DivBounds(a, b);
    MulCancelStrict(q, a / b + 1, b);
  }

  /** Floors lose less than one unit: the sum of two quotients is at most the quotient of the sum. */
  lemma DivSuperAdd(a: int, b: int, c: int)
    requires 0 < c
    ensures a / c + b / c <= (a + b) / c <= a / c + b / c + 1
  {
    DivBounds(a, c);
    DivBounds(b, c);
    DivBounds(a + b, c);
    var x, y, z := a / c, b / c, (a + b) / c;
    MulDist(x, y, c);
    MulDist(z, 1, c);
    MulCancelStrict(x + y, z + 1, c);
    MulDist(x, 1, c);
    MulDist(y, 1, c);
    MulDist(x + y, 2, c);
    MulCancelStrict(z, x + y + 2, c);
  }

  lemma ShareNonNeg(a: nat, b: nat, c: nat)
    requires 0 < c
    ensures 0 <= a * b / c
  {
    MulNonNeg(a, b);
    DivNonNeg(a * b, c);
  }
}
