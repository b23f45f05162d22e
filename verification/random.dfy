/** The generator behind the retry and polling delays: a multiplicative step modulo a prime, done with
    a shift, a mask and one subtraction. */
module RandomNumbers {
  const M: nat := 2147483647
  const A: nat := 16807

  /** A times this is one more than a multiple of M. */
  const A_INVERSE: nat := 1407677000

  const TWO_TO_THE_31: nat := 0x8000_0000
  const TWO_TO_THE_32: nat := 0x1_0000_0000
  const TWO_TO_THE_64: nat := 0x1_0000_0000_0000_0000

  predicate Seed(s: nat) {
    1 <= s < M
  }

  function Reduce(product: nat): nat {
    var s := (product / TWO_TO_THE_31 + product % TWO_TO_THE_31) % TWO_TO_THE_32;
    if s > M then s - M else s
  }

  /** The step as the machine does it: products are cut to 64 bits and results to 32. */
  function Step(seed: nat): nat {
    Reduce(seed * A % TWO_TO_THE_64)
  }

  class Random {
    var seed: nat

    constructor (s: nat)
      requires s < TWO_TO_THE_32
      ensures Seed(seed)
      ensures seed == if Seed(s % TWO_TO_THE_31) then s % TWO_TO_THE_31 else 1
    {
      var masked := s % TWO_TO_THE_31;
      seed := if masked == 0 || masked == 2147483647 then 1 else masked;
    }

    /** The next number is A times the last one modulo M, and never 0. */
    method Next() returns (r: nat)
      requires Seed(seed)
      modifies this
      ensures r == seed == A * old(seed) % M && Seed(seed)
    {
      StepIsModular(seed);
      assert seed * A % TWO_TO_THE_64 == seed * A;
      var product := seed * A % TWO_TO_THE_64;
      seed := (product / TWO_TO_THE_31 + product % TWO_TO_THE_31) % TWO_TO_THE_32;
      if seed > M {
        seed := seed - M;
      }
      r := seed;
    }
  }

  lemma Remainder(x: int, q: int, r: int)
    requires x == q * M + r && 0 <= r < M
    ensures x % M == r
  {
  }

  /** Multiplying by the inverse of A undoes multiplying by A. */
  lemma Undo(s: nat)
    requires s < M
    ensures A_INVERSE * (A * s % M) % M == s
  {
    var q, r := A * s / M, A * s % M;
    assert A * s == q * M + r;
    assert A_INVERSE * A == 11017 * M + 1;
    Remainder(A_INVERSE * r, 11017 * s - A_INVERSE * q, s);
  }

  /** A shift, a mask and a subtraction reduce modulo M, unless the remainder is 0; nothing overflows. */
  lemma ReduceIsModular(product: nat)
    requires product < A * TWO_TO_THE_31 && product % M != 0
    ensures Reduce(product) == product % M
    ensures product / TWO_TO_THE_31 + product % TWO_TO_THE_31 < TWO_TO_THE_32
  {
    var hi, lo := product / TWO_TO_THE_31, product % TWO_TO_THE_31;
    assert product == hi * M + (hi + lo);
    if hi + lo < M {
      Remainder(product, hi, hi + lo);
    } else {
      Remainder(product, hi + 1, hi + lo - M);
    }
  }

  lemma NeverZero(s: nat)
    requires Seed(s)
    ensures A * s % M != 0
  {
    Undo(s);
  }

  /** The result is the modular product, and it is a seed again. */
  lemma StepIsModular(s: nat)
    requires Seed(s)
    ensures s * A < A * TWO_TO_THE_31 < TWO_TO_THE_64
    ensures Step(s) == A * s % M && Seed(Step(s))
  {
    var product := s * A;
    assert product % TWO_TO_THE_64 == product;
    NeverZero(s);
    ReduceIsModular(product);
  }

  /** No two seeds step to the same number: the generator runs through a cycle. */
  lemma StepIsInjective(s: nat, t: nat)
    requires Seed(s) && Seed(t) && Step(s) == Step(t)
    ensures s == t
  {
    StepIsModular(s);
    StepIsModular(t);
    Undo(s);
    Undo(t);
  }

  function Power(n: nat): nat {
    if n == 0 then 1 else A * Power(n - 1)
  }

  function Steps(s: nat, n: nat): nat {
    if n == 0 then s else Step(Steps(s, n - 1))
  }

  lemma MultiplyReduced(x: nat)
    ensures A * (x % M) % M == A * x % M
  {
    var q, r := x / M, x % M;
    Remainder(A * x, A * q + A * r / M, A * r % M);
  }

  lemma Regroup(p: nat, s: nat)
    ensures A * p * s == A * (p * s)
  {
  }

  /** After any number of steps the seed is still one, and it is the power of A it should be. */
  lemma {:induction false} StepsArePowers(s: nat, n: nat)
    requires Seed(s)
    ensures Seed(Steps(s, n)) && Steps(s, n) == Power(n) * s % M
    decreases n
  {
    if n > 0 {
      StepsArePowers(s, n - 1);
      StepIsModular(Steps(s, n - 1));
      MultiplyReduced(Power(n - 1) * s);
      Regroup(Power(n - 1), s);
    }
  }
}
