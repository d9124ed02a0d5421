/** The linear congruential generator of the velocities: a step by Schrage's division,
    in 32-bit arithmetic. */
module Random {

  const IA := 16807
  const IM := 2147483647
  const IQ := 127773
  const IR := 2836
  const AM := 1.0 / IM as real

  /** A value of C's type int. */
  predicate Fits(n: int) { -0x8000_0000 <= n < 0x8000_0000 }

  /** Division of C's int: rounds toward zero. */
  function Quotient(n: int): int { if n >= 0 then n / IQ else -((-n) / IQ) }

  /** One state after another: multiplication modulo the prime IM. */
  function Next(seed: int): int { (IA * seed) % IM }

  /** ans: the state scaled into 0 .. 1. */
  function Scaled(state: int): real { AM * state as real }

  lemma ScaledApart(a: int, b: int)
    requires a != b
    ensures Scaled(a) != Scaled(b)
  {
    assert Scaled(a) * IM as real == a as real;
    assert Scaled(b) * IM as real == b as real;
  }

  /** n steps. */
  function After(n: nat, seed: int): int { if n == 0 then seed else After(n - 1, Next(seed)) }

  /** Schrage's identity, for every int: IM is IA * IQ + IR. */
  lemma Schrage(n: int)
    requires Fits(n)
    ensures var k := Quotient(n);
            var s := IA * (n - k * IQ) - IR * k;
            && Fits(k * IQ) && Fits(n - k * IQ) && Fits(IA * (n - k * IQ)) && Fits(IR * k) && Fits(s) && (s < 0 ==> Fits(s + IM))
            && Next(n) == if s < 0 then s + IM else s
  {
    var k := Quotient(n);
    var r := n - k * IQ;
    var s := IA * r - IR * k;
    assert IA * n == s + k * IM;
    assert -IQ < r < IQ && -16807 <= k <= 16807;
    assert -IM < s < IM;
    if s < 0 { ModUnique(IA * n, k - 1, s + IM); } else { ModUnique(IA * n, k, s); }
  }

  lemma ModUnique(x: int, q: int, r: int)
    requires x == q * IM + r && 0 <= r < IM
    ensures x % IM == r
  {
    var d := x / IM - q;
    assert x % IM == r - d * IM;
  }

  /** random(&seed): every intermediate value is an int, and the new state is the old one
      times IA modulo IM. */
  method Draw(idum: int) returns (next: int, ans: real)
    requires Fits(idum)
    ensures next == Next(idum) == (16807 * idum) % 2147483647 && Fits(next)
    ensures ans == Scaled(next) && 0.0 <= ans < 1.0 && ans * 2147483647.0 == next as real
  {
    var k: int := Quotient(idum);
    Schrage(idum);
    next := IA * (idum - k * IQ) - IR * k;
    if next < 0 { next := next + IM; }
    ans := AM * next as real;
    assert ans * IM as real == next as real;
  }

  /** 16807 to the n-th. */
  function Power(n: nat): int { if n == 0 then 1 else 16807 * Power(n - 1) }

  lemma {:induction false} PowerLast(n: nat)
    ensures Power(n + 1) == Power(n) * 16807
  {
    if n > 0 { PowerLast(n - 1); }
  }

  /** n steps in one. */
  lemma {:induction false} AfterPower(n: nat, seed: int)
    ensures After(n, seed) % 2147483647 == (Power(n) * seed) % 2147483647
    ensures n > 0 ==> After(n, seed) == (Power(n) * seed) % 2147483647
    decreases n
  {
    if n > 0 {
      var next := Next(seed);
      AfterPower(n - 1, next);
      var q := (IA * seed) / IM;
      PowerLast(n - 1);
      var b := Power(n - 1);
      PowerTimes(b, seed, q, next);
      SameRemainder(b * next, Power(n) * seed, -b * q);
      if n == 1 { assert Power(0) == 1 && Power(1) == 16807; }
    }
  }

  lemma PowerTimes(b: int, seed: int, q: int, next: int)
    requires IA * seed == q * IM + next
    ensures b * next == (b * 16807) * seed + (-b * q) * IM
  {
    assert b * (IA * seed) == b * (q * IM) + b * next;
    assert b * (IA * seed) == (b * IA) * seed;
    assert b * (q * IM) == (b * q) * IM;
  }

  lemma SameRemainder(x: int, y: int, k: int)
    requires x == y + k * IM
    ensures x % IM == y % IM
  {
    ModUnique(x, y / IM + k, y % IM);
  }

  lemma ScaledIs(state: int)
    ensures Scaled(state) * 2147483647.0 == state as real
  {}

  /** The states 1 to IM - 1 are stepped among themselves, and zero (or IM) is a trap. */
  lemma NextStays(seed: int)
    ensures 0 <= Next(seed) < IM
    ensures Next(seed) == 0 <==> seed % IM == 0
  {
    Undo(seed);
    var k := seed / IM;
    if seed % IM == 0 {
      assert seed == k * IM;
      ModUnique(IA * seed, IA * k, 0);
    }
  }

  /** 1407677000 is the inverse of IA: it takes the step back. */
  const BACK := 1407677000

  lemma Undo(seed: int)
    ensures (BACK * Next(seed)) % IM == seed % IM
  {
    var q, r, k := (IA * seed) / IM, Next(seed), seed / IM;
    assert IA * seed == q * IM + r;
    assert BACK * IA == 11017 * IM + 1;
    assert BACK * r == BACK * (IA * seed) - BACK * (q * IM);
    assert BACK * (IA * seed) == (11017 * IM + 1) * seed;
    assert BACK * r == (11017 * seed - BACK * q + k) * IM + seed % IM;
    ModUnique(BACK * r, 11017 * seed - BACK * q + k, seed % IM);
  }

  lemma Redo(seed: int)
    ensures Next(BACK * seed) == seed % IM
  {
    var k := seed / IM;
    assert IA * (BACK * seed) == (11017 * seed + k) * IM + seed % IM;
    ModUnique(IA * (BACK * seed), 11017 * seed + k, seed % IM);
  }

  /** A permutation of 1 .. IM - 1: into it, onto it, and one to one. */
  lemma Permutation(seed: int)
    requires 0 < seed < IM
    ensures 0 < Next(seed) < IM && (BACK * Next(seed)) % IM == seed
    ensures 0 < (BACK * seed) % IM < IM && Next((BACK * seed) % IM) == seed
  {
    NextStays(seed);
    Undo(seed);
    var b := (BACK * seed) % IM;
    NextMod(BACK * seed);
    Redo(seed);
    assert b == 0 ==> Next(b) == 0;
  }

  /** A step sees its argument modulo IM only. */
  lemma NextMod(seed: int)
    ensures Next(seed % IM) == Next(seed)
  {
    var k, r := seed / IM, seed % IM;
    var q := (IA * r) / IM;
    assert IA * seed == (IA * k + q) * IM + (IA * r) % IM;
    ModUnique(IA * seed, IA * k + q, (IA * r) % IM);
  }

  /** Seeds that differ modulo IM never meet. */
  lemma {:induction false} StaysApart(n: nat, a: int, b: int)
    requires a % IM != b % IM
    ensures After(n, a) % IM != After(n, b) % IM
    decreases n
  {
    if n > 0 {
      Undo(a);
      Undo(b);
      NextStays(a);
      NextStays(b);
      StaysApart(n - 1, Next(a), Next(b));
    }
  }
}
