/** The DRS random generator: two independent linear congruential generators
    whose outputs are mixed digit by digit with a call counter. All state is
    64-bit unsigned; every wrap-around of the C arithmetic is written out. */
module Drs {
  import opened CTypes

  const LCG1_A: nat := 1103515245
  const LCG1_C: nat := 12345
  const LCG1_M: nat := 0x8000_0000          // 2^31
  const LCG2_A: nat := 1664525
  const LCG2_C: nat := 1013904223
  const LCG2_M: nat := 0x1_0000_0000        // 2^32
  const WARM_UP_STEPS: nat := 10
  const TEN_POW_10: nat := 10_000_000_000
  const MAX_DIGITS: nat := 20

  // ---------------------------------------------------------------------
  // Modular arithmetic helpers

  lemma MulAtLeast(k: int, m: int)
    requires k >= 1 && m >= 0
    ensures k * m >= m
  {
    assert k * m == (k - 1) * m + m;
  }

  lemma ModUnique(x: int, m: int, d: int, r: int)
    requires m > 0 && 0 <= r < m && x == d * m + r
    ensures x % m == r && x / m == d
  {
    var d2, r2 := x / m, x % m;
    assert d * m - d2 * m == (d - d2) * m;
    if d > d2 {
      MulAtLeast(d - d2, m);
    } else if d < d2 {
      MulAtLeast(d2 - d, m);
    }
  }

  lemma ModAddMul(q: int, m: int, b: int)
    requires m > 0
    ensures (q * m + b) % m == b % m
  {
    ModUnique(q * m + b, m, q + b / m, b % m);
  }

  /** Reducing modulo a multiple of m first does not change the residue modulo m. */
  lemma ModOfMod(x: int, m: int, k: int)
    requires m > 0 && k > 0
    ensures (x % (m * k)) % m == x % m
  {
    var q := x / (m * k);
    assert x == (q * k) * m + x % (m * k);
    ModAddMul(q * k, m, x % (m * k));
  }

  /** ((x mod M) * 10 + c) mod M == (x * 10 + c) mod M */
  lemma ModMulTenAdd(x: int, c: int, m: int)
    requires m > 0
    ensures ((x % m) * 10 + c) % m == (x * 10 + c) % m
  {
    var q := x / m;
    assert x * 10 + c == (q * 10) * m + ((x % m) * 10 + c);
    ModAddMul(q * 10, m, (x % m) * 10 + c);
  }

  // ---------------------------------------------------------------------
  // The two generators

  /** `lcg1_next`: the product and the sum wrap at 64 bits before the final
      reduction modulo 2^31; since 2^31 divides 2^64 the wrap is invisible. */
  function Lcg1(s: uint64): (r: uint64)
    ensures r < LCG1_M
    ensures r == (1103515245 * s + 12345) % 0x8000_0000
  {
    var wrapped := ((LCG1_A * s) % TWO_64 + LCG1_C) % TWO_64;
    ModOfMod(LCG1_A * s, LCG1_M, 0x2_0000_0000);
    ModAddMul((LCG1_A * s) / TWO_64, TWO_64, (LCG1_A * s) % TWO_64 + LCG1_C);
    ModOfMod((LCG1_A * s) % TWO_64 + LCG1_C, LCG1_M, 0x2_0000_0000);
    ModOfMod(LCG1_A * s + LCG1_C, LCG1_M, 0x2_0000_0000);
    wrapped % LCG1_M
  }

  /** `lcg2_next`: the reduction modulo 2^32 absorbs the 64-bit wrap as well. */
  function Lcg2(s: uint64): (r: uint64)
    ensures r < LCG2_M
    ensures r == (1664525 * s + 1013904223) % 0x1_0000_0000
  {
    var wrapped := ((LCG2_A * s) % TWO_64 + LCG2_C) % TWO_64;
    ModOfMod((LCG2_A * s) % TWO_64 + LCG2_C, LCG2_M, LCG2_M);
    ModAddMul((LCG2_A * s) / TWO_64, TWO_64, (LCG2_A * s) % TWO_64 + LCG2_C);
    ModOfMod(LCG2_A * s + LCG2_C, LCG2_M, LCG2_M);
    wrapped % LCG2_M
  }

  /** n steps of a generator. */
  function Lcg1Iter(s: uint64, n: nat): uint64 {
    if n == 0 then s else Lcg1(Lcg1Iter(s, n - 1))
  }

  function Lcg2Iter(s: uint64, n: nat): uint64 {
    if n == 0 then s else Lcg2(Lcg2Iter(s, n - 1))
  }

  // ---------------------------------------------------------------------
  // Digit-wise combination

  function Pow10(k: nat): (r: nat)
    ensures r >= 1
  {
    if k == 0 then 1 else 10 * Pow10(k - 1)
  }

  /** The decimal digits of x, least significant first; 0 has none. */
  function DigitsLE(x: nat): (ds: seq<nat>)
    ensures forall i :: 0 <= i < |ds| ==> ds[i] < 10
    ensures x > 0 <==> |ds| > 0
    decreases x
  {
    if x == 0 then [] else [x % 10] + DigitsLE(x / 10)
  }

  function DigitAt(ds: seq<nat>, i: nat): nat {
    if i < |ds| then ds[i] else 0
  }

  /** Output digit i: the i-th least significant digits of both inputs plus the
      last decimal digit of the index, modulo 10. */
  function MixedDigit(da: seq<nat>, db: seq<nat>, index: nat, i: nat): nat {
    (DigitAt(da, i) + DigitAt(db, i) + index % 10) % 10
  }

  /** The number whose decimal digits, most significant first, are mixed digits 0 .. n-1. */
  function CombineUpTo(da: seq<nat>, db: seq<nat>, index: nat, n: nat): nat {
    if n == 0 then 0 else CombineUpTo(da, db, index, n - 1) * 10 + MixedDigit(da, db, index, n - 1)
  }

  /** The number of positions processed: the longer digit count, at least one. */
  function Positions(a: nat, b: nat): nat {
    Max(Max(|DigitsLE(a)|, |DigitsLE(b)|), 1)
  }

  /** Exact (unbounded) value of the combination. */
  function Combine(a: nat, b: nat, index: nat): nat {
    CombineUpTo(DigitsLE(a), DigitsLE(b), index, Positions(a, b))
  }

  /** The value the C function returns: the combination in a 64-bit accumulator. */
  function CombineU64(a: nat, b: nat, index: nat): uint64 {
    Combine(a, b, index) % TWO_64
  }

  lemma {:induction false} CombineBound(da: seq<nat>, db: seq<nat>, index: nat, n: nat)
    ensures CombineUpTo(da, db, index, n) < Pow10(n)
  {
    if n > 0 {
      CombineBound(da, db, index, n - 1);
    }
  }

  lemma DivTenStep(x: nat, d: nat, p: nat)
    requires d < 10 && p > 0
    ensures (x * 10 + d) / (p * 10) == x / p
  {
    ModUnique(x * 10 + d, p * 10, x / p, (x % p) * 10 + d);
  }

  /** Reading the result back: its k-th decimal digit from the right is mixed
      digit n-1-k, so mixed digit 0 is the most significant one. */
  lemma {:induction false} CombineDigits(da: seq<nat>, db: seq<nat>, index: nat, n: nat, i: nat)
    requires i < n
    ensures (CombineUpTo(da, db, index, n) / Pow10(n - 1 - i)) % 10 == MixedDigit(da, db, index, i)
  {
    var prev := CombineUpTo(da, db, index, n - 1);
    var d := MixedDigit(da, db, index, n - 1);
    if i == n - 1 {
      ModAddMul(prev, 10, d);
    } else {
      CombineDigits(da, db, index, n - 1, i);
      DivTenStep(prev, d, Pow10(n - 2 - i));
    }
  }

  lemma {:induction false} DigitsBound(x: nat, k: nat)
    requires x < Pow10(k)
    ensures |DigitsLE(x)| <= k
  {
    if x > 0 {
      DigitsBound(x / 10, k - 1);
    }
  }

  lemma {:induction false} Pow10Monotone(j: nat, k: nat)
    requires j <= k
    ensures Pow10(j) <= Pow10(k)
  {
    if j < k {
      Pow10Monotone(j, k - 1);
    }
  }

  lemma Pow10Values()
    ensures Pow10(10) == TEN_POW_10
    ensures Pow10(20) == 100_000_000_000_000_000_000
  {
  }

  /** A 64-bit value has at most twenty decimal digits, so the digit buffers never fill up. */
  lemma Uint64Digits(x: uint64)
    ensures |DigitsLE(x)| <= MAX_DIGITS
  {
    Pow10Values();
    DigitsBound(x, MAX_DIGITS);
  }

  /** With at most ten digits in each input, the combination stays below 10^10
      and therefore never wraps a 64-bit accumulator. */
  lemma CombineBelowTenPow10(a: nat, b: nat, index: nat)
    requires a < TEN_POW_10 && b < TEN_POW_10
    ensures Combine(a, b, index) < TEN_POW_10
    ensures CombineU64(a, b, index) == Combine(a, b, index)
  {
    Pow10Values();
    DigitsBound(a, 10);
    DigitsBound(b, 10);
    CombineBound(DigitsLE(a), DigitsLE(b), index, Positions(a, b));
    Pow10Monotone(Positions(a, b), 10);
  }

  /** One step of the 64-bit accumulation keeps it equal to the wrapped exact value. */
  lemma CombineStepWrapped(da: seq<nat>, db: seq<nat>, index: nat, i: nat, acc: nat)
    requires acc == CombineUpTo(da, db, index, i) % TWO_64
    ensures (acc * 10 + MixedDigit(da, db, index, i)) % TWO_64 == CombineUpTo(da, db, index, i + 1) % TWO_64
  {
    ModMulTenAdd(CombineUpTo(da, db, index, i), MixedDigit(da, db, index, i), TWO_64);
  }

  /** The digit-splitting loop of `nonlinearly_combine`: at most twenty
      digits of x, least significant first, stored from index 0. */
  method ExtractDigits(x: uint64, digits: array<nat>) returns (count: nat)
    requires digits.Length == MAX_DIGITS
    modifies digits
    ensures count <= MAX_DIGITS && digits[..count] == DigitsLE(x)
  {
    Uint64Digits(x);
    count := 0;
    var temp: nat := x;
    while temp > 0 && count < MAX_DIGITS
      invariant count <= MAX_DIGITS
      invariant digits[..count] + DigitsLE(temp) == DigitsLE(x)
      decreases temp
    {
      ghost var rest := DigitsLE(temp / 10);
      assert DigitsLE(temp) == [temp % 10] + rest;
      digits[count] := temp % 10;
      assert digits[..count + 1] == digits[..count] + [temp % 10];
      assert digits[..count + 1] + rest == digits[..count] + DigitsLE(temp);
      count := count + 1;
      temp := temp / 10;
    }
    assert |DigitsLE(x)| == count + |DigitsLE(temp)|;
  }

  /** The mixing loop of `nonlinearly_combine`: one digit per position, the
      longer digit count (at least one) giving the number of positions. */
  method MixDigits(digitsA: array<nat>, countA: nat, digitsB: array<nat>, countB: nat, index: uint64)
    returns (r: uint64)
    requires countA <= digitsA.Length && countB <= digitsB.Length
    ensures r == CombineUpTo(digitsA[..countA], digitsB[..countB], index, Max(Max(countA, countB), 1)) % TWO_64
  {
    ghost var da, db := digitsA[..countA], digitsB[..countB];
    var result: uint64 := 0;
    var maxCount := if countA > countB then countA else countB;
    if maxCount == 0 {
      maxCount := 1;
    }
    for i := 0 to maxCount
      invariant result == CombineUpTo(da, db, index, i) % TWO_64
    {
      var digitA := if i < countA then digitsA[i] else 0;
      var digitB := if i < countB then digitsB[i] else 0;
      var combined := (digitA + digitB + index % 10) % 10;
      assert combined == MixedDigit(da, db, index, i);
      CombineStepWrapped(da, db, index, i, result);
      result := (result * 10 + combined) % TWO_64;
    }
    r := result;
  }

  /** `nonlinearly_combine`: both inputs are split into digit arrays, then the
      result is accumulated in a 64-bit variable (which wraps). */
  method NonlinearlyCombine(a: uint64, b: uint64, index: uint64) returns (r: uint64)
    ensures r == CombineU64(a, b, index)
  {
    var digitsA := new nat[MAX_DIGITS];
    var digitsB := new nat[MAX_DIGITS];
    var countA := ExtractDigits(a, digitsA);
    var countB := ExtractDigits(b, digitsB);
    r := MixDigits(digitsA, countA, digitsB, countB, index);
  }

  // ---------------------------------------------------------------------
  // The generator object

  /** Outcome of `drs_range`: a value, or the division by zero that the
      modulo performs when the range covers all 2^64 values. */
  datatype RangeResult = InRange(value: uint64) | DivideByZero

  /** The arithmetic of `drs_range` after the random value is drawn, as written:
      reversed bounds are swapped, and the width `max - min + 1` is computed in
      64 bits, so it wraps to 0 exactly when it would be 2^64. */
  function ScaleToRange(v: uint64, min: uint64, max: uint64): (r: RangeResult)
    ensures r.DivideByZero? <==> (Min(min, max) == 0 && Max(min, max) == TWO_64 - 1)
    ensures r.InRange? ==> Min(min, max) <= r.value <= Max(min, max)
    ensures r.InRange? ==> r.value == Min(min, max) + v % (Max(min, max) - Min(min, max) + 1)
  {
    var lo, hi := Min(min, max), Max(min, max);
    var width := hi - lo + 1;
    if width % TWO_64 == 0 then DivideByZero
    else
      assert v % width < width;
      InRange(lo + v % width)
  }

  /** The input that exposes the division by zero: the full 64-bit range. */
  lemma FullRangeDividesByZero(v: uint64)
    ensures ScaleToRange(v, 0, TWO_64 - 1) == DivideByZero
    ensures ScaleToRange(v, TWO_64 - 1, 0) == DivideByZero
  {
  }

  /** The evidently intended behaviour: when the width wraps to zero every
      64-bit value already lies in the range, so the drawn value is returned. */
  function ScaleToRangeFixed(v: uint64, min: uint64, max: uint64): (r: uint64)
    ensures Min(min, max) <= r <= Max(min, max)
    ensures ScaleToRange(v, min, max).InRange? ==> r == ScaleToRange(v, min, max).value
  {
    var lo, hi := Min(min, max), Max(min, max);
    var width := hi - lo + 1;
    if width % TWO_64 == 0 then v
    else
      assert v % width < width;
      lo + v % width
  }

  class DrsGenerator {
    var seed1: uint64
    var seed2: uint64
    var counter: uint64

    /** `lcg1_next(&gen->seed1)`: advances the first seed and returns it. */
    method Lcg1Next() returns (out: uint64)
      modifies this`seed1
      ensures seed1 == Lcg1(old(seed1)) && out == seed1
    {
      seed1 := ((LCG1_A * seed1) % TWO_64 + LCG1_C) % TWO_64 % LCG1_M;
      out := seed1;
    }

    /** `lcg2_next(&gen->seed2)`: advances the second seed and returns it. */
    method Lcg2Next() returns (out: uint64)
      modifies this`seed2
      ensures seed2 == Lcg2(old(seed2)) && out == seed2
    {
      seed2 := ((LCG2_A * seed2) % TWO_64 + LCG2_C) % TWO_64 % LCG2_M;
      out := seed2;
    }

    /** `drs_next`: one step of each seed by its own generator, with no
        cross-feeding, and the counter incremented (wrapping at 2^64). */
    method Next() returns (r: uint64)
      modifies this
      ensures counter == (old(counter) + 1) % TWO_64
      ensures seed1 == Lcg1(old(seed1)) && seed2 == Lcg2(old(seed2))
      ensures r == CombineU64(seed1, seed2, counter) == Combine(seed1, seed2, counter)
      ensures r < TEN_POW_10
    {
      counter := (counter + 1) % TWO_64;
      var out1 := Lcg1Next();
      var out2 := Lcg2Next();
      r := NonlinearlyCombine(out1, out2, counter);
      CombineBelowTenPow10(out1, out2, counter);
    }

    /** `drs_init`: store both seeds, clear the counter, then discard ten outputs. */
    method Init(s1: uint64, s2: uint64)
      modifies this
      ensures counter == WARM_UP_STEPS
      ensures seed1 == Lcg1Iter(s1, WARM_UP_STEPS) && seed2 == Lcg2Iter(s2, WARM_UP_STEPS)
    {
      seed1, seed2, counter := s1, s2, 0;
      for i := 0 to WARM_UP_STEPS
        invariant counter == i
        invariant seed1 == Lcg1Iter(s1, i) && seed2 == Lcg2Iter(s2, i)
      {
        ModUnique(i + 1, TWO_64, 0, i + 1);   // the counter does not wrap during warm-up
        var _ := Next();
      }
    }

    /** `drs_range`: draw one value, then scale it into [min, max]. */
    method Range(min: uint64, max: uint64) returns (r: RangeResult)
      modifies this
      ensures counter == (old(counter) + 1) % TWO_64
      ensures seed1 == Lcg1(old(seed1)) && seed2 == Lcg2(old(seed2))
      ensures r == ScaleToRange(CombineU64(seed1, seed2, counter), min, max)
    {
      var v := Next();
      r := ScaleToRange(v, min, max);
    }
  }

  /** Two generators initialised with the same seeds produce the same first n outputs. */
  method SameSeedsSameSequence(s1: uint64, s2: uint64, n: nat) returns (xs: seq<uint64>, ys: seq<uint64>)
    ensures |xs| == n && xs == ys
    ensures forall i :: 0 <= i < n ==> xs[i] < TEN_POW_10
  {
    var g1 := new DrsGenerator;
    var g2 := new DrsGenerator;
    g1.Init(s1, s2);
    g2.Init(s1, s2);
    xs, ys := [], [];
    for i := 0 to n
      invariant g1.seed1 == g2.seed1 && g1.seed2 == g2.seed2 && g1.counter == g2.counter
      invariant |xs| == i && xs == ys
      invariant forall j :: 0 <= j < i ==> xs[j] < TEN_POW_10
    {
      var x := g1.Next();
      var y := g2.Next();
      xs, ys := xs + [x], ys + [y];
    }
  }
}
