/**
 * The xorshift64 generator used to initialise creature brains from genome
 * seeds. The state is a 64-bit word that is never zero; each draw applies
 * the shifts 13, 7 and 17 and turns the top 24 bits of the new state into a
 * fraction. `f32` results are modelled as reals: the 24-bit fraction is
 * exact in `f32`, the scaling in `gen_range_f32` is not (see README).
 */
module DeterministicRngs {
  /** The state a seed gives: zero (a fixed point of xorshift) is replaced by one. */
  function SeedState(seed: bv64): (s: bv64)
    ensures s != 0
    ensures seed != 0 ==> s == seed
  {
    if seed == 0 then 1 else seed
  }

  /** The three xor-shifts of one step. */
  function ShiftLeft13(x: bv64): bv64 { x ^ (x << 13) }
  function ShiftRight7(x: bv64): bv64 { x ^ (x >> 7) }
  function ShiftLeft17(x: bv64): bv64 { x ^ (x << 17) }

  /** One xorshift64 step with shifts 13, 7, 17. */
  function Xorshift(x: bv64): bv64
  {
    ShiftLeft17(ShiftRight7(ShiftLeft13(x)))
  }

  /** A nonzero state stays nonzero, so the generator never reaches the fixed point zero. */
  lemma XorshiftNonzero(x: bv64)
    requires x != 0
    ensures Xorshift(x) != 0
  {
    assert ShiftLeft13(x) != 0;
    assert ShiftRight7(ShiftLeft13(x)) != 0;
  }

  const TWO_24: int := 0x100_0000

  /** The top 24 bits of a state, as a number. */
  function Top24(s: bv64): (t: int)
    ensures 0 <= t < 0x100_0000
  {
    ((s >> 40) as bv24) as int
  }

  /** The fraction a state yields: its top 24 bits over 2^24. */
  function UnitOf(s: bv64): (f: real)
    ensures 0.0 <= f < 1.0
  {
    Top24(s) as real / TWO_24 as real
  }

  /** The state after `k` draws from state `s`. */
  function StateAfter(s: bv64, k: nat): bv64
  {
    if k == 0 then s else Xorshift(StateAfter(s, k - 1))
  }

  /** The first `k` fractions drawn from state `s`. */
  function Draws(s: bv64, k: nat): (d: seq<real>)
    ensures |d| == k
  {
    if k == 0 then [] else Draws(s, k - 1) + [UnitOf(StateAfter(s, k))]
  }

  /** Every drawn fraction lies in [0, 1). */
  lemma {:induction false} DrawsInUnit(s: bv64, k: nat)
    ensures forall i | 0 <= i < k :: 0.0 <= Draws(s, k)[i] < 1.0
    decreases k
  {
    if k > 0 {
      DrawsInUnit(s, k - 1);
      assert Draws(s, k)[..k - 1] == Draws(s, k - 1);
    }
  }

  /** Seeds 0 and 1 give the same generator; any other two distinct seeds start in distinct states. */
  lemma SeedsShareStateOnlyAtZero(a: bv64, b: bv64)
    ensures SeedState(a) == SeedState(b) <==> a == b || (a == 0 && b == 1) || (a == 1 && b == 0)
  {
  }

  /** `DeterministicRng`: the xorshift state. */
  class DeterministicRng {
    var state: bv64

    ghost predicate Valid()
      reads this
    {
      state != 0
    }

    /** `from_seed`. */
    constructor FromSeed(seed: bv64)
      ensures Valid() && state == SeedState(seed)
    {
      state := if seed == 0 then 1 else seed;
    }

    /** `next_u64`: advance the state and return it. */
    method NextU64() returns (x: bv64)
      requires Valid()
      modifies this
      ensures Valid()
      ensures state == Xorshift(old(state)) && x == state
    {
      x := state;
      x := ShiftLeft13(x);
      x := ShiftRight7(x);
      x := ShiftLeft17(x);
      XorshiftNonzero(old(state));
      state := x;
    }

    /** `gen_f32`: the next fraction in [0, 1). */
    method GenF32() returns (f: real)
      requires Valid()
      modifies this
      ensures Valid()
      ensures state == Xorshift(old(state)) && f == UnitOf(state)
    {
      var x := NextU64();
      var top := Top24(x);
      f := top as real / TWO_24 as real;
    }

    /** `gen_range_f32`: min plus the next fraction of max - min. */
    method GenRangeF32(min: real, max: real) returns (f: real)
      requires Valid()
      modifies this
      ensures Valid()
      ensures state == Xorshift(old(state))
      ensures f == min + Scaled(UnitOf(state), max - min)
      ensures min < max ==> min <= f < max
    {
      var u := GenF32();
      f := min + Scaled(u, max - min);
      InRange(u, min, max);
    }
  }

  /** The share `u` of a width `w`. */
  function Scaled(u: real, w: real): real
  {
    u * w
  }

  lemma ScaledBelow(u: real, w: real)
    requires 0.0 <= u < 1.0 && w > 0.0
    ensures 0.0 <= Scaled(u, w) < w
  {
    assert (1.0 - u) * w > 0.0;
  }

  /** A fraction in [0, 1) of the width of [lo, hi) added to lo stays in [lo, hi). */
  lemma InRange(u: real, lo: real, hi: real)
    requires 0.0 <= u < 1.0
    ensures lo < hi ==> lo <= lo + Scaled(u, hi - lo) < hi
  {
    if lo < hi {
      ScaledBelow(u, hi - lo);
    }
  }

  /** Drawing `k` times from a generator in state `s` yields `Draws(s, k)` and leaves it in `StateAfter(s, k)`. */
  method DrawMany(rng: DeterministicRng, k: nat) returns (d: seq<real>)
    requires rng.Valid()
    modifies rng
    ensures rng.Valid()
    ensures rng.state == StateAfter(old(rng.state), k) && d == Draws(old(rng.state), k)
  {
    d := [];
    var i := 0;
    while i < k
      invariant 0 <= i <= k && rng.Valid()
      invariant rng.state == StateAfter(old(rng.state), i) && d == Draws(old(rng.state), i)
    {
      var f := rng.GenF32();
      d := d + [f];
      i := i + 1;
    }
  }

  /** Two generators built from the same seed draw the same fractions. */
  method SameSeedSameDraws(seed: bv64, k: nat) returns (d1: seq<real>, d2: seq<real>)
    ensures d1 == d2 == Draws(SeedState(seed), k)
  {
    var r1 := new DeterministicRng.FromSeed(seed);
    var r2 := new DeterministicRng.FromSeed(seed);
    d1 := DrawMany(r1, k);
    d2 := DrawMany(r2, k);
  }

  /** Seeds 12345 and 67890 differ already in their first fraction. */
  lemma DifferentSeedsDiffer()
    ensures UnitOf(Xorshift(12345)) != UnitOf(Xorshift(67890))
  {
  }
}
