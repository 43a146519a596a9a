/**
  The xorshift32 generator `rng(seed, limit)`.

  JavaScript keeps the register as a 32-bit signed integer: `<<` truncates to
  32 bits and `>>` propagates the sign bit. The model keeps the register as a
  `bv32`, where `<<` already truncates, writes the sign-propagating shift out by
  hand (`Sar`), and exposes values through the two's-complement reading
  `ToInt32`.
*/
module Random {
  import opened Wrappers

  const TWO_31: int := 0x8000_0000
  const TWO_32: int := 0x1_0000_0000
  const SIGN_BIT: bv32 := 0x8000_0000

  /** Two's-complement reading of a register: the number JavaScript sees. */
  function ToInt32(x: bv32): (r: int)
    ensures -TWO_31 <= r < TWO_31
    ensures r % TWO_32 == x as int
  {
    if x < 0x8000_0000 then x as int else x as int - TWO_32
  }

  /** A register reads as a negative number exactly when its bit 31 is set. */
  lemma NegativeIffSignBit(x: bv32)
    ensures ToInt32(x) < 0 <==> x & SIGN_BIT != 0
  {
  }

  // ---------------------------------------------------------------------------
  // The sign-propagating right shift
  // ---------------------------------------------------------------------------

  /** JavaScript's `x >> n`: shift right, filling the vacated high bits with copies of bit 31. */
  function Sar(x: bv32, n: bv5): (r: bv32)
  {
    if x & SIGN_BIT == 0 then x >> n else (x >> n) | !(0xFFFF_FFFF >> n)
  }

  /** On a non-negative register `>> 17` agrees with the zero-filling shift. */
  lemma SarOfNonNegative(x: bv32)
    requires x & SIGN_BIT == 0
    ensures Sar(x, 17) == x >> 17
  {
  }

  /** On a negative register `>> 17` sets the 17 vacated bits 15..31. */
  lemma SarOfNegative(x: bv32)
    requires x & SIGN_BIT != 0
    ensures Sar(x, 17) == (x >> 17) | 0xFFFF_8000
  {
  }

  /**
    What `x >> 17` is, bit by bit: bits 17..31 of x move down to bits 0..14,
    and bits 15..31 of the result are copies of the sign bit of x.
  */
  lemma SarSeventeenBits(x: bv32)
    ensures Sar(x, 17) << 17 == x & 0xFFFE_0000
    ensures Sar(x, 17) & 0xFFFF_8000 == if x & SIGN_BIT == 0 then 0 else 0xFFFF_8000
  {
    if x & SIGN_BIT == 0 {
      SarOfNonNegative(x);
    } else {
      SarOfNegative(x);
    }
  }

  /** The zero-filling shift differs from JavaScript's `>>` on every negative register. */
  lemma ZeroFillDiffersOnNegative(x: bv32)
    requires x & SIGN_BIT != 0
    ensures Sar(x, 17) != x >> 17
  {
    SarOfNegative(x);
  }

  /** Complement flips the sign bit. */
  lemma NotFlipsSign(x: bv32)
    ensures (!x & SIGN_BIT == 0) == (x & SIGN_BIT != 0)
  {
  }

  /** For sign bit clear: shifting the complement and filling the top bits is the complement of the shift. */
  lemma NotOfShiftNonNegative(x: bv32)
    requires x & SIGN_BIT == 0
    ensures (!x >> 17) | 0xFFFF_8000 == !(x >> 17)
  {
  }

  /** For sign bit set: shifting the complement is the complement of the sign-filled shift. */
  lemma NotOfShiftNegative(x: bv32)
    requires x & SIGN_BIT != 0
    ensures !x >> 17 == !((x >> 17) | 0xFFFF_8000)
  {
  }

  /** The sign-propagating shift commutes with bitwise complement. */
  lemma SarOfComplement(x: bv32)
    ensures Sar(!x, 17) == !Sar(x, 17)
  {
    NotFlipsSign(x);
    if x & SIGN_BIT == 0 {
      SarOfNonNegative(x);
      SarOfNegative(!x);
      NotOfShiftNonNegative(x);
    } else {
      SarOfNegative(x);
      SarOfNonNegative(!x);
      NotOfShiftNegative(x);
    }
  }

  // ---------------------------------------------------------------------------
  // One step and the sequence of registers
  // ---------------------------------------------------------------------------

  /** `x ^= x << 13` */
  function MixLeft13(x: bv32): (r: bv32) { x ^ (x << 13) }

  /** `x ^= x >> 17`, with JavaScript's sign-propagating `>>` */
  function MixRight17(x: bv32): (r: bv32) { x ^ Sar(x, 17) }

  /** `x ^= x << 5` */
  function MixLeft5(x: bv32): (r: bv32) { x ^ (x << 5) }

  /** One pull's register update. */
  function Step(x: bv32): (r: bv32)
  {
    MixLeft5(MixRight17(MixLeft13(x)))
  }

  /** The register after k pulls: the value the k-th pull yields, for k >= 1. */
  function Nth(seed: bv32, k: nat): (r: bv32)
  {
    if k == 0 then seed else Step(Nth(seed, k - 1))
  }

  /** The first n values the generator yields, in order. */
  function Values(seed: bv32, n: nat): (r: seq<int>)
    ensures |r| == n
    ensures forall i :: 0 <= i < n ==> r[i] == ToInt32(Nth(seed, i + 1))
  {
    if n == 0 then [] else Values(seed, n - 1) + [ToInt32(Nth(seed, n))]
  }

  /** Every pull starts from the register the previous pull left: a+b pulls are b pulls after a pulls. */
  lemma {:induction false} NthAdd(seed: bv32, a: nat, b: nat)
    ensures Nth(seed, a + b) == Nth(Nth(seed, a), b)
  {
    if b > 0 {
      NthAdd(seed, a, b - 1);
    }
  }

  /** Every value the generator yields is a signed 32-bit integer. */
  lemma ValuesInInt32Range(seed: bv32, n: nat)
    ensures forall v :: v in Values(seed, n) ==> -TWO_31 <= v < TWO_31
  {
  }

  /** Seed 0 is a fixed point: every value is 0. */
  lemma {:induction false} ZeroIsFixed(k: nat)
    ensures Nth(0, k) == 0
  {
    if k > 0 {
      ZeroIsFixed(k - 1);
    }
  }

  /**
    After `x ^= x >> 17` the register is non-negative: with the sign-propagating
    shift bit 31 is xor-ed with itself.
  */
  lemma MixRight17ClearsSign(x: bv32)
    ensures MixRight17(x) & SIGN_BIT == 0
  {
  }

  /** `x ^= x >> 17` cannot tell x from its complement. */
  lemma MixRight17OfComplement(x: bv32)
    ensures MixRight17(!x) == MixRight17(x)
  {
    XorSarOfComplement(x);
  }

  /** `x ^ (x >> 17)` written out, for x and its complement (kept apart from the unfolding of MixRight17). */
  lemma XorSarOfComplement(x: bv32)
    ensures !x ^ Sar(!x, 17) == x ^ Sar(x, 17)
  {
    SarOfComplement(x);
    ComplementsCancel(x, Sar(x, 17), Sar(!x, 17));
  }

  /** Complementing both operands of `^` leaves the result unchanged. */
  lemma ComplementsCancel(a: bv32, b: bv32, c: bv32)
    requires c == !b
    ensures !a ^ c == a ^ b
  {
  }

  /** Flipping the bits of COLLISION_MASK in x complements the register after `x ^= x << 13`. */
  lemma MixLeft13OfMask(x: bv32)
    ensures MixLeft13(x ^ COLLISION_MASK) == !MixLeft13(x)
  {
  }

  /** The register value whose first step also leads to 0 (see CollapsingSeed). */
  const COLLISION_MASK: bv32 := 0xFC00_1FFF

  /**
    The step is at least two-to-one: x and x ^ COLLISION_MASK always lead to
    the same register. (That the step then misses half of the 2^32 registers
    follows by counting; it is not proved here.)
  */
  lemma StepCollides(x: bv32)
    ensures x ^ COLLISION_MASK != x
    ensures Step(x ^ COLLISION_MASK) == Step(x)
  {
    MixLeft13OfMask(x);
    MixRight17OfComplement(MixLeft13(x));
  }

  /**
    The non-zero seed COLLISION_MASK (-67100673 as a signed number) yields 0
    on its first pull and 0 forever after, like seed 0.
  */
  lemma CollapsingSeed(k: nat)
    ensures ToInt32(COLLISION_MASK) == -67100673
    ensures k >= 1 ==> Nth(COLLISION_MASK, k) == 0
  {
    if k >= 1 {
      StepCollides(0);
      assert Nth(COLLISION_MASK, 1) == 0;
      NthAdd(COLLISION_MASK, 1, k - 1);
      ZeroIsFixed(k - 1);
    }
  }

  // ---------------------------------------------------------------------------
  // Golden sequences
  // ---------------------------------------------------------------------------

  /** Seed 344 with limit 10 yields this exact list. */
  lemma GoldenSeed344()
    ensures Values(344, 10) == [88811757, 1786880006, -1901549690, -783089686, 1532981021,
                                1629592611, 102726481, -941665653, -1672827444, -141168747]
  {
    assert Nth(344, 1) == 0x054B_28ED;
    assert Nth(344, 2) == 0x6A81_A006;
    assert Nth(344, 3) == 0x8EA8_A786;
    assert Nth(344, 4) == 0xD152_FFEA;
    assert Nth(344, 5) == 0x5B5F_6F1D;
    assert Nth(344, 6) == 0x6121_9C23;
    assert Nth(344, 7) == 0x061F_7B51;
    assert Nth(344, 8) == 0xC7DF_528B;
    assert Nth(344, 9) == 0x9C4A_ADCC;
    assert Nth(344, 10) == 0xF795_EF95;
  }

  /** Seed 158484 starts with these three values. */
  lemma GoldenSeed158484()
    ensures Values(158484, 3) == [-512132828, 98688842, -15169138]
  {
    assert Nth(158484, 1) == 0xE179_7924;
    assert Nth(158484, 2) == 0x05E1_DF4A;
    assert Nth(158484, 3) == 0xFF18_898E;
  }

  /** `x ^= x >> 17` with a zero-filling shift instead of JavaScript's `>>`. */
  function StepZeroFill(x: bv32): (r: bv32)
  {
    var a := MixLeft13(x);
    MixLeft5(a ^ (a >> 17))
  }

  /**
    With a zero-filling shift the fourth value for seed 344 would not be the
    recorded -783089686: the sign-propagating shift matters.
  */
  lemma ZeroFillBreaksGolden()
    ensures Nth(344, 3) == 0x8EA8_A786
    ensures ToInt32(Step(Nth(344, 3))) == -783089686
    ensures ToInt32(StepZeroFill(Nth(344, 3))) != -783089686
  {
    GoldenSeed344();
  }

  // ---------------------------------------------------------------------------
  // The generator object
  // ---------------------------------------------------------------------------

  /**
    A generator returned by `rng(seed, limit)`. `register` is the mutated
    `seed` parameter and `current` the counter of src/random.ts; `paused`
    says that the generator is suspended at its `yield`, `done` that it has
    returned. The ghost fields record the original seed and how many values
    have been yielded, for the specification.
  */
  class Rng {
    var register: bv32
    var current: int
    const limit: int
    var paused: bool
    var done: bool
    ghost const seed: bv32
    ghost var yielded: nat

    /** Whether another pull still yields a value. */
    ghost predicate HasNext()
      reads this
    {
      limit <= 0 || yielded < limit
    }

    ghost predicate Valid()
      reads this
    {
      && register == Nth(seed, yielded)
      && (limit > 0 ==> yielded <= limit)
      && (done ==> limit > 0 && yielded == limit && current == limit && !paused)
      && (!done && !paused ==> yielded == 0 && current == 0)
      && (!done && paused ==> yielded >= 1 && current == if limit > 0 then yielded - 1 else 0)
    }

    /** `rng(seed, limit)`: nothing is computed until the first pull. */
    constructor (seed: bv32 := 0, limit: int := 0)
      ensures Valid()
      ensures this.seed == seed && this.limit == limit && yielded == 0
    {
      register := seed;
      current := 0;
      this.limit := limit;
      paused := false;
      done := false;
      this.seed := seed;
      yielded := 0;
    }

    /**
      One call of the generator's `next()`: resume after the last `yield`
      (count the value when there is a limit, stop once the limit is reached),
      then update the register and yield it. `None` is `{ done: true }`.
    */
    method Next() returns (v: Option<int>)
      requires Valid()
      modifies this
      ensures Valid()
      ensures old(HasNext()) ==> v == Some(ToInt32(Nth(seed, old(yielded) + 1))) && yielded == old(yielded) + 1
      ensures !old(HasNext()) ==> v == None && yielded == old(yielded)
    {
      if done {
        return None;
      }
      if paused {
        if limit > 0 {
          current := current + 1;
        }
        if limit > 0 && current >= limit {
          done, paused := true, false;
          return None;
        }
      }
      register := MixLeft13(register);   // seed ^= seed << 13
      register := MixRight17(register);  // seed ^= seed >> 17
      register := MixLeft5(register);    // seed ^= seed << 5
      yielded := yielded + 1;
      paused := true;
      v := Some(ToInt32(register));
    }
  }

  /**
    `[...rng(seed, limit)]` for a positive limit: pull until the generator
    finishes. Exactly `limit` values arrive, and they are the first `limit`
    values of the sequence.
  */
  method Collect(seed: bv32, limit: int) returns (vs: seq<int>)
    requires limit > 0
    ensures vs == Values(seed, limit)
  {
    var g := new Rng(seed, limit);
    vs := [];
    var v := g.Next();
    while v.Some?
      invariant g.Valid() && g.seed == seed && g.limit == limit
      invariant v.Some? ==> g.yielded == |vs| + 1 && v.value == ToInt32(Nth(seed, g.yielded))
      invariant v.None? ==> g.yielded == |vs| == limit
      invariant forall i :: 0 <= i < |vs| ==> vs[i] == ToInt32(Nth(seed, i + 1))
      decreases limit - |vs|
    {
      vs := vs + [v.value];
      v := g.Next();
    }
    assert |Values(seed, limit)| == |vs|;
  }

  /**
    Call `next()` n times on a fresh `rng(seed, limit)`. Pull i (from 0)
    yields the (i+1)-th register while the limit allows it and `done`
    afterwards; with a limit of 0 or less every pull yields.
  */
  method Pull(seed: bv32, limit: int, n: nat) returns (vs: seq<Option<int>>)
    ensures |vs| == n
    ensures forall i :: 0 <= i < n ==>
      vs[i] == if limit <= 0 || i < limit then Some(ToInt32(Nth(seed, i + 1))) else None
  {
    var g := new Rng(seed, limit);
    vs := [];
    while |vs| < n
      invariant g.Valid() && g.seed == seed && g.limit == limit
      invariant |vs| <= n
      invariant g.yielded == if limit <= 0 || |vs| < limit then |vs| else limit
      invariant forall i :: 0 <= i < |vs| ==>
        vs[i] == if limit <= 0 || i < limit then Some(ToInt32(Nth(seed, i + 1))) else None
    {
      var v := g.Next();
      vs := vs + [v];
    }
  }

  /**
    Two generators with the same seed are independent: pulling twice from
    the first leaves the second at its start, and both yield the same first
    value.
  */
  method Independence(seed: bv32, limit: int) returns (first1: Option<int>, second1: Option<int>, first2: Option<int>)
    ensures first1 == first2 == Some(ToInt32(Step(seed)))
    ensures second1 == if limit == 1 then None else Some(ToInt32(Step(Step(seed))))
  {
    var g1 := new Rng(seed, limit);
    var g2 := new Rng(seed, limit);
    first1 := g1.Next();
    second1 := g1.Next();
    first2 := g2.Next();
  }

  /** `[...rng(344, 10)]` reproduces the recorded list. */
  method CollectSeed344() returns (vs: seq<int>)
    ensures vs == [88811757, 1786880006, -1901549690, -783089686, 1532981021,
                   1629592611, 102726481, -941665653, -1672827444, -141168747]
  {
    vs := Collect(344, 10);
    GoldenSeed344();
  }

  /** `rng()` uses seed 0 and no limit, so every one of any number n of pulls yields 0. */
  method DefaultGenerator(n: nat) returns (vs: seq<Option<int>>)
    ensures |vs| == n
    ensures forall i :: 0 <= i < n ==> vs[i] == Some(0)
  {
    var g := new Rng();
    vs := [];
    while |vs| < n
      invariant g.Valid() && g.seed == 0 && g.limit == 0
      invariant g.yielded == |vs| <= n
      invariant forall i :: 0 <= i < |vs| ==> vs[i] == Some(0)
    {
      ZeroIsFixed(|vs| + 1);
      var v := g.Next();
      vs := vs + [v];
    }
  }
}
