/** `ceil_to_power_of_two` of src/utils.cpp, and the index mask that the block queue builds from it. */
module PowerOfTwo {
  import Modular

  predicate IsPower(r: bv32) {
    r != 0 && r & (r - 1) == 0
  }

  function Smear(v: bv32, bits: bv6): bv32
    requires bits <= 32
  {
    v | (v >> bits)
  }

  /** Rounds up to a power of two, in 32 bits.  Zero and anything above 2^31 wrap to zero. */
  method CeilToPowerOfTwo(val: bv32) returns (r: bv32)
    ensures 1 <= val <= 0x8000_0000 ==> IsPower(r) && val <= r && r >> 1 < val
    ensures val == 0 || val > 0x8000_0000 ==> r == 0
  {
    var v := val - 1;
    v := Smear(v, 1);
    v := Smear(v, 2);
    v := Smear(v, 4);
    var i: bv6 := 1;
    ghost var four := v;
    while i < 4
      invariant i == 1 || i == 2 || i == 4
      invariant v == if i == 1 then four else if i == 2 then Smear(four, 8) else Smear(Smear(four, 8), 16)
      decreases 4 - i
    {
      v := Smear(v, i << 3);
      i := i << 1;
    }
    Smeared(val - 1);
    r := v + 1;
  }

  /** Smearing the leading one downwards leaves only ones below it. */
  lemma Smeared(x: bv32)
    ensures var v := Smear(Smear(Smear(Smear(Smear(x, 1), 2), 4), 8), 16);
      v & (v + 1) == 0 && x <= v && (x != 0 ==> v >> 1 < x) && (x == 0 ==> v == 0)
  {}

  /** The number whose binary digits these are. */
  function Value(x: bv32): nat
    decreases x
  {
    if x == 0 then 0 else 2 * Value(x >> 1) + (if x & 1 == 1 then 1 else 0)
  }

  function Succ(x: bv32): bv32 { x + 1 }

  function Half(x: bv32): bv32 { x >> 1 }

  function Low(x: bv32): nat { if x & 1 == 1 then 1 else 0 }

  /** `x & mask` where the mask is the size less one. */
  function Masked(x: bv32, size: bv32): bv32 { x & (size - 1) }

  lemma Digits(x: bv32)
    ensures Value(x) == 2 * Value(Half(x)) + Low(x) && Low(x) <= 1
    ensures Value(x) / 2 == Value(Half(x)) && Value(x) % 2 == Low(x)
  {
    assert x == 0 ==> x >> 1 == 0;
  }

  lemma PowerIsPositive(m: bv32)
    requires IsPower(m)
    ensures Value(m) > 0
    decreases m
  {
    if m != 1 { PowerIsPositive(m >> 1); }
  }

  /** Masking with a power of two less one is the remainder by that power. */
  lemma {:induction false} MaskIsRemainder(x: bv32, m: bv32)
    requires IsPower(m)
    ensures Value(m) > 0 && Value(Masked(x, m)) == Value(x) % Value(m)
    decreases Value(m)
  {
    PowerIsPositive(m);
    if m == 1 {
      MaskOne(x);
    } else {
      MaskHalves(x, m);
      PowerIsPositive(Half(m));
      hide Value, Half, Low, Masked, IsPower;
      Digits(x);
      Digits(Masked(x, m));
      Digits(m);
      MaskIsRemainder(Half(x), Half(m));
      Halve(Value(x), Value(Half(m)));
    }
  }

  lemma MaskOne(x: bv32)
    ensures Value(1) == 1 && Value(Masked(x, 1)) == 0
  {
    assert Value(0) == 0;
    assert x & 0 == 0;
  }

  lemma MaskHalves(x: bv32, m: bv32)
    requires IsPower(m) && m != 1
    ensures Half(Masked(x, m)) == Masked(Half(x), Half(m)) && Low(Masked(x, m)) == Low(x)
    ensures Low(m) == 0 && IsPower(Half(m))
  {}

  lemma Carry(x: bv32)
    ensures Low(x) == 0 ==> Half(Succ(x)) == Half(x) && Low(Succ(x)) == 1
    ensures Low(x) == 1 ==> Low(Succ(x)) == 0
  {}

  lemma OddCarry(x: bv32)
    requires Low(x) == 1 && Succ(x) != 0
    ensures Half(Succ(x)) == Succ(Half(x)) && Succ(Half(x)) != 0
  {}

  lemma {:induction false} Increment(x: bv32)
    requires Succ(x) != 0
    ensures Value(Succ(x)) == Value(x) + 1
    decreases Value(x)
  {
    Digits(x);
    Digits(Succ(x));
    Carry(x);
    hide Value, Half, Succ, Low;
    if Low(x) == 1 {
      OddCarry(x);
      Increment(Half(x));
    }
  }

  /** The step of an index in a block whose size is a power of two: what the queue computes with the mask is what
      O2oQueue computes with the remainder. */
  lemma NextIndex(i: bv32, size: bv32)
    requires IsPower(size) && i < size
    ensures Value(size) > 0 && Value(Masked(Succ(i), size)) == (Value(i) + 1) % Value(size)
  {
    NoWrap(i, size);
    hide Value, IsPower, Succ, Masked;
    MaskIsRemainder(Succ(i), size);
    Increment(i);
  }

  lemma NoWrap(i: bv32, size: bv32)
    requires i < size
    ensures Succ(i) != 0
  {}

  lemma Halve(x: nat, m: nat)
    requires m > 0
    ensures x % (2 * m) == 2 * ((x / 2) % m) + x % 2
  {
    var q, r := (x / 2) / m, (x / 2) % m;
    assert x == (2 * m) * q + (2 * r + x % 2) by { assert 2 * (m * q) == (2 * m) * q; }
    Modular.DivMod(x, 2 * m, q, 2 * r + x % 2);
  }
}
