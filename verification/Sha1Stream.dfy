/** Hashing a message that comes in pieces (src/codec/sha1.cpp): what each call leaves in the context, and the
    digest at the end, in terms of the whole message given so far. Words of the counter are numbers below 2^32. */
module Sha1Stream {
  import opened Sha1Spec
  import opened Sha1Transform
  import Modular

  const TWO_32: nat := 0x1_0000_0000

  /** What is left of m behind its whole blocks. */
  function Tail(m: seq<Byte>): (r: seq<Byte>)
    ensures |r| == |m| % 64
  {
    m[|m| / 64 * 64..]
  }

  lemma TailShift(whole: seq<Byte>, x: seq<Byte>)
    requires |whole| % 64 == 0
    ensures Tail(whole + x) == Tail(x)
  {
    assert |whole + x| / 64 * 64 == |whole| + |x| / 64 * 64;
  }

  lemma AbsorbTail(h: Regs, m: seq<Byte>, d: seq<Byte>)
    ensures Absorb(h, m + d) == Absorb(Absorb(h, m), Tail(m) + d)
    ensures Tail(Tail(m) + d) == Tail(m + d)
  {
    hide Absorb;
    var whole := m[..|m| / 64 * 64];
    assert m == whole + Tail(m) && m + d == whole + (Tail(m) + d);
    TailShift(whole, Tail(m) + d);
    AbsorbConcat(h, whole, Tail(m));
    AbsorbShort(Absorb(h, whole), Tail(m));
    AbsorbConcat(h, whole, Tail(m) + d);
  }

  lemma AbsorbShort(h: Regs, m: seq<Byte>)
    ensures |m| < 64 ==> Absorb(h, m) == h && Tail(m) == m
    ensures |m| == 64 ==> Absorb(h, m) == Compress(h, m)
  {
    if |m| == 64 {
      assert m[..64] == m && m[64..] == [];
    }
  }

  /** The i-th byte of a word, most significant first: (w >> ((3 - i) * 8)) & 255. */
  function Octet(w: Word, i: nat): Byte
    requires i < 4
  {
    if i == 0 then ((w >> 24) & 255) as Byte
    else if i == 1 then ((w >> 16) & 255) as Byte
    else if i == 2 then ((w >> 8) & 255) as Byte
    else (w & 255) as Byte
  }

  /** The two words of the counter after n bytes. */
  function Low(n: nat): nat { 8 * n % TWO_32 }

  function High(n: nat): nat { 8 * n / TWO_32 % TWO_32 }

  function Add32(x: nat, y: nat): nat { (x + y) % TWO_32 }

  /** The carry between the words is seen by the low word getting smaller. */
  lemma CounterAdds(n: nat, len: nat)
    requires len < TWO_32
    ensures var sum := Add32(Low(n), 8 * len % TWO_32);
            && sum == Low(n + len)
            && Add32(Add32(High(n), if sum < Low(n) then 1 else 0), len / 0x2000_0000) == High(n + len)
  {
    var carry := if Low(n) + 8 * len % TWO_32 < TWO_32 then 0 else 1;
    LowAdds(8 * n, 8 * len);
    Split(8 * n, 8 * len);
    Carried(8 * n / TWO_32, len / 0x2000_0000, carry);
    assert 8 * len / TWO_32 == len / 0x2000_0000;
    hide Add32;
    assert 8 * (n + len) == 8 * n + 8 * len;
  }

  lemma LowAdds(x: nat, y: nat)
    ensures var sum := Add32(x % TWO_32, y % TWO_32);
            sum == (x + y) % TWO_32 && (sum < x % TWO_32 <==> x % TWO_32 + y % TWO_32 >= TWO_32)
  {
    Split(x, y);
  }

  lemma Split(x: nat, y: nat)
    ensures var carry := if x % TWO_32 + y % TWO_32 < TWO_32 then 0 else 1;
            && (x + y) % TWO_32 == x % TWO_32 + y % TWO_32 - carry * TWO_32
            && (x + y) / TWO_32 == x / TWO_32 + y / TWO_32 + carry
  {
    var carry := if x % TWO_32 + y % TWO_32 < TWO_32 then 0 else 1;
    Modular.DivMod(x + y, TWO_32, x / TWO_32 + y / TWO_32 + carry, x % TWO_32 + y % TWO_32 - carry * TWO_32);
  }

  lemma LowSix(n: nat)
    ensures Low(n) / 8 % 64 == n % 64
  {
    var q := 8 * n / TWO_32;
    var m := n - 0x2000_0000 * q;
    assert Low(n) == 8 * m;
    Modular.DivMod(8 * m, 8, m, 0);
    Modular.AddMultiple(m, 64, 0x80_0000 * q);
  }

  lemma Carried(x: nat, y: nat, carry: nat)
    ensures Add32(Add32(x % TWO_32, carry), y) == (x + y + carry) % TWO_32
  {
    Modular.AddMultiple(x % TWO_32 + carry, TWO_32, x / TWO_32);
    var z := x + carry;
    Modular.AddMultiple(z % TWO_32 + y, TWO_32, z / TWO_32);
  }

  /** Dropping a multiple of 256 p drops nothing of the byte at p. */
  lemma DropHigh(q: nat, r: nat, p: nat, k: nat)
    requires p > 0
    ensures (p * (256 * k) * q + r) / p % 256 == r / p % 256
  {
    var s, t := r / p, r % p;
    assert p * (256 * k) * q + r == p * (256 * (k * q) + s) + t by {
      Modular.Spread(p, 256, k * q, s);
      assert p * (256 * k) * q == (p * 256) * (k * q);
    }
    Modular.Scale(k, 0, q);
    Modular.DivMod(p * (256 * k) * q + r, p, 256 * (k * q) + s, t);
    Modular.AddMultiple(s, 256, k * q);
  }

  lemma LowByte(x: nat, i: nat)
    requires i < 4
    ensures x % TWO_32 / Pow256(i) % 256 == x / Pow256(i) % 256
  {
    var q, r := x / TWO_32, x % TWO_32;
    Power(i);
    if i == 0 {
      DropHigh(q, r, 1, 0x100_0000);
    } else if i == 1 {
      DropHigh(q, r, 256, 0x1_0000);
    } else if i == 2 {
      DropHigh(q, r, 65536, 256);
    } else {
      DropHigh(q, r, 0x100_0000, 1);
    }
  }

  lemma Power(i: nat)
    ensures i == 1 ==> Pow256(i) == 256
    ensures i == 2 ==> Pow256(i) == 65536
    ensures i == 3 ==> Pow256(i) == 0x100_0000
    ensures Pow256(4 + i) == TWO_32 * Pow256(i)
  {
    assert Pow256(2) == 65536 && Pow256(3) == 0x100_0000 && Pow256(4) == TWO_32;
    if i > 0 { Power(i - 1); }
  }

  lemma HighByte(x: nat, i: nat)
    ensures x / TWO_32 / Pow256(i) == x / Pow256(4 + i)
  {
    Power(i);
    Modular.DivDiv(x, TWO_32, Pow256(i));
  }

  /** The i-th byte of the counter, most significant first. */
  function CounterByte(low: nat, high: nat, i: nat): nat
    requires i < 8
  {
    (if i >= 4 then low else high) / Pow256(3 - i % 4) % 256
  }

  lemma CounterBytes(n: nat, i: nat)
    requires i < 8
    ensures CounterByte(Low(n), High(n), i) == 8 * n / Pow256(7 - i) % 256
  {
    hide Pow256;
    if i >= 4 {
      LowByte(8 * n, 7 - i);
    } else {
      LowByte(8 * n / TWO_32, 3 - i);
      HighByte(8 * n, 3 - i);
    }
  }

  lemma LengthBytes(n: nat, i: nat)
    requires i < 8
    ensures CounterByte(Low(n), High(n), i) < 256 && Length64(8 * n)[i] == CounterByte(Low(n), High(n), i) as Byte
  {
    CounterBytes(n, i);
    assert Length64(8 * n)[i] == (8 * n / Pow256(7 - i) % 256) as Byte;
    hide Length64, CounterByte, Low, High, Pow256;
  }

  lemma OctetIsByte(w: Word, i: nat)
    requires i < 4
    ensures Octet(w, i) == BytesOf(w)[i]
  {
    assert (w >> 24) & 255 == w >> 24 by { hide *; }
  }

  lemma Piece(a: seq<Byte>, b: seq<Byte>, c: seq<Byte>, d: seq<Byte>, e: seq<Byte>, i: nat)
    requires |a| == |b| == |c| == |d| == |e| == 4 && i < 20
    ensures (a + b + c + d + e)[i] == [a, b, c, d, e][i / 4][i % 4]
  {}

  lemma DigestBytes(s: seq<Word>, i: nat)
    requires |s| == 5 && i < 20
    ensures |Digest(RegsOf(s))| == 20 && Digest(RegsOf(s))[i] == Octet(s[i / 4], i % 4)
  {
    OctetIsByte(s[i / 4], i % 4);
    Piece(BytesOf(s[0]), BytesOf(s[1]), BytesOf(s[2]), BytesOf(s[3]), BytesOf(s[4]), i);
    hide Octet, BytesOf;
  }

  method Copy(to: array<Byte>, at: nat, from: seq<Byte>)
    requires at + |from| <= to.Length
    modifies to
    ensures to[at..at + |from|] == from
    ensures to[..at] == old(to[..at]) && to[at + |from|..] == old(to[at + |from|..])
  {
    forall k | 0 <= k < |from| { to[at + k] := from[k]; }
  }

  class Context {
    const state: array<Word>
    const buffer: array<Byte>
    var count0: nat
    var count1: nat
    ghost var message: seq<Byte>

    ghost predicate Valid()
      reads this, state, buffer
    {
      && state.Length == 5 && buffer.Length == 64
      && RegsOf(state[..]) == Absorb(IV, message)
      && buffer[..|message| % 64] == Tail(message)
      && count0 == Low(|message|) && count1 == High(|message|)
    }

    constructor ()
      ensures Valid() && message == [] && fresh(state) && fresh(buffer)
    {
      state, buffer := new Word[5], new Byte[64];
      count0, count1, message := 0, 0, [];
      new;
      AbsorbShort(IV, message);
      hide Absorb, Tail, Compress;
      state[0], state[1], state[2], state[3], state[4] := 0x67452301, 0xEFCDAB89, 0x98BADCFE, 0x10325476, 0xC3D2E1F0;
    }

    /** `sha1_update`. */
    method Update(data: seq<Byte>)
      requires Valid() && |data| < 0x8000_0000
      modifies this, state, buffer
      ensures Valid() && message == old(message) + data
    {
      hide Absorb, Tail, RegsOf, IV, Compress, Low, High;
      var j := Count(|data|);
      Feed(data, j, message);
      message := message + data;
    }

    /** Lines 207-212: counts len more bytes, in bits, and tells how full the buffer is. */
    method Count(len: nat) returns (j: nat)
      requires count0 == Low(|message|) && count1 == High(|message|) && len < 0x8000_0000
      modifies this`count0, this`count1
      ensures count0 == Low(|message| + len) && count1 == High(|message| + len)
      ensures j == |message| % 64
    {
      CounterAdds(|message|, len);
      LowSix(|message|);
      assert Add32(count1, 0) == count1;
      hide Low, High, Add32;
      j := count0;
      count0 := Add32(count0, 8 * len % TWO_32);
      if count0 < j { count1 := Add32(count1, 1); }
      count1 := Add32(count1, len / 0x2000_0000);
      j := j / 8 % 64;
    }

    /** Lines 213-223: whole blocks are hashed, first the one the buffer begins; the rest stays in the buffer. */
    method Feed(data: seq<Byte>, from: nat, ghost before: seq<Byte>)
      requires state.Length == 5 && buffer.Length == 64
      requires from == |before| % 64 && buffer[..from] == Tail(before)
      requires RegsOf(state[..]) == Absorb(IV, before)
      modifies state, buffer
      ensures RegsOf(state[..]) == Absorb(IV, before + data)
      ensures buffer[..|before + data| % 64] == Tail(before + data)
    {
      hide Absorb, Compress, Tail, IV, RegsOf;
      var j, i := from, 0;
      ghost var held := Tail(before);
      ghost var h := RegsOf(state[..]);
      AbsorbTail(IV, before, data);
      if j + |data| > 63 {
        i := 64 - j;
        Copy(buffer, j, data[..i]);
        assert buffer[..] == held + data[..i];
        AbsorbShort(h, buffer[..]);
        Transform(state, buffer[..]);
        while i + 63 < |data|
          invariant i <= |data| && (j + i) % 64 == 0
          invariant RegsOf(state[..]) == Absorb(h, held + data[..i])
        {
          NextBlock(h, held, data, i);
          Transform(state, data[i..i + 64]);
          i := i + 64;
        }
        j := 0;
        Rest(h, held, data, i);
      } else {
        AbsorbShort(h, held + data);
      }
      Copy(buffer, j, data[i..]);
      assert i == 0 ==> buffer[..j + |data|] == held + data;
    }

    /** Lines 252-254: the counter as it stands, most significant byte first. */
    method FinalCount() returns (f: seq<Byte>)
      requires count0 == Low(|message|) && count1 == High(|message|)
      ensures f == Length64(8 * |message|)
    {
      hide Length64, Low, High, CounterByte;
      var bytes := new Byte[8];
      ghost var d := Length64(8 * |message|);
      var i := 0;
      while i < 8
        invariant i <= 8 && forall k :: 0 <= k < i ==> bytes[k] == d[k]
      {
        LengthBytes(|message|, i);
        bytes[i] := CounterByte(count0, count1, i) as Byte;
        i := i + 1;
      }
      f := bytes[..];
    }

    /** Lines 265-268. */
    method WriteDigest(digest: array<Byte>)
      requires state.Length == 5 && digest.Length == 20
      modifies digest
      ensures digest[..] == Digest(RegsOf(state[..]))
    {
      ghost var d := Digest(RegsOf(state[..]));
      DigestBytes(state[..], 0);
      var i := 0;
      while i < 20
        invariant i <= 20 && forall k :: 0 <= k < i ==> digest[k] == d[k]
      {
        DigestBytes(state[..], i);
        hide Octet, Digest;
        digest[i] := Octet(state[i / 4], i % 4);
        i := i + 1;
      }
      assert digest[..] == d;
    }

    /** `sha1_final`: the digest of everything given, and a context with nothing left in it. */
    method Final(digest: array<Byte>)
      requires Valid() && digest.Length == 20 && digest != buffer
      modifies this, state, buffer, digest
      ensures digest[..] == Sha1(old(message))
      ensures state[..] == seq(5, _ => 0) && buffer[..] == seq(64, _ => 0) && count0 == count1 == 0
    {
      hide Absorb, RegsOf, IV, Compress, Low, High, Length64, Digest, Tail;
      ghost var n := |message|;
      ghost var m := message;
      var finalCount := FinalCount();
      Update([0x80]);
      ghost var k := 0;
      while count0 / 8 % 64 * 8 != 448
        invariant Valid() && k <= Fill(n) && message == m + [0x80] + Zeros(k)
        invariant digest != buffer
        decreases Fill(n) - k
      {
        LowSix(|message|);
        assert Zeros(k + 1) == Zeros(k) + [0];
        Update([0]);
        k := k + 1;
      }
      LowSix(|message|);
      FillIsFirst(n, k);
      Update(finalCount);
      WriteDigest(digest);
      forall i | 0 <= i < 5 { state[i] := 0; }
      forall i | 0 <= i < 64 { buffer[i] := 0; }
      count0, count1, message := 0, 0, [];
    }
  }

  lemma FillIsFirst(n: nat, k: nat)
    ensures k < Fill(n) ==> (n + 1 + k) % 64 != 56
    ensures k <= Fill(n) && (n + 1 + k) % 64 == 56 ==> k == Fill(n)
  {}

  /** `sha1`: the message a byte at a time. */
  method Hash(data: seq<Byte>, digest: array<Byte>)
    requires |data| < 0x8000_0000 && digest.Length == 20
    modifies digest
    ensures digest[..] == Sha1(data)
  {
    hide Absorb, RegsOf, IV, Compress, Low, High, Sha1, Tail;
    var ctx := new Context();
    var i := 0;
    while i < |data|
      invariant i <= |data| && ctx.Valid() && ctx.message == data[..i]
      invariant fresh(ctx) && fresh(ctx.state) && fresh(ctx.buffer)
    {
      assert data[..i + 1] == data[..i] + [data[i]];
      ctx.Update([data[i]]);
      i := i + 1;
    }
    assert data[..i] == data;
    ctx.Final(digest);
  }

  lemma NextBlock(h: Regs, held: seq<Byte>, data: seq<Byte>, i: nat)
    requires i + 64 <= |data| && (|held| + i) % 64 == 0
    ensures Absorb(h, held + data[..i + 64]) == Compress(Absorb(h, held + data[..i]), data[i..i + 64])
  {
    assert held + data[..i + 64] == (held + data[..i]) + data[i..i + 64];
    AbsorbConcat(h, held + data[..i], data[i..i + 64]);
    AbsorbShort(Absorb(h, held + data[..i]), data[i..i + 64]);
  }

  lemma Rest(h: Regs, held: seq<Byte>, data: seq<Byte>, i: nat)
    requires i <= |data| < i + 64 && (|held| + i) % 64 == 0
    ensures Absorb(h, held + data) == Absorb(h, held + data[..i])
    ensures Tail(held + data) == data[i..]
  {
    assert held + data == (held + data[..i]) + data[i..];
    AbsorbConcat(h, held + data[..i], data[i..]);
    AbsorbShort(Absorb(h, held + data[..i]), data[i..]);
  }
}
