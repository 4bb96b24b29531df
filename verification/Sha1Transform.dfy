/** The compression of one block (src/codec/sha1.cpp): rounds that rename the registers instead of moving them,
    and a message schedule of sixteen words, each overwritten by the word that comes sixteen rounds after it. */
module Sha1Transform {
  import opened Sha1Spec

  function LittleEndian(b0: Byte, b1: Byte, b2: Byte, b3: Byte): Word { BigEndian(b3, b2, b1, b0) }

  /** What a little-endian machine finds in the k-th word of the copied block. */
  function Raw(block: seq<Byte>, k: nat): Word
    requires |block| == 64 && k < 16
  {
    LittleEndian(block[4 * k], block[4 * k + 1], block[4 * k + 2], block[4 * k + 3])
  }

  /** The words as the t-th round finds them: the last sixteen words of the schedule made so far, each at its
      number modulo 16, and below round 16 the words not reached yet, still in the machine's byte order. */
  ghost predicate Window(l: seq<Word>, block: seq<Byte>, t: nat)
    requires |block| == 64
  {
    && |l| == 16
    && (forall k :: 0 <= k < t && t <= k + 16 ==> l[k % 16] == W(block, k))
    && (forall k :: t <= k < 16 ==> l[k] == Raw(block, k))
  }

  function RegsOf(s: seq<Word>): Regs
    requires |s| == 5
  {
    Regs(s[0], s[1], s[2], s[3], s[4])
  }

  lemma SwapIsBigEndian(b0: Byte, b1: Byte, b2: Byte, b3: Byte)
    ensures var x := LittleEndian(b0, b1, b2, b3);
            (Rotl(x, 24) & 0xFF00FF00) | (Rotl(x, 8) & 0x00FF00FF) == BigEndian(b0, b1, b2, b3)
  {}

  /** The macros' own forms of two of the round functions. */
  function Choose(w: Word, x: Word, y: Word): Word { (w & (x ^ y)) ^ y }

  function Vote(w: Word, x: Word, y: Word): Word { ((w | x) & y) | (w & x) }

  lemma ChooseIsCh(w: Word, x: Word, y: Word)
    ensures Choose(w, x, y) == Ch(w, x, y)
  {
    assert (w & (x ^ y)) ^ y == (w & x) ^ (!w & y) by { hide *; }
  }

  lemma VoteIsMaj(w: Word, x: Word, y: Word)
    ensures Vote(w, x, y) == Maj(w, x, y)
  {
    assert ((w | x) & y) | (w & x) == (w & x) ^ (w & y) ^ (x & y) by { hide *; }
  }

  /** z += f + blk + constant + rol(v, 5). */
  function Added(z: Word, f: Word, s: Word, k: Word, r: Word): Word { z + (f + s + k + r) }

  lemma AddedIsSum(z: Word, f: Word, s: Word, k: Word, r: Word)
    ensures Added(z, f, s, k, r) == Sum(r, f, z, k, s)
  {
    assert r + f + z + k + s == z + (f + s + k + r) by { hide *; }
  }

  /** Byte swap in place (lines 26-28). */
  method Blk0(l: array<Word>, i: nat, ghost block: seq<Byte>) returns (s: Word)
    requires |block| == 64 && i < 16 && Window(l[..], block, i)
    modifies l
    ensures s == W(block, i) && Window(l[..], block, i + 1)
  {
    ghost var was := l[..];
    SwapIsBigEndian(block[4 * i], block[4 * i + 1], block[4 * i + 2], block[4 * i + 3]);
    l[i] := (Rotl(l[i], 24) & 0xFF00FF00) | (Rotl(l[i], 8) & 0x00FF00FF);
    s := l[i];
    Wrote(was, block, i, s);
    assert l[..] == was[i % 16 := s];
  }

  /** The next word of the schedule over the oldest one (lines 35-39). */
  method Blk(l: array<Word>, i: nat, ghost block: seq<Byte>) returns (s: Word)
    requires |block| == 64 && 16 <= i && Window(l[..], block, i)
    modifies l
    ensures s == W(block, i) && Window(l[..], block, i + 1)
  {
    ghost var was := l[..];
    Taps(was, block, i);
    l[i % 16] := Rotl(l[(i + 13) % 16] ^ l[(i + 8) % 16] ^ l[(i + 2) % 16] ^ l[i % 16], 1);
    s := l[i % 16];
    Wrote(was, block, i, s);
    assert l[..] == was[i % 16 := s];
  }

  /** The four words a later word is made of are all still there. */
  lemma Taps(l: seq<Word>, block: seq<Byte>, t: nat)
    requires |block| == 64 && 16 <= t && Window(l, block, t)
    ensures l[(t + 13) % 16] == W(block, t - 3) && l[(t + 8) % 16] == W(block, t - 8)
    ensures l[(t + 2) % 16] == W(block, t - 14) && l[t % 16] == W(block, t - 16)
  {
    assert (t - 3) % 16 == (t + 13) % 16 && (t - 8) % 16 == (t + 8) % 16;
    assert (t - 14) % 16 == (t + 2) % 16 && (t - 16) % 16 == t % 16;
  }

  lemma Wrote(l: seq<Word>, block: seq<Byte>, t: nat, s: Word)
    requires |block| == 64 && Window(l, block, t) && s == W(block, t)
    ensures Window(l[t % 16 := s], block, t + 1)
  {
    hide W;
    var m := l[t % 16 := s];
    forall k | 0 <= k < t + 1 && t + 1 <= k + 16 ensures m[k % 16] == W(block, k) {
      if k < t { assert k % 16 != t % 16; }
    }
  }

  /** What the macros R0 to R4 add up (lines 42-58); a round's number decides which of them it is. */
  function Turn(i: nat, v: Word, w: Word, x: Word, y: Word, z: Word, s: Word): Word {
    if i < 20 then Added(z, Choose(w, x, y), s, 0x5A827999, Rotl(v, 5))
    else if i < 40 then Added(z, Parity(w, x, y), s, 0x6ED9EBA1, Rotl(v, 5))
    else if i < 60 then Added(z, Vote(w, x, y), s, 0x8F1BBCDC, Rotl(v, 5))
    else Added(z, Parity(w, x, y), s, 0xCA62C1D6, Rotl(v, 5))
  }

  lemma TurnIsRound(i: nat, v: Word, w: Word, x: Word, y: Word, z: Word, s: Word)
    requires i < 80
    ensures Regs(Turn(i, v, w, x, y, z, s), v, Rotl(w, 30), x, y) == Round(Regs(v, w, x, y, z), i, s)
  {
    hide Rotl, Ch, Maj, Sum, Choose, Vote, Parity, Added;
    ChooseIsCh(w, x, y);
    VoteIsMaj(w, x, y);
    AddedIsSum(z, F(i, w, x, y), s, K(i), Rotl(v, 5));
  }

  /** One round: the new values of the two registers it changes. */
  method R(l: array<Word>, i: nat, v: Word, w: Word, x: Word, y: Word, z: Word, ghost block: seq<Byte>)
    returns (w': Word, z': Word)
    requires |block| == 64 && i < 80 && Window(l[..], block, i)
    modifies l
    ensures Window(l[..], block, i + 1)
    ensures Regs(z', v, w', x, y) == Round(Regs(v, w, x, y, z), i, W(block, i))
  {
    hide Window, W, Rotl;
    var s;
    if i < 16 { s := Blk0(l, i, block); } else { s := Blk(l, i, block); }
    TurnIsRound(i, v, w, x, y, z, s);
    hide Round, Turn;
    z' := Turn(i, v, w, x, y, z, s);
    w' := Rotl(w, 30);
  }

  /** After five rounds every register is back under its own name, so the eighty rounds of the source are
      sixteen times the five below. */
  method EightyRounds(l: array<Word>, h: Regs, ghost block: seq<Byte>) returns (r: Regs)
    requires |block| == 64 && Window(l[..], block, 0)
    modifies l
    ensures r == Rounds(h, block, 80)
  {
    hide W, Window, Round;
    var Regs(a, b, c, d, e) := h;
    var i := 0;
    while i < 80
      invariant 0 <= i <= 80 && i % 5 == 0
      invariant Window(l[..], block, i)
      invariant Regs(a, b, c, d, e) == Rounds(h, block, i)
    {
      hide Rounds;
      FiveRounds(h, block, i);
      b, e := R(l, i, a, b, c, d, e, block);
      a, d := R(l, i + 1, e, a, b, c, d, block);
      e, c := R(l, i + 2, d, e, a, b, c, block);
      d, b := R(l, i + 3, c, d, e, a, b, block);
      c, a := R(l, i + 4, b, c, d, e, a, block);
      i := i + 5;
    }
    r := Regs(a, b, c, d, e);
  }

  /** `sha1_transform`. */
  method Transform(state: array<Word>, block: seq<Byte>)
    requires state.Length == 5 && |block| == 64
    modifies state
    ensures RegsOf(state[..]) == Compress(old(RegsOf(state[..])), block)
  {
    hide W, Rounds, Raw, Plus;
    var l := new Word[16](k requires 0 <= k < 16 => Raw(block, k));
    assert Window(l[..], block, 0);
    var r := EightyRounds(l, RegsOf(state[..]), block);
    state[0] := Plus(state[0], r.a);
    state[1] := Plus(state[1], r.b);
    state[2] := Plus(state[2], r.c);
    state[3] := Plus(state[3], r.d);
    state[4] := Plus(state[4], r.e);
  }

  lemma FiveRounds(h: Regs, block: seq<Byte>, t: nat)
    requires |block| == 64
    ensures var r0 := Rounds(h, block, t);
            var r1 := Round(r0, t, W(block, t));
            var r2 := Round(r1, t + 1, W(block, t + 1));
            var r3 := Round(r2, t + 2, W(block, t + 2));
            var r4 := Round(r3, t + 3, W(block, t + 3));
            Rounds(h, block, t + 5) == Round(r4, t + 4, W(block, t + 4))
  {
    hide W, Round;
    assert Rounds(h, block, t + 1) == Round(Rounds(h, block, t), t, W(block, t));
    assert Rounds(h, block, t + 2) == Round(Rounds(h, block, t + 1), t + 1, W(block, t + 1));
    assert Rounds(h, block, t + 3) == Round(Rounds(h, block, t + 2), t + 2, W(block, t + 2));
    assert Rounds(h, block, t + 4) == Round(Rounds(h, block, t + 3), t + 3, W(block, t + 3));
  }
}
