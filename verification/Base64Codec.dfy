/** The loops of src/codec/base64.cpp: buffers of three and four bytes, filled and emptied in turn, and an output of
    the length computed beforehand. */
module Base64Codec {
  import opened Base64
  import Modular

  /** `a3_to_a4`. */
  method A3ToA4(a4: array<Byte>, a3: array<Byte>)
    requires a4.Length == 4 && a3.Length == 3
    modifies a4
    ensures a4[..] == Sextets(a3[..]) && a3[..] == old(a3[..])
  {
    CutToSextets(a3[0], a3[1], a3[2]);
    assert a3[..] == [a3[0], a3[1], a3[2]];
    var x, y, z := a3[0], a3[1], a3[2];
    a4[0] := x / 4;
    a4[1] := x % 4 * 16 + y / 16;
    a4[2] := y % 16 * 4 + z / 64;
    a4[3] := z % 64;
  }

  /** `a4_to_a3`. */
  method A4ToA3(a3: array<Byte>, a4: array<Byte>)
    requires a4.Length == 4 && a3.Length == 3
    modifies a3
    ensures a3[..] == Packed(a4[..]) && a4[..] == old(a4[..])
  {
    var s, t, u, v: int := a4[0], a4[1], a4[2], a4[3];
    a3[0] := (s * 4 + t / 16 % 4) % 256;
    a3[1] := t % 16 * 16 + u / 4 % 16;
    a3[2] := (u % 4 * 64 + v) % 256;
  }

  lemma QuadsGrow(b: seq<Byte>, g: seq<Byte>)
    requires |b| % 3 == 0 && |g| == 3
    ensures Quads(b + g) == Quads(b) + EncodeGroup(g)
  {
    hide EncodeGroup;
    assert (b + g)[..|b + g| - 3] == b && (b + g)[|b + g| - 3..] == g;
  }

  lemma TriplesGrow(c: seq<Byte>, g: seq<Byte>)
    requires |c| % 4 == 0 && |g| == 4
    ensures Triples(c + g) == Triples(c) + DecodeGroup(g)
  {
    hide DecodeGroup;
    assert (c + g)[..|c + g| - 4] == c && (c + g)[|c + g| - 4..] == g;
  }

  /** Lines 40-44 and 55-59: the first n letters of the group in a3. */
  method PutLetters(out: array<Byte>, at: nat, a3: array<Byte>, a4: array<Byte>, n: nat)
    requires a4.Length == 4 && a3.Length == 3 && n <= 4 && at + n <= out.Length
    requires out != a3 && out != a4 && a3 != a4
    modifies out, a4
    ensures out[..at + n] == old(out[..at]) + EncodeGroup(a3[..])[..n] && a3[..] == old(a3[..])
  {
    A3ToA4(a4, a3);
    ghost var s := Sextets(a3[..]);
    ghost var front := out[..at];
    var j := 0;
    while j < n
      invariant j <= n && a4[..] == s && a3[..] == old(a3[..])
      invariant out[..at + j] == front + Letters(s)[..j]
    {
      assert a4[j] == s[j];
      out[at + j] := Letter(a4[j]);
      j := j + 1;
    }
  }

  lemma QuadsFit(n: nat, m: nat)
    requires 3 * m <= n
    ensures 4 * m <= EncodedLength(n) && (n == 3 * m ==> EncodedLength(n) == 4 * m)
    ensures 3 * m < n < 3 * m + 3 ==> EncodedLength(n) == 4 * m + 4
  {
    var k, r := (n + 2) / 3, (n + 2) % 3;
    assert n + 2 - r == 3 * k;
    assert EncodedLength(n) == k * 4;
  }

  /** Lines 37-48: whole groups, and what is left of b in a3. */
  method WholeGroups(b: seq<Byte>, out: array<Byte>, a3: array<Byte>, a4: array<Byte>)
    returns (i: nat, encLen: nat, ghost front: seq<Byte>, ghost t: seq<Byte>)
    requires a4.Length == 4 && a3.Length == 3 && out.Length == EncodedLength(|b|)
    requires out != a3 && out != a4 && a3 != a4
    modifies out, a3, a4
    ensures b == front + t && |front| % 3 == 0 && |t| == i < 3
    ensures encLen == 4 * (|front| / 3) <= out.Length && a3[..i] == t && out[..encLen] == Quads(front)
  {
    hide EncodedLength, Quads, EncodeGroup;
    i, encLen, front, t := 0, 0, [], [];
    var pos := 0;
    ghost var m := 0;
    NoQuads(front);
    while pos < |b|
      invariant pos <= |b| && b[..pos] == front + t && |front| == 3 * m && |t| == i < 3
      invariant encLen == 4 * m <= out.Length && a3[..i] == t && out[..encLen] == Quads(front)
    {
      a3[i] := b[pos];
      t := t + [b[pos]];
      assert b[..pos + 1] == front + t && a3[..i + 1] == t;
      pos, i := pos + 1, i + 1;
      if i == 3 {
        QuadsFit(|b|, m + 1);
        assert a3[..] == t;
        QuadsGrow(front, t);
        PutLetters(out, encLen, a3, a4, 4);
        front, t := front + t, [];
        encLen, m := encLen + 4, m + 1;
        i := 0;
      }
    }
    assert b[..pos] == b;
  }

  lemma NoQuads(b: seq<Byte>)
    requires b == []
    ensures Quads(b) == [] && Triples(b) == []
  {}

  /** `base64_encode`. */
  method Encode(b: seq<Byte>) returns (r: seq<Byte>)
    ensures r == Encoded(b)
  {
    var a3, a4 := new Byte[3], new Byte[4];
    var out := new Byte[EncodedLength(|b|)];
    ghost var front, t;
    var i, encLen;
    i, encLen, front, t := WholeGroups(b, out, a3, a4);
    QuadsFit(|b|, |front| / 3);
    Assembled(front, t);
    hide Encoded, EncodedLength, Quads, LastLetters, Pads;
    if i > 0 {
      PutRest(out, encLen, a3, a4, i, t);
    }
    r := out[..];
  }

  /** Lines 51-63. */
  method PutRest(out: array<Byte>, at: nat, a3: array<Byte>, a4: array<Byte>, i: nat, ghost t: seq<Byte>)
    requires a4.Length == 4 && a3.Length == 3 && out != a3 && out != a4 && a3 != a4
    requires 0 < i < 3 && a3[..i] == t && at + 4 == out.Length
    modifies out, a3, a4
    ensures out[..] == old(out[..at]) + LastLetters(t) + Pads(3 - i)
  {
    hide EncodeGroup, Zeros, Pads;
    FillGroup(a3, i, t);
    PutLetters(out, at, a3, a4, i + 1);
    PutPads(out, at + i + 1, 3 - i);
  }

  /** Lines 51-53. */
  method FillGroup(a: array<Byte>, n: nat, ghost t: seq<Byte>)
    requires n <= a.Length && a[..n] == t
    modifies a
    ensures a[..] == t + Zeros(a.Length - n)
  {
    var j := n;
    while j < a.Length
      invariant n <= j <= a.Length && a[..n] == t && forall k :: n <= k < j ==> a[k] == 0
    {
      a[j] := 0;
      j := j + 1;
    }
  }

  /** Lines 61-63. */
  method PutPads(out: array<Byte>, at: nat, n: nat)
    requires at + n == out.Length
    modifies out
    ensures out[..] == old(out[..at]) + Pads(n)
  {
    var j := 0;
    while j < n
      invariant j <= n && out[..at] == old(out[..at]) && forall k :: at <= k < at + j ==> out[k] == PAD
    {
      out[at + j] := PAD;
      j := j + 1;
    }
  }

  lemma Assembled(front: seq<Byte>, t: seq<Byte>)
    requires |front| % 3 == 0 && |t| < 3
    ensures Encoded(front + t) == if t == [] then Quads(front) else Quads(front) + LastLetters(t) + Pads(3 - |t|)
  {
    hide Quads, LastLetters, LettersOf;
    LettersInParts(front, t);
    PaddingOf(front, t);
    assert t == [] ==> Quads(front) + Pads(0) == Quads(front);
    hide Encoded;
  }

  lemma PaddingOf(front: seq<Byte>, t: seq<Byte>)
    requires |front| % 3 == 0 && |t| < 3
    ensures Encoded(front + t) == LettersOf(front + t) + Pads(if t == [] then 0 else 3 - |t|)
  {
    hide LettersOf, Pads;
    var n := |front + t|;
    assert Encoded(front + t) == LettersOf(front + t) + Pads((3 - n % 3) % 3);
    hide Encoded;
    Modular.DivMod(n, 3, |front| / 3, |t|);
    assert (3 - n % 3) % 3 == if t == [] then 0 else 3 - |t|;
  }

  /** Lines 97-99 and 118-120. */
  method LookUp(a4: array<Byte>)
    requires a4.Length == 4
    modifies a4
    ensures a4[..] == Lookups(old(a4[..]))
  {
    var j := 0;
    while j < 4
      invariant j <= 4
      invariant forall k :: 0 <= k < 4 ==> a4[k] == if k < j then Lookup(old(a4[k])) else old(a4[k])
    {
      a4[j] := Lookup(a4[j]);
      j := j + 1;
    }
  }

  /** Lines 103-111 and 122-130: the first n bytes of the group in a4. */
  method PutBytes(out: array<Byte>, at: nat, a3: array<Byte>, a4: array<Byte>, n: nat)
    requires a4.Length == 4 && a3.Length == 3 && n <= 3 && at + n <= out.Length
    requires out != a3 && out != a4 && a3 != a4
    modifies out, a3, a4
    ensures out[..at + n] == old(out[..at]) + DecodeGroup(old(a4[..]))[..n]
    ensures out[at + n..] == old(out[at + n..])
  {
    LookUp(a4);
    A4ToA3(a3, a4);
    ghost var d := Packed(a4[..]);
    hide Packed, Lookups;
    var j := 0;
    while j < n
      invariant j <= n && a3[..] == d
      invariant out[..at + j] == old(out[..at]) + d[..j] && out[at + n..] == old(out[at + n..])
    {
      assert a3[j] == d[j];
      out[at + j] := a3[j];
      j := j + 1;
    }
  }

  /** Lines 96-115: whole groups of letters, up to the first '='; what is left of them is in a4. */
  method WholeQuads(s: seq<Byte>, out: array<Byte>, a3: array<Byte>, a4: array<Byte>)
    returns (i: nat, decLen: nat, ghost front: seq<Byte>, ghost t: seq<Byte>)
    requires a4.Length == 4 && a3.Length == 3 && 3 * |Data(s)| / 4 <= out.Length
    requires out != a3 && out != a4 && a3 != a4
    requires forall k :: 0 <= k < out.Length ==> out[k] == 0
    modifies out, a3, a4
    ensures Data(s) == front + t && |front| % 4 == 0 && |t| == i < 4
    ensures decLen == 3 * (|front| / 4) <= out.Length && a4[..i] == t && out[..decLen] == Triples(front)
    ensures forall k :: decLen <= k < out.Length ==> out[k] == 0
  {
    ghost var c := Data(s);
    hide Data, Triples, DecodeGroup;
    i, decLen, front, t := 0, 0, [], [];
    var pos := 0;
    ghost var m := 0;
    NoQuads(front);
    while pos < |s|
      invariant pos <= |c| && c[..pos] == front + t && |front| == 4 * m && |t| == i < 4
      invariant decLen == 3 * m <= out.Length && a4[..i] == t && out[..decLen] == Triples(front)
      invariant forall k :: decLen <= k < out.Length ==> out[k] == 0
      decreases |s| - pos
    {
      if s[pos] == PAD { break; }
      assert s[pos] == c[pos];
      a4[i] := s[pos];
      t := t + [c[pos]];
      assert c[..pos + 1] == front + t && a4[..i + 1] == t;
      pos, i := pos + 1, i + 1;
      if i == 4 {
        assert a4[..] == t;
        TriplesGrow(front, t);
        assert 3 * (m + 1) <= 3 * |c| / 4;
        ghost var rest := out[decLen + 3..];
        PutBytes(out, decLen, a3, a4, 3);
        assert out[decLen + 3..] == rest;
        front, t := front + t, [];
        decLen, m := decLen + 3, m + 1;
        i := 0;
      }
    }
    assert pos == |c| && c[..pos] == c;
  }

  /** `base64_decode`, of a string that is not all padding and has no more of it than the length allows for. */
  method Decode(s: seq<Byte>) returns (r: seq<Byte>)
    requires (exists k :: 0 <= k < |s| && s[k] != PAD) && |BytesOf(Data(s))| <= DecodedLength(s)
    ensures r == BytesOf(Data(s)) + Zeros(DecodedLength(s) - |BytesOf(Data(s))|)
  {
    hide Data, Triples, LastBytes, DecodedLength;
    var a3, a4 := new Byte[3], new Byte[4];
    var out := new Byte[DecodedLength(s)](_ => 0);
    ghost var front, t;
    var i, decLen;
    i, decLen, front, t := WholeQuads(s, out, a3, a4);
    BytesInParts(front, t);
    hide BytesOf;
    if i > 0 {
      PutLast(out, decLen, a3, a4, i, t);
      decLen := decLen + i - 1;
    }
    r := out[..];
    assert out[decLen..] == Zeros(out.Length - decLen);
    assert r == out[..decLen] + out[decLen..];
  }

  /** Lines 117-131. */
  method PutLast(out: array<Byte>, at: nat, a3: array<Byte>, a4: array<Byte>, i: nat, ghost t: seq<Byte>)
    requires a4.Length == 4 && a3.Length == 3 && out != a3 && out != a4 && a3 != a4
    requires 0 < i < 4 && a4[..i] == t && at + i - 1 <= out.Length
    requires forall k :: at <= k < out.Length ==> out[k] == 0
    modifies out, a3, a4
    ensures out[..at + i - 1] == old(out[..at]) + LastBytes(t)
    ensures forall k :: at + i - 1 <= k < out.Length ==> out[k] == 0
  {
    hide DecodeGroup, Zeros;
    FillGroup(a4, i, t);
    ghost var rest := out[at + i - 1..];
    PutBytes(out, at, a3, a4, i - 1);
    assert out[at + i - 1..] == rest;
  }

  /** What the one writes the other reads. */
  method ThereAndBack(b: seq<Byte>) returns (r: seq<Byte>)
    requires b != []
    ensures r == b
  {
    var s := Encode(b);
    RoundTrip(b);
    hide Encoded, BytesOf, EncodedLength, DecodedLength;
    assert Data(s) != [] by { assert |BytesOf(Data(s))| > 0; }
    assert Data(s)[0] == s[0] && Data(s)[0] in Data(s);
    hide Data;
    r := Decode(s);
  }
}
