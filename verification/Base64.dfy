/** Base 64 (src/codec/base64.cpp) against section 4 of RFC 4648. Strings are bytes, bytes numbers below 256; a mask
    and a shift are written as the division or remainder they amount to. */
module Base64 {
  import Modular

  type Byte = x: int | 0 <= x < 256

  const UPPER: string := "ABCDEFGHIJKLMNOPQRSTUVWXYZ"
  const LOWER: string := "abcdefghijklmnopqrstuvwxyz"
  const DIGITS: string := "0123456789"
  const ALPHABET: string := UPPER + LOWER + DIGITS + "+/"
  const PAD: Byte := '=' as int

  /** The masks and shifts of `a3_to_a4` and `a4_to_a3` on a byte. */
  lemma MasksAreDivisions(x: bv8)
    ensures (x & 0xfc) >> 2 == x / 4 && (x & 0x03) << 4 == x % 4 * 16
    ensures (x & 0xf0) >> 4 == x / 16 && (x & 0x0f) << 2 == x % 16 * 4
    ensures (x & 0xc0) >> 6 == x / 64 && x & 0x3f == x % 64
    ensures x << 2 == x % 64 * 4 && (x & 0x30) >> 4 == x / 16 % 4
    ensures (x & 0x0f) << 4 == x % 16 * 16 && (x & 0x3c) >> 2 == x / 4 % 16 && (x & 0x03) << 6 == x % 4 * 64
  {}

  /** Three bytes put together and cut into four sextets, and four sextets put together and cut into three bytes. */
  function Sextets(g: seq<Byte>): (r: seq<Byte>)
    requires |g| == 3
    ensures |r| == 4 && forall k :: 0 <= k < 4 ==> r[k] < 64
  {
    var n: int := (g[0] as int) * 65536 + (g[1] as int) * 256 + (g[2] as int);
    [n / 262144 % 64, n / 4096 % 64, n / 64 % 64, n % 64]
  }

  function Bytes(s: seq<Byte>): (r: seq<Byte>)
    requires |s| == 4
    ensures |r| == 3
  {
    var n: int := (s[0] as int) % 64 * 262144 + (s[1] as int) % 64 * 4096 + (s[2] as int) % 64 * 64 + (s[3] as int) % 64;
    [n / 65536 % 256, n / 256 % 256, n % 256]
  }

  lemma Digit(n: int, d: nat, high: nat, digit: nat, low: nat)
    requires d > 0 && digit < 64 && low < d && n == d * (64 * high + digit) + low
    ensures n / d % 64 == digit
  {
    Modular.DivMod(n, d, 64 * high + digit, low);
  }

  lemma Octet(n: int, d: nat, high: nat, octet: nat, low: nat)
    requires d > 0 && octet < 256 && low < d && n == d * (256 * high + octet) + low
    ensures n / d % 256 == octet
  {
    Modular.DivMod(n, d, 256 * high + octet, low);
  }

  /** What `a3_to_a4` computes is the cut into sextets. */
  lemma CutToSextets(x: Byte, y: Byte, z: Byte)
    ensures Sextets([x, y, z]) == [x / 4, x % 4 * 16 + y / 16, y % 16 * 4 + z / 64, z % 64]
  {
    var n: int := (x as int) * 65536 + (y as int) * 256 + (z as int);
    Digit(n, 262144, 0, x / 4, x % 4 * 65536 + y * 256 + z);
    Digit(n, 4096, x / 4, x % 4 * 16 + y / 16, y % 16 * 256 + z);
    Digit(n, 64, x * 16 + y / 16, y % 16 * 4 + z / 64, z % 64);
    Digit(n, 1, x * 1024 + y * 4 + z / 64, z % 64, 0);
  }

  /** What `a4_to_a3` computes is the cut into bytes, as far as the sextets are sextets. */
  lemma CutToBytes(s: Byte, t: Byte, u: Byte, v: Byte)
    ensures var b := Bytes([s, t, u, v]);
            b[0] == s % 64 * 4 + t / 16 % 4 && b[1] == t % 16 * 16 + u / 4 % 16 && b[2] == u % 4 * 64 + v % 64
  {
    Halves(t, u);
    PutTogether(s % 64, t / 16 % 4, t % 16, u / 4 % 16, u % 4, v % 64);
  }

  lemma Halves(t: Byte, u: Byte)
    ensures t % 64 == 16 * (t / 16 % 4) + t % 16 && u % 64 == 4 * (u / 4 % 16) + u % 4
  {}

  lemma PutTogether(s: nat, t1: nat, t0: nat, u1: nat, u0: nat, v: nat)
    requires s < 64 && t1 < 4 && t0 < 16 && u1 < 16 && u0 < 4 && v < 64
    ensures var n := s * 262144 + (16 * t1 + t0) * 4096 + (4 * u1 + u0) * 64 + v;
            n / 65536 % 256 == s * 4 + t1 && n / 256 % 256 == t0 * 16 + u1 && n % 256 == u0 * 64 + v
  {
    var n := s * 262144 + (16 * t1 + t0) * 4096 + (4 * u1 + u0) * 64 + v;
    Octet(n, 65536, 0, s * 4 + t1, t0 * 4096 + u1 * 256 + u0 * 64 + v);
    Octet(n, 256, s * 4 + t1, t0 * 16 + u1, u0 * 64 + v);
    Octet(n, 1, s * 1024 + t1 * 256 + t0 * 16 + u1, u0 * 64 + v, 0);
  }

  lemma UpperAt(s: nat)
    requires s < 26
    ensures UPPER[s] as int == 65 + s && LOWER[s] as int == 97 + s
  {}

  lemma DigitAt(s: nat)
    requires s < 10
    ensures DIGITS[s] as int == 48 + s
  {}

  lemma Alphabet(s: nat)
    requires s < 64
    ensures |ALPHABET| == 64 && ALPHABET[s] as int == LetterCode(s)
  {
    if s < 26 { UpperAt(s); } else if s < 52 { UpperAt(s - 26); } else if s < 62 { DigitAt(s - 52); }
    hide UPPER, LOWER, DIGITS;
  }

  function LetterCode(s: nat): (c: Byte)
    requires s < 64
  {
    if s < 26 then 65 + s else if s < 52 then 71 + s else if s < 62 then s - 4 else if s == 62 then 43 else 47
  }

  /** kBase64Alphabet. */
  function Letter(s: Byte): (c: Byte)
    requires s < 64
    ensures c == LetterCode(s)
  {
    Alphabet(s);
    hide ALPHABET;
    ALPHABET[s] as int
  }

  /** `b64_lookup`: 255 for what is not a letter. */
  function Lookup(c: Byte): Byte {
    if 'A' as int <= c <= 'Z' as int then c - 'A' as int
    else if 'a' as int <= c <= 'z' as int then c - 71
    else if '0' as int <= c <= '9' as int then c + 4
    else if c == '+' as int then 62
    else if c == '/' as int then 63
    else 255
  }

  lemma LookupLetter(s: Byte)
    requires s < 64
    ensures Lookup(Letter(s)) == s && Letter(s) != PAD
  {}

  function Letters(s: seq<Byte>): (r: seq<Byte>)
    requires forall k :: 0 <= k < |s| ==> s[k] < 64
    ensures |r| == |s|
  {
    seq(|s|, k requires 0 <= k < |s| => Letter(s[k]))
  }

  function Lookups(s: seq<Byte>): (r: seq<Byte>)
    ensures |r| == |s|
  {
    seq(|s|, k requires 0 <= k < |s| => Lookup(s[k]))
  }

  function Zeros(n: nat): seq<Byte> { seq(n, _ => 0) }

  function Pads(n: nat): seq<Byte> { seq(n, _ => PAD) }

  function EncodeGroup(g: seq<Byte>): (r: seq<Byte>)
    requires |g| == 3
    ensures |r| == 4
  {
    Letters(Sextets(g))
  }

  function DecodeGroup(c: seq<Byte>): (r: seq<Byte>)
    requires |c| == 4
    ensures |r| == 3
  {
    Packed(Lookups(c))
  }

  /** The whole groups of three, or of four, among n. */
  function Threes(n: nat): (m: nat)
    ensures 3 * m <= n < 3 * m + 3
  {
    n / 3
  }

  function Fours(n: nat): (m: nat)
    ensures 4 * m <= n < 4 * m + 4
  {
    n / 4
  }

  /** Whole groups of three bytes. */
  function Quads(b: seq<Byte>): (r: seq<Byte>)
    requires |b| % 3 == 0
    ensures |r| == |b| / 3 * 4
  {
    if b == [] then [] else Quads(b[..|b| - 3]) + EncodeGroup(b[|b| - 3..])
  }

  /** The letters for one or two bytes at the end: as many sextets as they touch. */
  function LastLetters(t: seq<Byte>): (r: seq<Byte>)
    requires 0 < |t| < 3
    ensures |r| == |t| + 1
  {
    EncodeGroup(t + Zeros(3 - |t|))[..|t| + 1]
  }

  function LettersOf(b: seq<Byte>): (r: seq<Byte>)
    ensures |r| == |b| / 3 * 4 + if |b| % 3 == 0 then 0 else |b| % 3 + 1
  {
    var w := 3 * Threes(|b|);
    if w == |b| then Quads(b) else Quads(b[..w]) + LastLetters(b[w..])
  }

  /** Section 4 of RFC 4648. */
  function Encoded(b: seq<Byte>): seq<Byte> { LettersOf(b) + Pads((3 - |b| % 3) % 3) }

  function EncodedLength(n: nat): nat { (n + 2 - (n + 2) % 3) / 3 * 4 }

  /** What `a4_to_a3` leaves in its bytes; a fourth entry beyond 63 spoils the third byte. */
  function Packed(s: seq<Byte>): (r: seq<Byte>)
    requires |s| == 4
    ensures |r| == 3
  {
    [((s[0] as int) * 4 + (s[1] as int) / 16 % 4) % 256, (s[1] as int) % 16 * 16 + (s[2] as int) / 4 % 16,
     ((s[2] as int) % 4 * 64 + (s[3] as int)) % 256]
  }

  lemma PackedIsBytes(s: seq<Byte>)
    requires |s| == 4
    ensures Packed(s)[..2] == Bytes(s)[..2] && (s[3] < 64 ==> Packed(s) == Bytes(s))
  {
    CutToBytes(s[0], s[1], s[2], s[3]);
    assert s == [s[0], s[1], s[2], s[3]];
    hide Bytes;
    var p, b := Packed(s), Bytes(s);
    assert p[0] == b[0] by { Overflow(s[0], s[1]); }
    assert p[1] == b[1];
    assert s[3] < 64 ==> p[2] == b[2] by { if s[3] < 64 { Third(s[2], s[3]); } }
    hide Packed;
  }

  lemma Third(u: Byte, v: Byte)
    requires v < 64
    ensures ((u as int) % 4 * 64 + v) % 256 == (u as int) % 4 * 64 + v % 64
  {}

  lemma Overflow(s: int, t: int)
    ensures (s * 4 + t / 16 % 4) % 256 == s % 64 * 4 + t / 16 % 4
  {}

  function Triples(c: seq<Byte>): (r: seq<Byte>)
    requires |c| % 4 == 0
    ensures |r| == |c| / 4 * 3
  {
    if c == [] then [] else Triples(c[..|c| - 4]) + DecodeGroup(c[|c| - 4..])
  }

  function LastBytes(t: seq<Byte>): (r: seq<Byte>)
    requires 0 < |t| < 4
    ensures |r| == |t| - 1
  {
    DecodeGroup(t + Zeros(4 - |t|))[..|t| - 1]
  }

  /** What the letters of a string without padding decode to. */
  function BytesOf(c: seq<Byte>): (r: seq<Byte>)
    ensures |r| == 3 * |c| / 4
  {
    var w := 4 * Fours(|c|);
    if w == |c| then Triples(c) else Triples(c[..w]) + LastBytes(c[w..])
  }

  /** What stands in front of the first '='. */
  function Data(s: seq<Byte>): (r: seq<Byte>)
    ensures |r| <= |s| && r == s[..|r|] && PAD !in r && (|r| < |s| ==> s[|r|] == PAD)
  {
    if s == [] || s[0] == PAD then [] else [s[0]] + Data(s[1..])
  }

  function TrailingPads(s: seq<Byte>): (n: nat)
    ensures n <= |s|
  {
    if s == [] || s[|s| - 1] != PAD then 0 else 1 + TrailingPads(s[..|s| - 1])
  }

  function DecodedLength(s: seq<Byte>): int { 6 * |s| / 8 - TrailingPads(s) }

  lemma LookupsLetters(s: seq<Byte>)
    requires forall k :: 0 <= k < |s| ==> s[k] < 64
    ensures Lookups(Letters(s)) == s && PAD !in Letters(s)
  {
    forall k | 0 <= k < |s| ensures Lookup(Letter(s[k])) == s[k] && Letter(s[k]) != PAD { LookupLetter(s[k]); }
    hide Lookup, Letter;
  }

  /** A group comes back, and so does as much of a filled-up one as there was. */
  lemma GroupBack(g: seq<Byte>)
    requires |g| == 3
    ensures Packed(Sextets(g)) == g
  {
    var x, y, z := g[0], g[1], g[2];
    CutToSextets(x, y, z);
    assert g == [x, y, z];
    PackedIsBytes(Sextets(g));
    CutToBytes(x / 4, x % 4 * 16 + y / 16, y % 16 * 4 + z / 64, z % 64);
    hide Sextets, Bytes, Packed;
    Mixed(x, y, z);
  }

  lemma Mixed(x: Byte, y: Byte, z: Byte)
    ensures (x / 4) % 64 * 4 + (x % 4 * 16 + y / 16) / 16 % 4 == x
    ensures (x % 4 * 16 + y / 16) % 16 * 16 + (y % 16 * 4 + z / 64) / 4 % 16 == y
    ensures (y % 16 * 4 + z / 64) % 4 * 64 + z % 64 % 64 == z
  {}

  lemma GroupDecoded(g: seq<Byte>)
    requires |g| == 3
    ensures DecodeGroup(EncodeGroup(g)) == g && PAD !in EncodeGroup(g)
  {
    LookupsLetters(Sextets(g));
    GroupBack(g);
    hide Sextets, Letters, Lookups, Packed;
  }

  lemma {:induction false} QuadsBack(b: seq<Byte>)
    requires |b| % 3 == 0
    ensures Triples(Quads(b)) == b && PAD !in Quads(b)
  {
    hide EncodeGroup, DecodeGroup;
    if b != [] {
      var front, g := b[..|b| - 3], b[|b| - 3..];
      QuadsBack(front);
      GroupDecoded(g);
      var q := Quads(front) + EncodeGroup(g);
      assert Quads(b) == q;
      assert q[..|q| - 4] == Quads(front) && q[|q| - 4..] == EncodeGroup(g);
      assert Triples(q) == front + g;
    }
  }

  /** A last byte of a group bears on the later sextets only. */
  lemma LastBack(t: seq<Byte>)
    requires 0 < |t| < 3
    ensures LastBytes(LastLetters(t)) == t && PAD !in LastLetters(t)
  {
    var g := t + Zeros(3 - |t|);
    GroupDecoded(g);
    SamePrefix(EncodeGroup(g), LastLetters(t) + Zeros(3 - |t|), |t|);
    hide EncodeGroup, DecodeGroup;
    assert LastBytes(LastLetters(t)) == DecodeGroup(EncodeGroup(g))[..|t|] == g[..|t|];
  }

  /** The first n bytes are made of the first n + 1 letters. */
  lemma SamePrefix(c: seq<Byte>, d: seq<Byte>, n: nat)
    requires |c| == |d| == 4 && n < 3 && c[..n + 1] == d[..n + 1]
    ensures DecodeGroup(c)[..n] == DecodeGroup(d)[..n]
  {
    assert forall k :: 0 <= k <= n ==> c[k] == c[..n + 1][k] && d[k] == d[..n + 1][k];
    hide Lookup;
    var p, q := Packed(Lookups(c)), Packed(Lookups(d));
    assert (n > 0 ==> p[0] == q[0]) && (n > 1 ==> p[1] == q[1]);
  }

  lemma LettersInParts(front: seq<Byte>, t: seq<Byte>)
    requires |front| % 3 == 0 && |t| < 3
    ensures LettersOf(front + t) == if t == [] then Quads(front) else Quads(front) + LastLetters(t)
  {
    hide Quads, LastLetters;
    Modular.DivMod(|front + t|, 3, |front| / 3, |t|);
    assert (front + t)[..|front|] == front && (front + t)[|front|..] == t;
    assert t == [] ==> front + t == front;
  }

  lemma BytesInParts(front: seq<Byte>, t: seq<Byte>)
    requires |front| % 4 == 0 && |t| < 4
    ensures BytesOf(front + t) == if t == [] then Triples(front) else Triples(front) + LastBytes(t)
  {
    hide Triples, LastBytes;
    Modular.DivMod(|front + t|, 4, |front| / 4, |t|);
    assert (front + t)[..|front|] == front && (front + t)[|front|..] == t;
    assert t == [] ==> front + t == front;
  }

  /** Without the padding, decoding takes encoding back. */
  lemma LettersBack(b: seq<Byte>)
    ensures BytesOf(LettersOf(b)) == b && PAD !in LettersOf(b)
  {
    var w := 3 * Threes(|b|);
    var front, t := b[..w], b[w..];
    assert b == front + t;
    LettersInParts(front, t);
    QuadsBack(front);
    hide Quads, Triples, BytesOf, LettersOf;
    if t == [] {
      BytesInParts(Quads(front), []);
      assert Quads(front) + [] == Quads(front);
    } else {
      LastBack(t);
      hide LastLetters, LastBytes;
      BytesInParts(Quads(front), LastLetters(t));
    }
  }

  lemma {:induction false} DataOf(c: seq<Byte>, k: nat)
    requires PAD !in c
    ensures Data(c + Pads(k)) == c
  {
    if c != [] {
      assert (c + Pads(k))[1..] == c[1..] + Pads(k);
      DataOf(c[1..], k);
    } else {
      assert k > 0 ==> (c + Pads(k))[0] == PAD;
    }
  }

  lemma {:induction false} PadsAreCounted(c: seq<Byte>, k: nat)
    requires PAD !in c
    ensures TrailingPads(c + Pads(k)) == k
  {
    var s := c + Pads(k);
    if k > 0 {
      assert s[..|s| - 1] == c + Pads(k - 1);
      PadsAreCounted(c, k - 1);
    } else if c != [] {
      assert s == c && s[|s| - 1] in c;
    }
  }

  /** Decoding an encoding gives the bytes back, and both lengths computed beforehand are the true ones. */
  lemma RoundTrip(b: seq<Byte>)
    ensures BytesOf(Data(Encoded(b))) == b
    ensures |Encoded(b)| == EncodedLength(|b|) && DecodedLength(Encoded(b)) == |b|
  {
    LettersBack(b);
    DataOf(LettersOf(b), (3 - |b| % 3) % 3);
    PadsAreCounted(LettersOf(b), (3 - |b| % 3) % 3);
    hide LettersOf, BytesOf, Data, TrailingPads;
    Lengths(|b|);
  }

  lemma Lengths(n: nat)
    ensures var c, k := n / 3 * 4 + (if n % 3 == 0 then 0 else n % 3 + 1), (3 - n % 3) % 3;
            c + k == EncodedLength(n) && 6 * (c + k) / 8 - k == n
  {
    var q := n / 3;
    if n == 3 * q {
      assert (n + 2) % 3 == 2;
    } else if n == 3 * q + 1 {
      assert (n + 2) % 3 == 0;
    } else {
      assert (n + 2) % 3 == 1;
    }
  }

  /** For letters with any number of '=' behind them, the length computed beforehand is what they decode to if and
      only if there is no more padding than belongs there. */
  lemma LengthIsTrueIff(c: seq<Byte>, k: nat)
    requires PAD !in c
    ensures DecodedLength(c + Pads(k)) == |BytesOf(c)| <==> k <= 3 * |c| % 4
  {
    PadsAreCounted(c, k);
    assert 6 * (|c| + k) / 8 - k == (3 * |c| - k) / 4;
  }
}
