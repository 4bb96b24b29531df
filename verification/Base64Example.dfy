/** The table of section 4 and the some test vectors of section 10 of RFC 4648, for what Base64 computes. */
module Base64Example {
  import opened Base64

  lemma TableOfTheStandard(s: nat)
    requires s < 64
    ensures Letter(s) == "ABCDEFGHIJKLMNOPQRSTUVWXYZabcdefghijklmnopqrstuvwxyz0123456789+/"[s] as int
  {
    Alphabet(s);
    hide LetterCode;
  }

  lemma GroupIs(g: seq<Byte>, s: seq<Byte>, letters: seq<Byte>)
    requires |g| == 3 && |s| == |letters| == 4
    requires s[0] == g[0] / 4 && s[1] == g[0] % 4 * 16 + g[1] / 16 && s[2] == g[1] % 16 * 4 + g[2] / 64 && s[3] == g[2] % 64
    requires forall k :: 0 <= k < 4 ==> letters[k] == LetterCode(s[k])
    ensures EncodeGroup(g) == letters
  {
    CutToSextets(g[0], g[1], g[2]);
    assert g == [g[0], g[1], g[2]];
    hide Sextets, LetterCode, ALPHABET;
  }

  lemma OneGroup(g: seq<Byte>, c: seq<Byte>)
    requires |g| == 3 && EncodeGroup(g) == c
    ensures Quads([]) == [] && Quads(g) == c
  {
    hide EncodeGroup;
    assert g[..0] == [] && g[0..] == g;
  }

  lemma TwoGroups(g: seq<Byte>, h: seq<Byte>, c: seq<Byte>, d: seq<Byte>)
    requires |g| == |h| == 3 && EncodeGroup(g) == c && EncodeGroup(h) == d
    ensures Quads(g + h) == c + d
  {
    OneGroup(g, c);
    assert (g + h)[..3] == g && (g + h)[3..] == h;
    hide EncodeGroup;
  }

  lemma LastIs(t: seq<Byte>, g: seq<Byte>, c: seq<Byte>)
    requires 0 < |t| < 3 && g == t + Zeros(3 - |t|) && EncodeGroup(g) == c
    ensures LastLetters(t) == c[..|t| + 1]
  {
    hide EncodeGroup;
  }

  lemma PadsAre()
    ensures Pads(0) == [] && Pads(1) == [61] && Pads(2) == [61, 61]
    ensures Zeros(1) == [0] && Zeros(2) == [0, 0]
  {}

  lemma WholeGroups(b: seq<Byte>, c: seq<Byte>)
    requires |b| % 3 == 0 && Quads(b) == c
    ensures Encoded(b) == c
  {
    PadsAre();
    hide Quads, Pads, Zeros;
    assert 3 * Threes(|b|) == |b|;
    assert c + [] == c;
  }

  lemma RestAlone(t: seq<Byte>)
    requires 0 < |t| < 3
    ensures LettersOf(t) == LastLetters(t)
  {
    var none: seq<Byte> := [];
    LettersInParts(none, t);
    assert none + t == t && Quads(none) == none;
    hide LettersOf, LastLetters, Quads;
    assert none + LastLetters(t) == LastLetters(t);
  }

  lemma OneRest(t: seq<Byte>, last: seq<Byte>)
    requires 0 < |t| < 3 && LastLetters(t) == last
    ensures Encoded(t) == last + (if |t| == 1 then [61, 61] else [61])
  {
    RestAlone(t);
    PadsAre();
    hide LettersOf, LastLetters, Pads, Zeros;
    assert (3 - |t| % 3) % 3 == 3 - |t|;
  }

  lemma EmptyVector()
    ensures Encoded([]) == []
  {
    WholeGroups([], []);
  }

  /** "f" is "Zg==". */
  lemma VectorF()
    ensures Encoded([102]) == [90, 103, 61, 61]
  {
    PadsAre();
    GroupIs([102, 0, 0], [25, 32, 0, 0], [90, 103, 65, 65]);
    LastIs([102], [102, 0, 0], [90, 103, 65, 65]);
    OneRest([102], [90, 103]);
    hide Encoded, LastLetters, EncodeGroup, Quads, LetterCode, Pads, Zeros;
  }

  /** "fo" is "Zm8=". */
  lemma VectorFo()
    ensures Encoded([102, 111]) == [90, 109, 56, 61]
  {
    PadsAre();
    GroupIs([102, 111, 0], [25, 38, 60, 0], [90, 109, 56, 65]);
    LastIs([102, 111], [102, 111, 0], [90, 109, 56, 65]);
    OneRest([102, 111], [90, 109, 56]);
    hide Encoded, LastLetters, EncodeGroup, Quads, LetterCode, Pads, Zeros;
  }

  /** "foo" is "Zm9v". */
  lemma VectorFoo()
    ensures Encoded([102, 111, 111]) == [90, 109, 57, 118]
  {
    GroupIs([102, 111, 111], [25, 38, 61, 47], [90, 109, 57, 118]);
    OneGroup([102, 111, 111], [90, 109, 57, 118]);
    WholeGroups([102, 111, 111], [90, 109, 57, 118]);
    hide Encoded, LastLetters, EncodeGroup, Quads, LetterCode, Pads, Zeros;
  }

  /** "foobar" is "Zm9vYmFy". */
  lemma VectorFoobar()
    ensures Encoded([102, 111, 111, 98, 97, 114]) == [90, 109, 57, 118, 89, 109, 70, 121]
  {
    GroupIs([102, 111, 111], [25, 38, 61, 47], [90, 109, 57, 118]);
    GroupIs([98, 97, 114], [24, 38, 5, 50], [89, 109, 70, 121]);
    TwoGroups([102, 111, 111], [98, 97, 114], [90, 109, 57, 118], [89, 109, 70, 121]);
    assert [102, 111, 111] + [98, 97, 114] == [102, 111, 111, 98, 97, 114];
    assert [90, 109, 57, 118] + [89, 109, 70, 121] == [90, 109, 57, 118, 89, 109, 70, 121];
    WholeGroups([102, 111, 111, 98, 97, 114], [90, 109, 57, 118, 89, 109, 70, 121]);
    hide Encoded, LastLetters, EncodeGroup, Quads, LetterCode, Pads, Zeros;
  }
}
