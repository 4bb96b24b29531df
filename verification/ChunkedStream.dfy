/** Bodies in the chunked transfer coding (section 7.1 of RFC 9112, without extensions and trailers), and what the
    parser makes of them however they are cut into feeds. */
module ChunkedStream {
  import opened ChunkedBody
  import opened Wrappers

  const CRLF: string := "\r\n"

  predicate IsHex(c: char) { '0' <= c <= '9' || 'a' <= c <= 'f' || 'A' <= c <= 'F' }

  /** The number that digits spell when v stands before them. */
  function ValueFrom(v: nat, digits: string): nat
    decreases |digits|
  {
    if digits == "" then v else ValueFrom(v * 16 + HexToDec(digits[0]), digits[1..])
  }

  const LOWER: string := "0123456789abcdef"
  const UPPER: string := "0123456789ABCDEF"

  /** c is the hexadecimal digit of value d, in either case. */
  predicate DigitIs(c: char, d: nat) { d < 16 && (c == LOWER[d] || c == UPPER[d]) }

  /** The digits are n in hexadecimal, zeros in front and all. */
  predicate Spells(digits: string, n: nat) {
    if digits == "" then n == 0 else DigitIs(digits[|digits| - 1], n % 16) && Spells(digits[..|digits| - 1], n / 16)
  }

  datatype Chunk = Chunk(digits: string, data: string)

  ghost predicate WellFormed(c: Chunk) {
    0 < |c.data| < MAX_CHUNK && Spells(c.digits, |c.data|)
  }

  /** Every digit is read as its value, and anything else as 0. */
  lemma DigitReads(c: char, d: nat)
    ensures DigitIs(c, d) <==> IsHex(c) && HexToDec(c) == d
    ensures !IsHex(c) ==> HexToDec(c) == 0
  {}

  lemma {:induction false} ValueOfMore(v: nat, digits: string, c: char)
    ensures ValueFrom(v, digits + [c]) == ValueFrom(v, digits) * 16 + HexToDec(c)
    decreases |digits|
  {
    if digits == "" {
      assert (digits + [c])[1..] == "";
    } else {
      assert (digits + [c])[1..] == digits[1..] + [c];
      ValueOfMore(v * 16 + HexToDec(digits[0]), digits[1..], c);
    }
  }

  /** What spells a number, in digits of either case, is read as that number. */
  lemma {:induction false} SpelledIsRead(digits: string, n: nat)
    ensures Spells(digits, n) <==> ValueFrom(0, digits) == n && forall i :: 0 <= i < |digits| ==> IsHex(digits[i])
    decreases |digits|
  {
    if digits != "" {
      var front, c := digits[..|digits| - 1], digits[|digits| - 1];
      SpelledIsRead(front, n / 16);
      DigitReads(c, n % 16);
      hide DigitIs, HexToDec, IsHex, ValueFrom;
      ReadLast(digits, front, c);
    }
  }

  lemma ReadLast(digits: string, front: string, c: char)
    requires digits == front + [c]
    ensures ValueFrom(0, digits) == ValueFrom(0, front) * 16 + HexToDec(c)
    ensures (forall i :: 0 <= i < |digits| ==> IsHex(digits[i])) <==> IsHex(c) && forall i :: 0 <= i < |front| ==> IsHex(front[i])
  {
    ValueOfMore(0, front, c);
    hide HexToDec, IsHex, ValueFrom;
    assert |digits| == |front| + 1 && digits[|front|] == c && forall i :: 0 <= i < |front| ==> digits[i] == front[i];
  }

  /** What is left of a body: the rest of a chunk, if one has begun, the chunks behind it, and the last, empty
      chunk's digits. */
  datatype Rest = Rest(begun: Option<string>, chunks: seq<Chunk>, last: string)

  ghost predicate Ok(r: Rest) {
    && (forall i :: 0 <= i < |r.chunks| ==> WellFormed(r.chunks[i]))
    && (forall i :: 0 <= i < |r.last| ==> r.last[i] == '0')
  }

  function Wire(r: Rest): string
    decreases |r.chunks|, r.begun.Some?
  {
    match r.begun
    case Some(data) => data + CRLF + Wire(r.(begun := None))
    case None =>
      if r.chunks == [] then r.last + CRLF + CRLF
      else r.chunks[0].digits + CRLF + Wire(Rest(Some(r.chunks[0].data), r.chunks[1..], r.last))
  }

  function Payload(r: Rest): string
    decreases |r.chunks|, r.begun.Some?
  {
    match r.begun
    case Some(data) => data + Payload(r.(begun := None))
    case None => if r.chunks == [] then "" else Payload(Rest(Some(r.chunks[0].data), r.chunks[1..], r.last))
  }

  /** How far n more bytes bring the body: a size line, a line end and the last chunk are taken whole, data byte by
      byte. Nothing is left once the last chunk is. */
  function Reach(r: Rest, n: nat): (p: (Option<Rest>, nat))
    ensures p.1 <= n
    decreases |r.chunks|, r.begun.Some?
  {
    match r.begun
    case Some(data) =>
      if n >= |data| + 2 then
        var (rest, m) := Reach(r.(begun := None), n - |data| - 2);
        (rest, m + |data| + 2)
      else if n > |data| then (Some(r.(begun := Some(""))), |data|)
      else (Some(r.(begun := Some(data[n..]))), n)
    case None =>
      if r.chunks == [] then
        if n >= |r.last| + 4 then (None, |r.last| + 4) else (Some(r), 0)
      else
        var line := |r.chunks[0].digits| + 2;
        if n < line then (Some(r), 0)
        else
          var (rest, m) := Reach(Rest(Some(r.chunks[0].data), r.chunks[1..], r.last), n - line);
          (rest, m + line)
  }

  /** n more bytes end inside a size line, ahead of its carriage return and behind a digit that is not 0. */
  function CutsNumber(r: Rest, n: nat): bool
    decreases |r.chunks|, r.begun.Some?
  {
    match r.begun
    case Some(data) => n >= |data| + 2 && CutsNumber(r.(begun := None), n - |data| - 2)
    case None =>
      r.chunks != [] &&
      var digits := r.chunks[0].digits;
      if n <= |digits| then exists i :: 0 <= i < n && digits[i] != '0'
      else n >= |digits| + 2 && CutsNumber(Rest(Some(r.chunks[0].data), r.chunks[1..], r.last), n - |digits| - 2)
  }

  /** The parser is where r begins. */
  predicate At(f: Fields, r: Rest) {
    !f.finished && f.parsing == match r.begun { case None => 0 case Some(data) => |data| + 2 }
  }

  lemma {:induction false} ValueGrows(v: nat, digits: string)
    ensures v <= ValueFrom(v, digits)
    decreases |digits|
  {
    if digits != "" { ValueGrows(v * 16 + HexToDec(digits[0]), digits[1..]); }
  }

  /** A size line with its line end is read whole. */
  lemma {:induction false} ScanWhole(b: string, i: nat, v: nat, digits: string)
    requires i + |digits| + 2 <= |b| && b[i..i + |digits| + 2] == digits + CRLF
    requires (forall k :: 0 <= k < |digits| ==> IsHex(digits[k])) && ValueFrom(v, digits) < MAX_CHUNK
    ensures Scan(b, i, v) == Size(ValueFrom(v, digits), i + |digits| + 2)
    decreases |digits|
  {
    ValueGrows(v, digits);
    if digits == "" {
      assert b[i..i + 2] == CRLF && b[i] == b[i..i + 2][0] && b[i + 1] == b[i..i + 2][1];
    } else {
      assert b[i] == b[i..i + |digits| + 2][0] == digits[0];
      assert b[i + 1..i + 1 + |digits[1..]| + 2] == b[i..i + |digits| + 2][1..] == digits[1..] + CRLF;
      ScanWhole(b, i + 1, v * 16 + HexToDec(digits[0]), digits[1..]);
    }
  }

  /** A buffer that ends inside a size line: behind the carriage return the parser waits, ahead of it it takes the
      digits there are for the whole number. */
  lemma {:induction false} ScanCut(b: string, i: nat, v: nat, digits: string)
    requires i <= |b| < i + |digits| + 2 && b[i..] == (digits + CRLF)[..|b| - i]
    requires (forall k :: 0 <= k < |digits| ==> IsHex(digits[k])) && ValueFrom(v, digits) < MAX_CHUNK
    ensures var n := |b| - i;
            Scan(b, i, v) == if n <= |digits| then Size(ValueFrom(v, digits[..n]), |b|) else Short
    decreases |digits|
  {
    ValueGrows(v, digits);
    var n := |b| - i;
    if n == 0 {
      assert digits[..0] == "";
    } else if digits == "" {
      assert b[i] == b[i..][0] == CRLF[0];
    } else {
      assert b[i] == b[i..][0] == digits[0];
      assert b[i + 1..] == b[i..][1..] == (digits[1..] + CRLF)[..n - 1];
      if n <= |digits| { assert digits[..n][1..] == digits[1..][..n - 1]; }
      ScanCut(b, i + 1, v * 16 + HexToDec(digits[0]), digits[1..]);
    }
  }

  lemma {:induction false} ZerosAreZero(digits: string)
    requires forall i :: 0 <= i < |digits| ==> IsHex(digits[i])
    ensures ValueFrom(0, digits) == 0 <==> forall i :: 0 <= i < |digits| ==> digits[i] == '0'
    decreases |digits|
  {
    if digits != "" {
      if digits[0] == '0' {
        ZerosAreZero(digits[1..]);
      } else {
        ValueGrows(HexToDec(digits[0]), digits[1..]);
      }
    }
  }

  /** The parser has done with r's next n bytes what it should: it is where they reach, or has finished, and the
      data is whole. */
  ghost predicate Kept(f: Fields, r: Rest, n: nat, f': Fields) {
    match Reach(r, n).0
    case None => f'.finished && f'.data == f.data + Payload(r)
    case Some(q) => At(f', q) && f'.data + Payload(q) == f.data + Payload(r)
  }

  lemma StaysPut(f: Fields, r: Rest, n: nat)
    requires At(f, r) && Reach(r, n) == (Some(r), 0)
    ensures Kept(f, r, n, f)
  {}

  lemma LastChunk(f: Fields, r: Rest, b: string, pos: nat, tail: string)
    requires Consistent(f) && At(f, r) && Ok(r) && r.begun == None && r.chunks == []
    requires pos <= |b| && b[pos..] <= Wire(r) + tail
    ensures Parsed(f, b, pos).1 == pos + Reach(r, |b| - pos).1
    ensures Kept(f, r, |b| - pos, Parsed(f, b, pos).0)
  {
    var n, w := |b| - pos, r.last + CRLF + CRLF;
    ZerosAreZero(r.last);
    assert w + tail == r.last + CRLF + (CRLF + tail);
    if n < |r.last| + 2 {
      assert b[pos..] == (r.last + CRLF)[..n];
      ScanCut(b, pos, 0, r.last);
      if n <= |r.last| { ZerosAreZero(r.last[..n]); }
      StaysPut(f, r, n);
    } else {
      assert b[pos..pos + |r.last| + 2] == b[pos..][..|r.last| + 2] == r.last + CRLF;
      ScanWhole(b, pos, 0, r.last);
      if n >= |w| {
        assert b[pos + |r.last| + 2] == b[pos..][|r.last| + 2] == w[|r.last| + 2];
        assert b[pos + |r.last| + 3] == b[pos..][|r.last| + 3] == w[|r.last| + 3];
      }
    }
  }

  lemma AtEnd(f: Fields, b: string)
    requires Consistent(f) && f.parsing != 0
    ensures Taken(f, b, |b|) == Parsed(f, b, |b|)
  {
    assert b[|b|..] == "" && f.data + b[|b|..] == f.data;
  }

  /** One feed, whatever stands behind the body: the parser consumes what it should, and is then where it should be,
      if and only if the feed does not end inside a chunk's number. */
  lemma {:induction false} Feed(f: Fields, r: Rest, b: string, pos: nat, tail: string)
    requires Consistent(f) && At(f, r) && Ok(r) && pos <= |b| && b[pos..] <= Wire(r) + tail
    ensures Parsed(f, b, pos).1 == pos + Reach(r, |b| - pos).1 <==> !CutsNumber(r, |b| - pos)
    ensures !CutsNumber(r, |b| - pos) ==> Kept(f, r, |b| - pos, Parsed(f, b, pos).0)
    decreases |r.chunks|, r.begun.Some?
  {
    if r.begun.Some? {
      FeedData(f, r, b, pos, tail);
    } else if r.chunks == [] {
      LastChunk(f, r, b, pos, tail);
    } else {
      FeedLine(f, r, b, pos, tail);
    }
  }

  lemma {:induction false} FeedData(f: Fields, r: Rest, b: string, pos: nat, tail: string)
    requires Consistent(f) && At(f, r) && Ok(r) && pos <= |b| && b[pos..] <= Wire(r) + tail && r.begun.Some?
    ensures Parsed(f, b, pos).1 == pos + Reach(r, |b| - pos).1 <==> !CutsNumber(r, |b| - pos)
    ensures !CutsNumber(r, |b| - pos) ==> Kept(f, r, |b| - pos, Parsed(f, b, pos).0)
    decreases |r.chunks|, r.begun.Some?, 1
  {
    var n, data := |b| - pos, r.begun.value;
    assert Wire(r) + tail == data + (CRLF + (Wire(r.(begun := None)) + tail));
    hide Wire;
    if n >= |data| + 2 {
      FeedChunkEnd(f, r, b, pos, tail);
    } else if n > |data| {
      FeedAllData(f, r, b, pos, tail);
    } else {
      FeedSomeData(f, r, b, pos, tail);
    }
  }

  lemma {:induction false} FeedChunkEnd(f: Fields, r: Rest, b: string, pos: nat, tail: string)
    requires Consistent(f) && At(f, r) && Ok(r) && r.begun.Some? && pos + |r.begun.value| + 2 <= |b|
    requires b[pos..] <= r.begun.value + (CRLF + (Wire(r.(begun := None)) + tail))
    ensures Parsed(f, b, pos).1 == pos + Reach(r, |b| - pos).1 <==> !CutsNumber(r, |b| - pos)
    ensures !CutsNumber(r, |b| - pos) ==> Kept(f, r, |b| - pos, Parsed(f, b, pos).0)
    decreases |r.chunks|, true, 0
  {
    hide Wire, Payload;
    var data, r' := r.begun.value, r.(begun := None);
    var next := pos + |data| + 2;
    assert b[next..] == b[pos..][|data| + 2..] <= Wire(r') + tail;
    TakesData(f, data, b, pos);
    var f' := f.(data := f.data + data, parsing := 0);
    hide Parsed;
    Feed(f', r', b, next, tail);
    DataStep(f, f', r, data);
  }

  lemma TakesData(f: Fields, data: string, b: string, pos: nat)
    requires Consistent(f) && f.parsing == |data| + 2 && pos + |data| + 2 <= |b| && data <= b[pos..]
    ensures Parsed(f, b, pos) == Parsed(f.(data := f.data + data, parsing := 0), b, pos + |data| + 2)
  {
    assert b[pos..pos + |data|] == b[pos..][..|data|] == data;
  }

  lemma DataStep(f: Fields, f': Fields, r: Rest, data: string)
    requires r.begun == Some(data) && f'.data == f.data + data
    ensures f'.data + Payload(r.(begun := None)) == f.data + Payload(r)
  {}

  lemma FeedAllData(f: Fields, r: Rest, b: string, pos: nat, tail: string)
    requires Consistent(f) && At(f, r) && r.begun.Some? && pos <= |b| && |b| - pos == |r.begun.value| + 1
    requires b[pos..] <= r.begun.value + (CRLF + tail)
    ensures Parsed(f, b, pos).1 == pos + Reach(r, |b| - pos).1
    ensures Kept(f, r, |b| - pos, Parsed(f, b, pos).0)
  {
    var data := r.begun.value;
    assert b[pos..pos + |data|] == b[pos..][..|data|] == data;
    assert Parsed(f, b, pos) == (f.(data := f.data + data, parsing := 2), pos + |data|);
    hide Parsed;
    assert f.data + data + Payload(r.(begun := Some(""))) == f.data + Payload(r);
  }

  lemma FeedSomeData(f: Fields, r: Rest, b: string, pos: nat, tail: string)
    requires Consistent(f) && At(f, r) && r.begun.Some? && pos <= |b| && |b| - pos <= |r.begun.value|
    requires b[pos..] <= r.begun.value + (CRLF + tail)
    ensures Parsed(f, b, pos).1 == pos + Reach(r, |b| - pos).1
    ensures Kept(f, r, |b| - pos, Parsed(f, b, pos).0)
  {
    var n, data := |b| - pos, r.begun.value;
    if n == 0 { AtEnd(f, b); }
    assert b[pos..] == data[..n];
    assert Parsed(f, b, pos) == (f.(data := f.data + data[..n], parsing := f.parsing - n), |b|);
    hide Parsed;
    assert f.data + data[..n] + Payload(r.(begun := Some(data[n..]))) == f.data + Payload(r);
  }

  lemma {:induction false} FeedLine(f: Fields, r: Rest, b: string, pos: nat, tail: string)
    requires Consistent(f) && At(f, r) && Ok(r) && pos <= |b| && b[pos..] <= Wire(r) + tail
    requires r.begun.None? && r.chunks != []
    ensures Parsed(f, b, pos).1 == pos + Reach(r, |b| - pos).1 <==> !CutsNumber(r, |b| - pos)
    ensures !CutsNumber(r, |b| - pos) ==> Kept(f, r, |b| - pos, Parsed(f, b, pos).0)
    decreases |r.chunks|, r.begun.Some?, 1
  {
    var digits, r' := r.chunks[0].digits, Rest(Some(r.chunks[0].data), r.chunks[1..], r.last);
    assert WellFormed(r.chunks[0]);
    assert Wire(r) + tail == digits + CRLF + (Wire(r') + tail);
    hide Wire;
    if |b| - pos < |digits| + 2 {
      FeedPartOfLine(f, r, b, pos);
    } else {
      AfterLine(f, r, b, pos, tail);
      FeedWholeLine(f, r, b, pos, tail);
    }
  }

  /** Where reading the line leads. */
  function PastLine(f: Fields, r: Rest): (Fields, Rest)
    requires r.chunks != []
  {
    var data := r.chunks[0].data;
    (f.(expected := f.expected + |data|, parsing := |data| + 2), Rest(Some(data), r.chunks[1..], r.last))
  }

  lemma {:induction false} FeedWholeLine(f: Fields, r: Rest, b: string, pos: nat, tail: string)
    requires r.begun.None? && r.chunks != [] && pos + |r.chunks[0].digits| + 2 <= |b|
    requires var (f', r') := PastLine(f, r);
      var next := pos + |r.chunks[0].digits| + 2;
      && Consistent(f') && At(f', r') && Ok(r') && b[next..] <= Wire(r') + tail
      && Consistent(f) && Parsed(f, b, pos) == Parsed(f', b, next)
    ensures Parsed(f, b, pos).1 == pos + Reach(r, |b| - pos).1 <==> !CutsNumber(r, |b| - pos)
    ensures !CutsNumber(r, |b| - pos) ==> Kept(f, r, |b| - pos, Parsed(f, b, pos).0)
    decreases |r.chunks|, false, 0
  {
    var next := pos + |r.chunks[0].digits| + 2;
    var (f', r') := PastLine(f, r);
    LineAhead(r, |b| - pos);
    hide Wire, Parsed, Reach, CutsNumber, Payload, Kept, Consistent, At, Ok, WellFormed;
    Feed(f', r', b, next, tail);
    SameKept(f, r, f', r', |b| - pos, |b| - next, Parsed(f', b, next).0);
  }

  lemma SameKept(f: Fields, r: Rest, f': Fields, r': Rest, n: nat, n': nat, g: Fields)
    requires Reach(r, n).0 == Reach(r', n').0 && Payload(r) == Payload(r') && f.data == f'.data
    ensures Kept(f, r, n, g) <==> Kept(f', r', n', g)
  {}

  lemma AfterLine(f: Fields, r: Rest, b: string, pos: nat, tail: string)
    requires Consistent(f) && At(f, r) && Ok(r) && r.begun.None? && r.chunks != []
    requires pos + |r.chunks[0].digits| + 2 <= |b|
    requires b[pos..] <= r.chunks[0].digits + CRLF + (Wire(Rest(Some(r.chunks[0].data), r.chunks[1..], r.last)) + tail)
    ensures var (f', r') := PastLine(f, r);
      var next := pos + |r.chunks[0].digits| + 2;
      && Consistent(f') && At(f', r') && Ok(r') && b[next..] <= Wire(r') + tail
      && Parsed(f, b, pos) == Parsed(f', b, next)
  {
    hide Wire;
    assert WellFormed(r.chunks[0]);
    Dropped(b, pos, r.chunks[0].digits + CRLF, Wire(Rest(Some(r.chunks[0].data), r.chunks[1..], r.last)) + tail);
    TakesLine(f, r.chunks[0], b, pos);
    hide Parsed, WellFormed;
  }

  lemma LineAhead(r: Rest, n: nat)
    requires r.begun.None? && r.chunks != [] && n >= |r.chunks[0].digits| + 2
    ensures var r', m := Rest(Some(r.chunks[0].data), r.chunks[1..], r.last), |r.chunks[0].digits| + 2;
      && Reach(r, n) == (Reach(r', n - m).0, Reach(r', n - m).1 + m)
      && CutsNumber(r, n) == CutsNumber(r', n - m) && Payload(r) == Payload(r')
  {}

  lemma Dropped(b: string, pos: nat, front: string, rest: string)
    requires pos + |front| <= |b| && b[pos..] <= front + rest
    ensures front <= b[pos..] && b[pos + |front|..] <= rest
  {
    assert b[pos + |front|..] == b[pos..][|front|..];
    assert (front + rest)[|front|..] == rest;
  }

  lemma TakesLine(f: Fields, c: Chunk, b: string, pos: nat)
    requires Consistent(f) && f.parsing == 0 && WellFormed(c) && pos + |c.digits| + 2 <= |b| && c.digits + CRLF <= b[pos..]
    ensures Parsed(f, b, pos)
         == Parsed(f.(expected := f.expected + |c.data|, parsing := |c.data| + 2), b, pos + |c.digits| + 2)
  {
    var next := pos + |c.digits| + 2;
    ScanChunk(b, pos, c);
    hide Spells, Scan;
    LineTaken(f, b, pos, |c.data|, next);
  }

  lemma ScanChunk(b: string, pos: nat, c: Chunk)
    requires WellFormed(c) && pos + |c.digits| + 2 <= |b| && c.digits + CRLF <= b[pos..]
    ensures Scan(b, pos, 0) == Size(|c.data|, pos + |c.digits| + 2)
  {
    SpelledIsRead(c.digits, |c.data|);
    hide Spells, ValueFrom, IsHex, Scan;
    assert b[pos..pos + |c.digits| + 2] == b[pos..][..|c.digits| + 2] == c.digits + CRLF;
    ScanWhole(b, pos, 0, c.digits);
  }

  lemma LineTaken(f: Fields, b: string, pos: nat, v: nat, next: nat)
    requires Consistent(f) && f.parsing == 0 && pos < next <= |b| && v > 0 && Scan(b, pos, 0) == Size(v, next)
    ensures Parsed(f, b, pos) == Parsed(f.(expected := f.expected + v, parsing := v + 2), b, next)
  {
    hide Scan;
    if next == |b| { AtEnd(f.(expected := f.expected + v, parsing := v + 2), b); }
  }

  lemma FeedPartOfLine(f: Fields, r: Rest, b: string, pos: nat)
    requires Consistent(f) && At(f, r) && r.begun.None? && r.chunks != [] && WellFormed(r.chunks[0])
    requires pos <= |b| && |b| - pos < |r.chunks[0].digits| + 2 && b[pos..] == (r.chunks[0].digits + CRLF)[..|b| - pos]
    ensures Parsed(f, b, pos).1 == pos + Reach(r, |b| - pos).1 <==> !CutsNumber(r, |b| - pos)
    ensures !CutsNumber(r, |b| - pos) ==> Kept(f, r, |b| - pos, Parsed(f, b, pos).0)
  {
    var n := |b| - pos;
    PartScanned(r.chunks[0], b, pos);
    hide WellFormed, Spells, ValueFrom, IsHex, Scan;
    if !CutsNumber(r, n) { StaysPut(f, r, n); }
  }

  /** Part of a line: nothing to be read yet, zeros, or a number cut in two. */
  lemma PartScanned(c: Chunk, b: string, pos: nat)
    requires WellFormed(c) && pos <= |b| && |b| - pos < |c.digits| + 2 && b[pos..] == (c.digits + CRLF)[..|b| - pos]
    ensures var n := |b| - pos;
      if n <= |c.digits| then
        Scan(b, pos, 0).Size? && Scan(b, pos, 0).next == |b|
        && (Scan(b, pos, 0).value > 0 <==> exists i :: 0 <= i < n && c.digits[i] != '0')
      else Scan(b, pos, 0).Short?
  {
    var n, digits := |b| - pos, c.digits;
    SpelledIsRead(digits, |c.data|);
    ScanCut(b, pos, 0, digits);
    if n <= |digits| { PartOfNumber(digits, n); }
    hide Spells, ValueFrom, IsHex, Scan;
  }

  lemma PartOfNumber(digits: string, n: nat)
    requires n <= |digits| && forall i :: 0 <= i < |digits| ==> IsHex(digits[i])
    ensures ValueFrom(0, digits[..n]) > 0 <==> exists i :: 0 <= i < n && digits[i] != '0'
  {
    ZerosAreZero(digits[..n]);
    hide ValueFrom, IsHex;
    assert forall i :: 0 <= i < n ==> digits[..n][i] == digits[i];
  }

  /** Reaching is splitting: what is reached and what is left make up the body. */
  ghost predicate Splits(r: Rest, n: nat) {
    var (q, c) := Reach(r, n);
    && c <= |Wire(r)| && (q == None <==> n >= |Wire(r)|)
    && (q == None ==> c == |Wire(r)|)
    && (q.Some? ==> Wire(r)[c..] == Wire(q.value) && (Ok(r) ==> Ok(q.value)))
  }

  /** A part of the wire that is taken whole. */
  lemma SplitsBehind(r: Rest, n: nat, part: string, r': Rest, m: nat)
    requires Wire(r) == part + Wire(r') && Splits(r', m) && n == m + |part| && (Ok(r) ==> Ok(r'))
    requires Reach(r, n) == (Reach(r', m).0, Reach(r', m).1 + |part|)
    ensures Splits(r, n)
  {
    hide Wire, Reach;
    var c := Reach(r', m).1;
    assert Wire(r)[c + |part|..] == Wire(r')[c..];
  }

  lemma {:induction false} ReachWire(r: Rest, n: nat)
    ensures Splits(r, n)
    decreases |r.chunks|, r.begun.Some?
  {
    match r.begun
    case Some(data) => ReachData(r, n);
    case None => if r.chunks != [] { ReachLine(r, n); }
  }

  lemma {:induction false} ReachData(r: Rest, n: nat)
    requires r.begun.Some?
    ensures Splits(r, n)
    decreases |r.chunks|, r.begun.Some?, 1
  {
    var data, r' := r.begun.value, r.(begun := None);
    assert Wire(r) == (data + CRLF) + Wire(r');
    if n >= |data| + 2 {
      ReachWire(r', n - |data| - 2);
      SplitsBehind(r, n, data + CRLF, r', n - |data| - 2);
    } else {
      var c := if n > |data| then |data| else n;
      assert Wire(r)[c..] == data[c..] + CRLF + Wire(r');
      assert n > |data| ==> data[c..] == "";
    }
  }

  lemma {:induction false} ReachLine(r: Rest, n: nat)
    requires r.begun.None? && r.chunks != []
    ensures Splits(r, n)
    decreases |r.chunks|, r.begun.Some?, 1
  {
    var line, r' := r.chunks[0].digits + CRLF, Rest(Some(r.chunks[0].data), r.chunks[1..], r.last);
    assert Wire(r) == line + Wire(r');
    if n >= |line| {
      ReachWire(r', n - |line|);
      SplitsBehind(r, n, line, r', n - |line|);
    }
  }

  /** Whether a later cut falls inside a number does not depend on how far the parser has come. */
  lemma {:induction false} CutsAhead(r: Rest, n: nat, k: nat)
    ensures var (q, c) := Reach(r, n); q.Some? ==> CutsNumber(q.value, k) == CutsNumber(r, c + k)
    decreases |r.chunks|, r.begun.Some?
  {
    match r.begun
    case Some(data) =>
      if n >= |data| + 2 { CutsAhead(r.(begun := None), n - |data| - 2, k); }
    case None =>
      if r.chunks != [] {
        var line, r' := |r.chunks[0].digits| + 2, Rest(Some(r.chunks[0].data), r.chunks[1..], r.last);
        if n >= line { CutsAhead(r', n - line, k); }
      }
  }

  function Joined(pieces: seq<string>): string { if pieces == [] then "" else pieces[0] + Joined(pieces[1..]) }

  /** Feeding a body as pieces come (connection.cpp lines 189-228): unconsumed bytes are kept and fed again in front
      of the next piece, until the body is finished. None when the parser reports an error. */
  function Fed(f: Fields, cache: string, pieces: seq<string>): Option<(Fields, string)>
    requires Consistent(f)
    decreases |pieces|
  {
    if pieces == [] then Some((f, cache)) else
    var b := cache + pieces[0];
    if f.finished then Fed(f, b, pieces[1..]) else
    var (f', c) := Parsed(f, b, 0);
    if c == -1 then None else Fed(f', b[c..], pieces[1..])
  }

  lemma {:induction false} FedWhenFinished(f: Fields, cache: string, pieces: seq<string>)
    requires Consistent(f) && f.finished
    ensures Fed(f, cache, pieces) == Some((f, cache + Joined(pieces)))
    decreases |pieces|
  {
    if pieces == [] {
      assert cache + "" == cache;
    } else {
      FedWhenFinished(f, cache + pieces[0], pieces[1..]);
      assert cache + pieces[0] + Joined(pieces[1..]) == cache + Joined(pieces);
    }
  }

  lemma CutsStayOk(r: Rest, n: nat, cached: nat, pieces: seq<string>)
    requires pieces != [] && n == cached + |pieces[0]|
    requires forall i :: 0 < i <= |pieces| ==> !CutsNumber(r, cached + |Joined(pieces[..i])|)
    ensures var (q, c) := Reach(r, n); var later := pieces[1..];
            q.Some? ==> forall i :: 0 < i <= |later| ==> !CutsNumber(q.value, n - c + |Joined(later[..i])|)
  {
    hide CutsNumber, Reach;
    var (q, c) := Reach(r, n);
    var later := pieces[1..];
    if q.Some? {
      forall i | 0 < i <= |later| ensures !CutsNumber(q.value, n - c + |Joined(later[..i])|) {
        CutsAhead(r, n, n - c + |Joined(later[..i])|);
        assert pieces[..i + 1] == [pieces[0]] + later[..i] && pieces[..i + 1][1..] == later[..i];
      }
    }
  }

  lemma DropBoth(b: string, x: string, w: string, tail: string, c: nat)
    requires b + x == w + tail && c <= |b| && c <= |w|
    ensures b[c..] + x == w[c..] + tail
  {
    assert b[c..] + x == (b + x)[c..];
  }

  lemma OneFeed(f: Fields, r: Rest, b: string, x: string, tail: string)
    requires Consistent(f) && At(f, r) && Ok(r) && b + x == Wire(r) + tail && !CutsNumber(r, |b|)
    ensures var (f', c) := Parsed(f, b, 0);
            && 0 <= c == Reach(r, |b|).1
            && match Reach(r, |b|).0 {
                 case None => f'.finished && f'.data == f.data + Payload(r) && b[c..] + x == tail
                 case Some(q) => At(f', q) && Ok(q) && f'.data + Payload(q) == f.data + Payload(r)
                                 && b[c..] + x == Wire(q) + tail && |b| < |Wire(r)|
               }
  {
    hide Wire, Payload, CutsNumber, Reach;
    assert b[0..] == b && b == (b + x)[..|b|];
    Feed(f, r, b, 0, tail);
    ReachWire(r, |b|);
    hide Parsed;
    DropBoth(b, x, Wire(r), tail, Reach(r, |b|).1);
  }

  lemma {:induction false} FedFrom(f: Fields, r: Rest, cache: string, pieces: seq<string>, tail: string)
    requires Consistent(f) && At(f, r) && Ok(r) && pieces != []
    requires cache + Joined(pieces) == Wire(r) + tail
    requires forall i :: 0 < i <= |pieces| ==> !CutsNumber(r, |cache| + |Joined(pieces[..i])|)
    ensures Fed(f, cache, pieces).Some?
    ensures var (f', left) := Fed(f, cache, pieces).value;
            f'.finished && f'.data == f.data + Payload(r) && left == tail
    decreases |pieces|
  {
    hide Wire, Payload, CutsNumber, Reach, Parsed, At, Ok;
    var b, later := cache + pieces[0], pieces[1..];
    assert b + Joined(later) == Wire(r) + tail;
    assert !CutsNumber(r, |b|) by { assert Joined(pieces[..1]) == pieces[0] + Joined([]) == pieces[0]; }
    OneFeed(f, r, b, Joined(later), tail);
    var (f', c) := Parsed(f, b, 0);
    assert !f.finished by { AtIsUnfinished(f, r); }
    match Reach(r, |b|).0
    case None => FedWhenFinished(f', b[c..], later);
    case Some(q) =>
      assert |b| + |Joined(later)| == |Wire(r)| + |tail|;
      CutsStayOk(r, |b|, |cache|, pieces);
      FedFrom(f', q, b[c..], later, tail);
  }

  lemma AtIsUnfinished(f: Fields, r: Rest)
    requires At(f, r)
    ensures !f.finished
  {}

  /** A body cut into feeds anywhere but inside a chunk's number comes out as its chunks in order, and leaves the
      bytes behind it alone. */
  lemma AnyCut(r: Rest, pieces: seq<string>, tail: string)
    requires Ok(r) && r.begun == None && pieces != [] && Joined(pieces) == Wire(r) + tail
    requires forall i :: 0 < i < |pieces| ==> !CutsNumber(r, |Joined(pieces[..i])|)
    ensures Fed(Fields("", 0, 0, false), "", pieces).Some?
    ensures var (f, left) := Fed(Fields("", 0, 0, false), "", pieces).value;
            f.finished && f.data == Payload(r) && left == tail
  {
    assert "" + Joined(pieces) == Joined(pieces) && "" + Payload(r) == Payload(r);
    assert pieces[..|pieces|] == pieces;
    WholeIsSafe(r, |Joined(pieces)|);
    FedFrom(Fields("", 0, 0, false), r, "", pieces, tail);
  }

  /** What is written for a number spells it, and so does the same in upper case. */
  lemma {:induction false} HexSpells(n: nat)
    ensures Spells(Hex(n), n) && Spells(InUpper(Hex(n)), n)
  {
    var c := HexDigit(n % 16);
    if n < 16 {
      assert Hex(n) == "" + [c];
      MoreSpells("", c, n);
    } else {
      HexSpells(n / 16);
      MoreSpells(Hex(n / 16), c, n);
    }
  }

  lemma MoreSpells(front: string, c: char, n: nat)
    requires Spells(front, n / 16) && Spells(InUpper(front), n / 16) && c == HexDigit(n % 16)
    ensures Spells(front + [c], n) && Spells(InUpper(front + [c]), n)
  {
    DigitIsWritten(n % 16);
    var u := InUpper(front + [c]);
    assert (front + [c])[..|front|] == front && u[..|front|] == InUpper(front);
    hide HexDigit, DigitIs, UpperOf;
  }

  lemma DigitIsWritten(d: nat)
    requires d < 16
    ensures DigitIs(HexDigit(d), d) && DigitIs(UpperOf(HexDigit(d)), d)
  {}

  function InUpper(s: string): (r: string)
    ensures |r| == |s| && forall i :: 0 <= i < |s| ==> r[i] == UpperOf(s[i])
  {
    seq(|s|, i requires 0 <= i < |s| => UpperOf(s[i]))
  }

  function UpperOf(c: char): char { if 'a' <= c <= 'z' then c - 'a' + 'A' else c }

  /** A number of a megabyte or more is refused, at its carriage return at the latest. */
  lemma {:induction false} ScanTooLong(b: string, i: nat, v: nat, digits: string)
    requires i + |digits| < |b| && b[i..i + |digits|] == digits && ValueFrom(v, digits) >= MAX_CHUNK
    requires forall k :: 0 <= k < |digits| ==> IsHex(digits[k])
    ensures Scan(b, i, v) == Bad
    decreases |digits|
  {
    if v < MAX_CHUNK {
      assert digits != "";
      assert b[i] == b[i..i + |digits|][0] == digits[0];
      assert b[i + 1..i + 1 + |digits[1..]|] == b[i..i + |digits|][1..] == digits[1..];
      ScanTooLong(b, i + 1, v * 16 + HexToDec(digits[0]), digits[1..]);
    }
  }

  /** What `serialize` writes for a body, with an empty body's behind it to end it, is read back as that body, if and
      only if it is shorter than a megabyte; otherwise it is refused. */
  lemma SerializedIsRead(data: string, tail: string)
    requires data != ""
    ensures var b := AsChunk(data) + AsChunk("") + tail;
            var (f, n) := Parsed(Fields("", 0, 0, false), b, 0);
            if |data| < 0x10_0000 then f.finished && f.data == data && n >= 0 && b[n..] == tail
            else n == -1
  {
    assert Hex(0) == "0" && AsChunk("") == "0" + CRLF + CRLF;
    if |data| < 0x10_0000 { ShortIsRead(data, tail); } else { LongIsRefused(data, tail); }
    hide Parsed, AsChunk;
  }

  lemma ShortIsRead(data: string, tail: string)
    requires data != "" && |data| < MAX_CHUNK && AsChunk("") == "0" + CRLF + CRLF
    ensures var b := AsChunk(data) + AsChunk("") + tail;
            var (f, n) := Parsed(Fields("", 0, 0, false), b, 0);
            f.finished && f.data == data && n >= 0 && b[n..] == tail
  {
    HexSpells(|data|);
    var c, b := Chunk(Hex(|data|), data), AsChunk(data) + AsChunk("") + tail;
    assert WellFormed(c) && b == c.digits + CRLF + data + CRLF + AsChunk("") + tail;
    hide AsChunk, WellFormed, Hex, Parsed;
    Regroup(c.digits, CRLF, data, CRLF, AsChunk(""), tail);
    OneChunkIsRead(c, b, tail);
  }

  lemma Regroup(a: string, b: string, c: string, d: string, e: string, f: string)
    ensures a + b + c + d + e + f == a + b + (c + d + e) + f
  {}

  lemma OneChunkIsRead(c: Chunk, b: string, tail: string)
    requires WellFormed(c) && b == c.digits + CRLF + (c.data + CRLF + ("0" + CRLF + CRLF)) + tail
    ensures var (f, n) := Parsed(Fields("", 0, 0, false), b, 0);
            f.finished && f.data == c.data && n == |b| - |tail| && b[n..] == tail
  {
    var r := Rest(None, [c], "0");
    OneChunk(r);
    assert Ok(r) && b == Wire(r) + tail && Payload(r) == c.data;
    hide WellFormed, Ok;
    WholeBody(r, b, tail);
    hide Parsed, Wire, Payload;
  }

  lemma WholeBody(r: Rest, b: string, tail: string)
    requires Ok(r) && r.begun == None && b == Wire(r) + tail
    ensures var (f, n) := Parsed(Fields("", 0, 0, false), b, 0);
            f.finished && f.data == Payload(r) && n == |b| - |tail| && b[n..] == tail
  {
    hide Wire, Payload, Parsed, CutsNumber, Ok, Reach;
    WholeIsSafe(r, |b|);
    assert b + "" == b && "" + Payload(r) == Payload(r);
    OneFeed(Fields("", 0, 0, false), r, b, "", tail);
  }

  lemma LongIsRefused(data: string, tail: string)
    requires |data| >= MAX_CHUNK
    ensures Parsed(Fields("", 0, 0, false), AsChunk(data) + AsChunk("") + tail, 0).1 == -1
  {
    HexSpells(|data|);
    SpelledIsRead(Hex(|data|), |data|);
    var b, digits := AsChunk(data) + AsChunk("") + tail, Hex(|data|);
    assert b == digits + CRLF + data + CRLF + AsChunk("") + tail;
    hide AsChunk, Hex, Spells, ValueFrom, IsHex;
    assert b[0..0 + |digits|] == digits;
    ScanTooLong(b, 0, 0, digits);
    hide Scan;
  }

  /** A chunk whose size is written with a letter, in either case. */
  lemma TenBytes(size: string)
    requires size == "A" || size == "a" || size == "0A"
    ensures var b := size + "\r\n0123456789\r\n0\r\n\r\n";
            var (f, n) := Parsed(Fields("", 0, 0, false), b, 0);
            f.finished && f.data == "0123456789" && n == |b|
  {
    var data := "0123456789";
    var b := size + "\r\n0123456789\r\n0\r\n\r\n";
    TenIsSpelled(size);
    TenWritten(size, b);
    hide Spells, Parsed;
    OneChunkIsRead(Chunk(size, data), b, "");
  }

  lemma TenWritten(size: string, b: string)
    requires b == size + "\r\n0123456789\r\n0\r\n\r\n"
    ensures b == size + CRLF + ("0123456789" + CRLF + ("0" + CRLF + CRLF)) + ""
  {
    var rest := "0123456789" + CRLF + ("0" + CRLF + CRLF);
    assert "\r\n0123456789\r\n0\r\n\r\n" == CRLF + rest;
    assert size + (CRLF + rest) == size + CRLF + rest;
  }

  lemma TenIsSpelled(size: string)
    requires size == "A" || size == "a" || size == "0A"
    ensures Spells(size, 10)
  {
    var front := size[..|size| - 1];
    assert front == "" || front == "0";
    assert front == "0" ==> front[..0] == "" && DigitIs('0', 0) && Spells(front, 0);
    assert Spells("", 0);
  }

  lemma OneChunk(r: Rest)
    requires r.begun == None && |r.chunks| == 1
    ensures var c := r.chunks[0];
            Wire(r) == c.digits + CRLF + (c.data + CRLF + (r.last + CRLF + CRLF)) && Payload(r) == c.data
  {
    var r1 := Rest(Some(r.chunks[0].data), [], r.last);
    assert Wire(r1) == r1.begun.value + CRLF + Wire(r1.(begun := None));
    assert Payload(r1) == r1.begun.value + Payload(r1.(begun := None)) == r1.begun.value;
    assert r.chunks[1..] == [];
  }

  /** A feed that has the whole body cuts no number. */
  lemma {:induction false} WholeIsSafe(r: Rest, n: nat)
    requires n >= |Wire(r)|
    ensures !CutsNumber(r, n)
    decreases |r.chunks|, r.begun.Some?
  {
    match r.begun
    case Some(data) => WholeIsSafe(r.(begun := None), n - |data| - 2);
    case None =>
      if r.chunks != [] {
        WholeIsSafe(Rest(Some(r.chunks[0].data), r.chunks[1..], r.last), n - |r.chunks[0].digits| - 2);
      }
  }

  /** A chunk of sixteen bytes with its size line cut behind the 1: the parser takes it for one of a single byte,
      then looks for a size line inside the data, and here finds none. */
  lemma CutNumberFails(data: string, last: string)
    requires |data| == 16 && data[0] == '\r' && data[1] != '\n'
    requires forall i :: 0 <= i < |last| ==> last[i] == '0'
    ensures var r := Rest(None, [Chunk("10", data)], last);
            var later := "0" + CRLF + (data + CRLF + (last + CRLF + CRLF));
            && Ok(r) && "1" + later == Wire(r) && CutsNumber(r, 1)
            && Fed(Fields("", 0, 0, false), "", ["1", later]) == None
  {
    var r := Rest(None, [Chunk("10", data)], last);
    var later := "0" + CRLF + (data + CRLF + (last + CRLF + CRLF));
    OneChunk(r);
    assert ValueFrom(0, "10") == ValueFrom(1, "0") == 16;
    assert "10"[..1] == "1" && ValueFrom(0, "1") == ValueFrom(1, "") == 1;
    assert "1" + later == Wire(r);
    var f, f1 := Fields("", 0, 0, false), Fields("", 1, 3, false);
    FirstPiece(f, "1");
    SecondPiece(f1, later);
    hide Parsed;
    assert "" + "1" == "1" && "1"[1..] == "" && "" + later == later;
    assert ["1", later][1..] == [later];
  }

  lemma FirstPiece(f: Fields, b: string)
    requires f == Fields("", 0, 0, false) && b == "1"
    ensures Parsed(f, b, 0) == (Fields("", 1, 3, false), 1)
  {
    assert Scan(b, 0, 0) == Scan(b, 1, 1) == Size(1, 1);
    assert "" + b[1..] == "";
  }

  lemma SecondPiece(f: Fields, b: string)
    requires f == Fields("", 1, 3, false) && |b| > 4 && b[3] == '\r' && b[4] != '\n'
    ensures Parsed(f, b, 0).1 == -1
  {
    var f' := f.(data := f.data + b[0..1], parsing := 0);
    assert Parsed(f, b, 0) == Taken(f, b, 0) == Parsed(f', b, 3);
    assert Scan(b, 3, 0) == Bad;
  }
}
