/** The incremental body parser (src/proto/http/body.cpp). Bytes are characters; sizes are unbounded numbers. */
module ChunkedBody {
  const MAX_CHUNK: int := 1048576

  /** `hex_to_dec`: whatever is not a hexadecimal digit counts as 0. */
  function HexToDec(c: char): (d: nat)
    ensures d < 16
  {
    if '0' <= c <= '9' then c as int - '0' as int
    else if 'a' <= c <= 'f' then c as int - 'a' as int + 10
    else if 'A' <= c <= 'F' then c as int - 'A' as int + 10
    else 0
  }

  function HexDigit(d: nat): char
    requires d < 16
  {
    "0123456789abcdef"[d]
  }

  /** `%zx`. */
  function Hex(n: nat): string { if n < 16 then [HexDigit(n)] else Hex(n / 16) + [HexDigit(n % 16)] }

  function AsChunk(data: string): string { Hex(|data|) + "\r\n" + data + "\r\n" }

  /** What the fields of a body hold. */
  datatype Fields = Fields(data: string, expected: int, parsing: int, finished: bool)

  /** Bytes of the current chunk still to come; 2 more in `parsing` are for the line end behind them. */
  function Outstanding(f: Fields): int { if f.parsing == 0 then 0 else f.parsing - 2 }

  predicate Consistent(f: Fields) {
    (f.parsing == 0 || f.parsing >= 2) && |f.data| + Outstanding(f) == f.expected
  }

  datatype Line = Bad | Short | Size(value: nat, next: nat)

  /** The size line from i on, v being the value of the digits before i (lines 84-100): a line that runs off the
      end of the buffer ahead of its carriage return counts as read. */
  function Scan(b: string, i: nat, v: nat): (r: Line)
    requires i <= |b|
    ensures r.Size? ==> i <= r.next <= |b| && (i < |b| ==> i < r.next)
    decreases |b| - i
  {
    if i == |b| then Size(v, i)
    else if v >= MAX_CHUNK then Bad
    else if b[i] == '\r' then
      if i + 2 > |b| then Short else if b[i + 1] != '\n' then Bad else Size(v, i + 2)
    else Scan(b, i + 1, v * 16 + HexToDec(b[i]))
  }

  /** What parsing b from pos on leaves in the fields, and how many bytes it consumed or -1. */
  function Parsed(f: Fields, b: string, pos: nat): (r: (Fields, int))
    requires pos <= |b| && Consistent(f)
    ensures Consistent(r.0) && (r.1 == -1 || pos <= r.1 <= |b|)
    ensures !f.finished && r.0.finished ==> |r.0.data| == r.0.expected
    decreases |b| - pos, 1
  {
    if pos == |b| then (f, pos)
    else if f.parsing != 0 then Taken(f, b, pos)
    else
      match Scan(b, pos, 0)
      case Bad => (f, -1)
      case Short => (f, pos)
      case Size(v, next) =>
        if v == 0 then
          if next + 2 > |b| then (f, pos)
          else if b[next] != '\r' || b[next + 1] != '\n' then (f, -1)
          else (f.(finished := true), next + 2)
        else Taken(f.(expected := f.expected + v, parsing := v + 2), b, next)
  }

  /** Lines 133-155. */
  function Taken(f: Fields, b: string, pos: nat): (r: (Fields, int))
    requires pos <= |b| && Consistent(f) && f.parsing != 0
    ensures Consistent(r.0) && (r.1 == -1 || pos <= r.1 <= |b|)
    ensures !f.finished && r.0.finished ==> |r.0.data| == r.0.expected
    decreases |b| - pos, 0
  {
    var left := |b| - pos;
    if left >= f.parsing then
      Parsed(f.(data := f.data + b[pos..pos + f.parsing - 2], parsing := 0), b, pos + f.parsing)
    else if left <= f.parsing - 2 then (f.(data := f.data + b[pos..], parsing := f.parsing - left), |b|)
    else (f.(data := f.data + b[pos..pos + f.parsing - 2], parsing := 2), pos + f.parsing - 2)
  }

  /** The line end behind a chunk is only taken whole. */
  lemma Waits(f: Fields, b: string, pos: nat)
    requires pos <= |b| < pos + 2 && Consistent(f) && f.parsing == 2
    ensures Taken(f, b, pos) == (f, pos) && Parsed(f, b, pos) == (f, pos)
  {
    assert b[pos..pos] == "" && f.data + b[pos..pos] == f.data;
    assert pos == |b| ==> b[pos..] == "" && f.data + b[pos..] == f.data;
  }

  class Body {
    var chunked: bool
    var data: string
    var expectedSize: int
    var parsingChunkSize: int
    var parseFinished: bool

    ghost function Now(): Fields
      reads this
    {
      Fields(data, expectedSize, parsingChunkSize, parseFinished)
    }

    constructor ()
      ensures Now() == Fields("", 0, 0, false) && !chunked
    {
      chunked, data, expectedSize, parsingChunkSize, parseFinished := false, "", 0, 0, false;
    }

    method SetChunked()
      modifies this`chunked
      ensures chunked
    {
      chunked := true;
    }

    method SetExpectedSize(size: nat)
      modifies this`expectedSize
      ensures expectedSize == size
    {
      expectedSize := size;
    }

    /** `serialize`: as one chunk, or as it is; and the number of bytes that adds. */
    method Serialize(buf: string) returns (buf': string, size: nat)
      ensures buf' == buf + if chunked then AsChunk(data) else data
      ensures |buf'| == |buf| + size
    {
      if chunked {
        var line := Hex(|data|) + "\r\n";
        size := |line|;
        buf' := buf + line + data + "\r\n";
        size := size + |data| + 2;
        assert buf' == buf + AsChunk(data);
      } else if data == "" {
        buf', size := buf, 0;
      } else {
        buf', size := buf + data, |data|;
      }
    }

    /** `__parse_by_length`. */
    method ParseByLength(b: string) returns (n: int)
      requires |data| <= expectedSize
      modifies this`data, this`parseFinished
      ensures 0 <= n <= |b| && data == old(data) + b[..n] && |data| <= expectedSize
      ensures n == |b| || |data| == expectedSize
      ensures parseFinished == (old(parseFinished) || |data| == expectedSize)
    {
      n := expectedSize - |data|;
      if n > |b| { n := |b|; }
      data := data + b[..n];
      if |data| == expectedSize { parseFinished := true; }
    }

    static method ReadSize(b: string, pos: nat) returns (r: Line)
      requires pos < |b|
      ensures r == Scan(b, pos, 0)
    {
      var sizePos: nat, chunkSize: nat := pos, 0;
      while sizePos < |b|
        invariant pos <= sizePos <= |b|
        invariant Scan(b, sizePos, chunkSize) == Scan(b, pos, 0)
      {
        if chunkSize >= MAX_CHUNK { return Bad; }
        if b[sizePos] == '\r' {
          if sizePos + 2 > |b| { return Short; }
          if b[sizePos + 1] != '\n' { return Bad; }
          return Size(chunkSize, sizePos + 2);
        }
        chunkSize := chunkSize * 16 + HexToDec(b[sizePos]);
        sizePos := sizePos + 1;
      }
      r := Size(chunkSize, sizePos);
    }

    /** Lines 133-155; `stop` is the break of line 143. */
    method TakeChunk(b: string, pos: nat) returns (pos': nat, stop: bool)
      requires pos <= |b| && Consistent(Now()) && parsingChunkSize != 0
      modifies this`data, this`parsingChunkSize
      ensures pos <= pos' <= |b| && Consistent(Now())
      ensures if stop then (Now(), pos') == Taken(old(Now()), b, pos)
              else Parsed(Now(), b, pos') == Taken(old(Now()), b, pos)
      ensures !stop && pos < |b| ==> pos < pos'
    {
      var left := |b| - pos;
      var diff := left - parsingChunkSize;
      pos', stop := pos, false;
      ghost var f := Now();
      if diff >= 0 {
        if parsingChunkSize > 2 { data := data + b[pos..pos + parsingChunkSize - 2]; }
        assert data == f.data + b[pos..pos + parsingChunkSize - 2];
        pos' := pos + parsingChunkSize;
        parsingChunkSize := 0;
      } else if parsingChunkSize == 2 {
        Waits(f, b, pos);
        stop := true;
      } else if 2 <= -diff {
        assert b[pos..] == b[pos..pos + left];
        data := data + b[pos..pos + left];
        pos' := pos + left;
        parsingChunkSize := parsingChunkSize - left;
      } else {
        data := data + b[pos..pos + parsingChunkSize - 2];
        pos' := pos + parsingChunkSize - 2;
        parsingChunkSize := 2;
        Waits(Now(), b, pos');
      }
    }

    /** `__parse_by_chunk`. */
    method ParseByChunk(b: string) returns (n: int)
      requires Consistent(Now())
      modifies this`data, this`expectedSize, this`parsingChunkSize, this`parseFinished
      ensures (Now(), n) == Parsed(old(Now()), b, 0)
    {
      var pos := 0;
      ghost var result := Parsed(Now(), b, 0);
      while pos < |b|
        invariant 0 <= pos <= |b| && Consistent(Now())
        invariant Parsed(Now(), b, pos) == result
        decreases |b| - pos
      {
        if parsingChunkSize == 0 {
          var line := ReadSize(b, pos);
          if line.Bad? { return -1; }
          if line.Short? { return pos; }
          expectedSize := expectedSize + line.value;
          parsingChunkSize := line.value;
          if parsingChunkSize == 0 {
            if line.next + 2 > |b| { break; }
            if b[line.next] != '\r' || b[line.next + 1] != '\n' { return -1; }
            assert |data| == expectedSize;
            pos := line.next + 2;
            parseFinished := true;
            break;
          }
          parsingChunkSize := parsingChunkSize + 2;
          pos := line.next;
        }
        var stop;
        pos, stop := TakeChunk(b, pos);
        if stop { break; }
      }
      n := pos;
    }
  }
}
