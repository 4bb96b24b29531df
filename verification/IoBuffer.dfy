/** The byte buffer of src/toolkit/buffer.cpp: a window of an array that moves right as bytes are read and is moved
    back, or to a bigger array, when a write finds no room behind it.

    `written` is everything written since the buffer was last reset and `at` how much of it has been passed; what
    the buffer holds is the rest, and in front of it some of what was passed, as far as it can still be given back. */
module IoBuffer {
  type Byte = bv8

  const INT32_MAX: int := 0x7FFF_FFFF

  /** The array that replaces one of `old` bytes when `more` find no room (line 109). */
  function Grown(raw: nat, more: nat): nat { (raw + more) / 2 * 3 }

  /** It holds what the old one held and the new bytes, wherever the window stands. */
  lemma GrownFits(raw: nat, more: nat, rpos: nat, size: nat)
    requires rpos + size <= raw && 0 < raw && 0 < more
    ensures rpos + size + more <= Grown(raw, more)
  {}

  /** The length of the array once there is room for n more bytes in it, the window standing at rpos (lines 93-123):
      the array grows only when they fit neither behind the window nor, strictly, behind one moved to its start. */
  function LengthFor(raw: nat, rpos: nat, size: nat, n: nat): nat {
    var start := if rpos == raw then 0 else rpos;
    if raw == 0 then n else if start + size + n > raw && size + n >= raw then Grown(raw, n) else raw
  }

  class Buffer {
    const alloced: bool
    var raw: array<Byte>
    var rpos: nat
    var size: nat
    ghost var written: seq<Byte>
    ghost var at: nat

    /** Lengths of the array and the window are `int32_t` where they are shifted and compared. */
    ghost predicate Valid()
      reads this, raw
    {
      && rpos + size <= raw.Length <= INT32_MAX
      && rpos <= at && at + size == |written|
      && raw[..rpos + size] == written[at - rpos..]
    }

    constructor (size: nat)
      requires size <= INT32_MAX
      ensures Valid() && fresh(raw) && alloced && raw.Length == size && written == [] && at == 0
    {
      alloced, rpos, this.size, written, at := true, 0, 0, [], 0;
      raw := new Byte[size];
    }

    constructor ByCopy(b: seq<Byte>)
      requires |b| <= INT32_MAX
      ensures Valid() && fresh(raw) && alloced && raw[..] == b && written == b && at == 0
    {
      alloced, rpos, size, written, at := true, 0, |b|, b, 0;
      raw := new Byte[|b|](k requires 0 <= k < |b| => b[k]);
    }

    constructor ByReference(b: array<Byte>)
      requires b.Length <= INT32_MAX
      ensures Valid() && !alloced && raw == b && written == b[..] && at == 0
    {
      alloced, rpos, size, written, at := false, 0, b.Length, b[..], 0;
      raw := b;
    }

    /** Whether a write of n bytes moves the window to the start of its array (lines 99-106). */
    predicate Compacts(n: nat)
      reads this, raw
      requires rpos + size <= raw.Length
    {
      0 < rpos && (rpos == raw.Length || (n > raw.Length - rpos - size && n + size < raw.Length))
    }

    /** Lines 105-106: the window to the start of its array. */
    method Compact()
      requires Valid()
      modifies this`rpos, raw
      ensures Valid() && rpos == 0
    {
      ghost var held := raw[..rpos + size];
      forall k | 0 <= k < size { raw[k] := raw[rpos + k]; }
      assert raw[..size] == held[rpos..];
      rpos := 0;
    }

    /** A bigger array with these bytes of the old one at its start. */
    static method Copied(from: array<Byte>, lo: nat, hi: nat, length: nat) returns (a: array<Byte>)
      requires lo <= hi <= from.Length && hi - lo <= length
      ensures fresh(a) && a.Length == length && a[..hi - lo] == from[lo..hi]
    {
      a := new Byte[length];
      forall k | 0 <= k < hi - lo { a[k] := from[lo + k]; }
    }

    /** Lines 108-123. */
    method Grow(n: nat, throws: bool)
      requires Valid() && 0 < n && 0 < raw.Length && Grown(raw.Length, n) <= INT32_MAX
      modifies this`raw, this`rpos
      ensures Valid() && rpos + size + n <= raw.Length == Grown(old(raw.Length), n) && fresh(raw)
      ensures rpos == if throws then 0 else old(rpos)
    {
      GrownFits(raw.Length, n, rpos, size);
      var length := Grown(raw.Length, n);
      hide Grown;
      ghost var held := raw[..rpos + size];
      if throws {
        raw := Copied(raw, rpos, rpos + size, length);
        assert raw[..size] == held[rpos..];
        rpos := 0;
      } else {
        raw := Copied(raw, 0, raw.Length, length);
        assert raw[..rpos + size] == held;
      }
    }

    /** Lines 93-125: room for n bytes behind the window. `throws` is the reallocation throwing. */
    method MakeRoom(n: nat, throws: bool)
      requires Valid() && 0 < n && LengthFor(raw.Length, rpos, size, n) <= INT32_MAX
      modifies this`raw, this`rpos, raw
      ensures Valid() && rpos + size + n <= raw.Length == old(LengthFor(raw.Length, rpos, size, n))
      ensures raw == old(raw) || fresh(raw)
      ensures rpos == if old(Compacts(n)) || (throws && raw != old(raw)) then 0 else old(rpos)
    {
      if raw.Length == 0 {
        raw := new Byte[n];
      }
      if rpos == raw.Length { rpos := 0; }
      if n > raw.Length - rpos - size {
        if n + size < raw.Length { Compact(); } else { Grow(n, throws); }
      }
    }

    /** Lines 127-129. */
    method Append(b: seq<Byte>)
      requires Valid() && rpos + size + |b| <= raw.Length
      modifies this`size, this`written, raw
      ensures Valid() && written == old(written) + b
    {
      ghost var held := raw[..rpos + size];
      forall k | 0 <= k < |b| { raw[rpos + size + k] := b[k]; }
      size := size + |b|;
      written := written + b;
      assert raw[..rpos + size] == held + b;
    }

    /** `write` of bytes. */
    method Write(b: seq<Byte>, throws: bool) returns (ok: bool)
      requires Valid() && alloced && LengthFor(raw.Length, rpos, size, |b|) <= INT32_MAX
      modifies this, raw
      ensures Valid() && ok == (b != []) && (raw == old(raw) || fresh(raw))
      ensures raw.Length == old(LengthFor(raw.Length, rpos, size, |b|))
      ensures written == old(written) + b && at == old(at)
      ensures rpos == if ok && (old(Compacts(|b|)) || (throws && raw != old(raw))) then 0 else old(rpos)
    {
      if b == [] { return false; }
      MakeRoom(|b|, throws);
      Append(b);
      ok := true;
    }

    /** `write` of one byte so many times. */
    method Fill(b: Byte, count: nat, throws: bool) returns (ok: bool)
      requires Valid() && alloced && LengthFor(raw.Length, rpos, size, count) <= INT32_MAX
      modifies this, raw
      ensures Valid() && ok == (count > 0) && (raw == old(raw) || fresh(raw))
      ensures raw.Length == old(LengthFor(raw.Length, rpos, size, count))
      ensures written == old(written) + seq(count, _ => b) && at == old(at)
      ensures rpos == if ok && (old(Compacts(count)) || (throws && raw != old(raw))) then 0 else old(rpos)
    {
      if count == 0 { return false; }
      MakeRoom(count, throws);
      Append(seq(count, _ => b));
      ok := true;
    }

    /** `read` of n bytes. */
    method Read(n: nat) returns (ok: bool, b: seq<Byte>)
      requires Valid()
      modifies this`rpos, this`size, this`at
      ensures Valid() && ok == (n <= |written| - old(at))
      ensures if ok then b == written[old(at)..old(at) + n] && at == old(at) + n && rpos == old(rpos) + n
              else at == old(at) && rpos == old(rpos)
    {
      if size < n { return false, []; }
      b := raw[rpos..rpos + n];
      assert b == raw[..rpos + size][rpos..rpos + n];
      rpos, size, at := rpos + n, size - n, at + n;
      ok := true;
    }

    /** `shift`: forward over bytes as if they were read, or back over the last ones passed. */
    method Shift(n: int) returns (r: int)
      requires Valid() && -INT32_MAX <= n <= INT32_MAX
      modifies this`rpos, this`size, this`at
      ensures Valid()
      ensures r == if 0 <= old(rpos) + n && n <= |written| - old(at) then |written| - at else -1
      ensures at == (if r == -1 then old(at) else old(at) + n) && rpos - at == old(rpos - at)
    {
      if n > 0 {
        if size < n { return -1; }
      } else {
        if rpos < -n { return -1; }
      }
      rpos, size, at := rpos + n, size - n, at + n;
      r := size;
    }

    /** `clear`. */
    method Clear()
      requires Valid()
      modifies this
      ensures Valid() && written == [] && at == 0 && rpos == 0 && raw == old(raw)
    {
      size, rpos, written, at := 0, 0, [], 0;
    }

    /** `reset_by_copy`. */
    method ResetByCopy(b: seq<Byte>, throws: bool) returns (ok: bool)
      requires Valid() && alloced && LengthFor(raw.Length, 0, 0, |b|) <= INT32_MAX
      modifies this, raw
      ensures Valid() && ok == (b != []) && (raw == old(raw) || fresh(raw))
      ensures raw.Length == LengthFor(old(raw.Length), 0, 0, |b|)
      ensures if ok then written == b && at == 0 else written == old(written) && at == old(at)
    {
      ghost var length := raw.Length;
      assert b == [] ==> LengthFor(length, 0, 0, |b|) == length;
      hide LengthFor;
      if b == [] { return false; }
      Clear();
      assert rpos == 0 && size == 0 && raw.Length == length;
      ok := Write(b, throws);
    }

    /** `reset_by_reference`. */
    method ResetByReference(b: array<Byte>) returns (ok: bool)
      requires Valid() && !alloced && b.Length <= INT32_MAX
      modifies this
      ensures Valid() && ok == (b.Length > 0)
      ensures if ok then raw == b && written == b[..] && at == 0
              else raw == old(raw) && written == old(written) && at == old(at)
    {
      if b.Length == 0 { return false; }
      Clear();
      raw, size, written := b, b.Length, b[..];
      ok := true;
    }

    /** Forward and back again leaves everything as it was, whenever there was enough to go forward over. */
    method ThereAndBack(n: nat)
      requires Valid() && n <= |written| - at && n <= INT32_MAX
      modifies this`rpos, this`size, this`at
      ensures Valid() && rpos == old(rpos) && size == old(size) && at == old(at)
    {
      var there := Shift(n);
      var back := Shift(0 - n);
    }
  }
}
