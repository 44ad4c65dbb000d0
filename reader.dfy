/** The byte-stream primitives the record parsers rely on: a BinaryReader over
    an in-memory stream (a byte sequence and a position), little-endian 32-bit
    integers, the 4-byte alignment of AssetStudio's reader extensions, and the
    short-read behaviour of Stream.Read. Every read is given first as a function
    of (bytes, position) returning the value and the new position; the Reader
    class performs the same reads in place. */
module BinaryReading {
  import opened Base

  const TwoTo31: int := 0x8000_0000
  const TwoTo32: int := 0x1_0000_0000

  predicate IsInt32(i: int) { -TwoTo31 <= i < TwoTo31 }

  /** The weight of the byte at index `k`: 256 to the power `k`. */
  function Place(k: nat): (p: nat)
    ensures p >= 1
  {
    if k == 0 then 1 else 256 * Place(k - 1)
  }

  /** Bytes, least significant first, as an unsigned number. */
  function LE(b: seq<byte>): (u: nat)
    ensures u < Place(|b|)
  {
    if b == [] then 0 else b[0] as int + 256 * LE(b[1..])
  }

  /** Four bytes as an unsigned 32-bit value. */
  function LE32(b: seq<byte>): (u: nat)
    requires |b| == 4
    ensures u < TwoTo32
  {
    LE(b)
  }

  /** Two's-complement reinterpretation of an unsigned 32-bit value. */
  function ToInt32(u: nat): (i: int)
    requires u < TwoTo32
    ensures IsInt32(i)
  {
    if u < TwoTo31 then u else u - TwoTo32
  }

  /** The `k` low bytes of `u`, least significant first; the partner of LE. */
  function LowBytes(u: nat, k: nat): (b: seq<byte>)
    ensures |b| == k
  {
    if k == 0 then [] else [(u % 256) as byte] + LowBytes(u / 256, k - 1)
  }

  /** The low 32 bits of `u`, least significant byte first. */
  function EncodeUInt32(u: nat): (b: seq<byte>)
    ensures |b| == 4
  {
    LowBytes(u, 4)
  }

  /** How a writer lays out an int; the partner of Int32At. */
  function EncodeInt32(i: int): (b: seq<byte>)
    ensures |b| == 4
  {
    EncodeUInt32(i % TwoTo32)
  }

  /** A number that fits in `k` bytes is read back from its `k` low bytes. */
  lemma {:induction false} LowBytesRoundTrip(u: nat, k: nat)
    requires u < Place(k)
    ensures LE(LowBytes(u, k)) == u
  {
    if k > 0 {
      var b := LowBytes(u, k);
      assert b[0] as int == u % 256 && b[1..] == LowBytes(u / 256, k - 1);
      LowBytesRoundTrip(u / 256, k - 1);
    }
  }

  lemma UInt32RoundTrip(u: nat)
    requires u < TwoTo32
    ensures LE32(EncodeUInt32(u)) == u
  {
    assert Place(4) == TwoTo32;
    LowBytesRoundTrip(u, 4);
  }

  lemma Int32RoundTrip(i: int)
    requires IsInt32(i)
    ensures ToInt32(LE32(EncodeInt32(i))) == i
  {
    assert i % TwoTo32 == if i < 0 then i + TwoTo32 else i;
    UInt32RoundTrip(i % TwoTo32);
  }

  /** ReadUInt32 at `pos`: the value and the position after it. */
  function UInt32At(data: seq<byte>, pos: nat): (r: Result<(nat, nat)>)
    ensures r.Ok? <==> pos + 4 <= |data|
    ensures r.Ok? ==> r.value.0 < TwoTo32 && r.value.1 == pos + 4
    ensures r.Err? ==> r.error == EndOfStream
  {
    if pos + 4 <= |data| then Ok((LE32(data[pos..pos + 4]), pos + 4)) else Err(EndOfStream)
  }

  /** ReadInt32 at `pos`. */
  function Int32At(data: seq<byte>, pos: nat): (r: Result<(int, nat)>)
    ensures r.Ok? <==> pos + 4 <= |data|
    ensures r.Ok? ==> IsInt32(r.value.0) && r.value.1 == pos + 4
    ensures r.Err? ==> r.error == EndOfStream
  {
    if pos + 4 <= |data| then Ok((ToInt32(LE32(data[pos..pos + 4])), pos + 4)) else Err(EndOfStream)
  }

  /** The bytes `b` lie in `data` from `pos` on, one byte at a time. */
  predicate At(data: seq<byte>, pos: nat, b: seq<byte>)
    decreases |b|
  {
    if b == [] then pos <= |data| else pos < |data| && data[pos] == b[0] && At(data, pos + 1, b[1..])
  }

  /** At is the slice of `data` from `pos` being `b`. */
  lemma {:induction false} AtSlice(data: seq<byte>, pos: nat, b: seq<byte>)
    ensures At(data, pos, b) <==> pos + |b| <= |data| && data[pos..pos + |b|] == b
    decreases |b|
  {
    if b != [] {
      AtSlice(data, pos + 1, b[1..]);
      if pos + |b| <= |data| {
        assert data[pos..pos + |b|] == [data[pos]] + data[pos + 1..pos + 1 + |b[1..]|];
        assert b == [b[0]] + b[1..];
      }
    }
  }

  /** An int written at `pos` reads back. */
  lemma Int32AtEncoded(data: seq<byte>, pos: nat, i: int)
    requires IsInt32(i) && At(data, pos, EncodeInt32(i))
    ensures Int32At(data, pos) == Ok((i, pos + 4))
  {
    AtSlice(data, pos, EncodeInt32(i));
    Int32RoundTrip(i);
  }

  /** Two pieces laid out back to back lie one after the other. */
  lemma AtSplit(data: seq<byte>, pos: nat, a: seq<byte>, b: seq<byte>)
    requires At(data, pos, a + b)
    ensures At(data, pos, a) && At(data, pos + |a|, b)
  {
    AtSlice(data, pos, a + b);
    AtSlice(data, pos, a);
    AtSlice(data, pos + |a|, b);
    assert data[pos..pos + |a|] == (a + b)[..|a|];
    assert data[pos + |a|..pos + |a| + |b|] == (a + b)[|a|..];
  }

  /** Whatever is laid out at the front of a stream lies at position 0. */
  lemma AtFront(b: seq<byte>, rest: seq<byte>)
    ensures At(b + rest, 0, b)
  {
    AtSlice(b + rest, 0, b);
    assert (b + rest)[..|b|] == b;
  }

  /** A length-prefixed payload written at an aligned position ends, once
      padded, where alignment puts the reader. */
  lemma AlignAfterPayload(pos: nat, w: nat, n: nat)
    requires pos == 4 * w
    ensures Align4(pos + 4 + n) == pos + 4 + 4 * Words(n)
  {
    assert (pos + 4 + n) % 4 == n % 4;
  }

  /** ReadBytes returns exactly the bytes laid out where it reads. */
  lemma BytesAtSlice(data: seq<byte>, pos: nat, b: seq<byte>)
    requires At(data, pos, b)
    ensures BytesAt(data, pos, |b|) == Ok((b, pos + |b|))
  {
    AtSlice(data, pos, b);
  }

  /** ByteArrayAt is the length followed by that many bytes. */
  lemma ByteArrayFromParts(data: seq<byte>, pos: nat, b: seq<byte>, p: nat, end: nat)
    requires Int32At(data, pos) == Ok((|b|, p)) && BytesAt(data, p, |b|) == Ok((b, end))
    ensures ByteArrayAt(data, pos) == Ok((b, end))
  {
  }

  /** A length-prefixed byte array reads back from where it is laid out. */
  lemma ByteArrayIn(data: seq<byte>, pos: nat, b: seq<byte>)
    requires |b| < TwoTo31 && At(data, pos, EncodeInt32(|b|) + b)
    ensures ByteArrayAt(data, pos) == Ok((b, pos + 4 + |b|))
  {
    AtSplit(data, pos, EncodeInt32(|b|), b);
    Int32AtEncoded(data, pos, |b|);
    BytesAtSlice(data, pos + 4, b);
    ByteArrayFromParts(data, pos, b, pos + 4, pos + 4 + |b|);
  }

  /** AlignStream: round the position up to a multiple of four. */
  function Align4(pos: nat): (p: nat)
    ensures p % 4 == 0 && pos <= p < pos + 4
  {
    if pos % 4 != 0 then pos + 4 - pos % 4 else pos
  }

  /** The number of four-byte words `n` bytes occupy once padded. */
  function Words(n: nat): (w: nat)
    ensures n <= 4 * w < n + 4
  {
    (n + 3) / 4
  }

  /** The zero padding a writer puts after `n` payload bytes to reach a multiple of four. */
  function PadLength(n: nat): (k: nat)
    ensures k < 4 && n + k == 4 * Words(n)
  {
    4 * Words(n) - n
  }

  /** `n` bytes at `pos` (ReadBytes of a length-prefixed array or string).
      A negative count is refused; a payload running past the end is a truncated stream. */
  function BytesAt(data: seq<byte>, pos: nat, n: int): (r: Result<(seq<byte>, nat)>)
    ensures r.Ok? <==> 0 <= n && pos + n <= |data|
    ensures r.Ok? ==> r.value.0 == data[pos..pos + n] && r.value.1 == pos + n
  {
    if n < 0 then Err(ArgumentOutOfRange)
    else if pos + n > |data| then Err(EndOfStream)
    else Ok((data[pos..pos + n], pos + n))
  }

  /** ReadUInt8Array: an int length, then that many bytes. */
  function ByteArrayAt(data: seq<byte>, pos: nat): Result<(seq<byte>, nat)>
  {
    var n :- Int32At(data, pos);
    BytesAt(data, n.1, n.0)
  }

  /** ReadAlignedString: an int length, the UTF-8 payload, then alignment to four. */
  function AlignedStringAt(data: seq<byte>, pos: nat): Result<(seq<byte>, nat)>
  {
    var a :- ByteArrayAt(data, pos);
    Ok((a.0, Align4(a.1)))
  }

  /** `count` aligned strings one after the other (the keyword loops). */
  function AlignedStringsAt(data: seq<byte>, pos: nat, count: nat): (r: Result<(seq<seq<byte>>, nat)>)
    ensures r.Ok? ==> |r.value.0| == count
    decreases count
  {
    if count == 0 then Ok(([], pos))
    else
      var first :- AlignedStringAt(data, pos);
      var rest :- AlignedStringsAt(data, first.1, count - 1);
      Ok(([first.0] + rest.0, rest.1))
  }

  /** `Stream.Read(buffer, 0, len)` into `new byte[len]`: copies what is left of
      the stream, at most `len` bytes, leaves the rest of the buffer zero, and
      advances by the number of bytes copied. A negative length fails when the
      buffer is allocated. */
  function ChunkAt(data: seq<byte>, pos: nat, len: int): (r: Result<(seq<byte>, nat)>)
    ensures r.Ok? <==> len >= 0
    ensures r.Ok? ==> |r.value.0| == len
    ensures r.Ok? && pos <= |data| ==> r.value.1 == Min(pos + len, |data|)
    ensures r.Ok? && pos > |data| ==> r.value.1 == pos
    ensures r.Err? ==> r.error == Overflow
  {
    if len < 0 then Err(Overflow)
    else
      var avail := if pos >= |data| then 0 else Min(len, |data| - pos);
      var copied := if pos >= |data| then [] else data[pos..pos + avail];
      Ok((Fit(copied, len), pos + avail))
  }

  /** ReadStringToNull: the position after the first zero byte at or after
      `pos`, or the end of the stream when there is none. A position beyond the
      end fails on the first ReadByte. */
  function SkipToNull(data: seq<byte>, pos: nat): (r: Result<nat>)
    ensures r.Ok? <==> pos <= |data|
    ensures r.Ok? ==> pos <= r.value <= |data|
    ensures r.Ok? ==> forall k :: pos <= k < r.value - 1 ==> data[k] != 0
    ensures r.Ok? && r.value > pos ==> r.value == |data| || data[r.value - 1] == 0
    ensures r.Ok? && r.value == pos ==> pos == |data|
    decreases |data| - pos
  {
    if pos > |data| then Err(EndOfStream)
    else if pos == |data| then Ok(pos)
    else if data[pos] == 0 then Ok(pos + 1)
    else SkipToNull(data, pos + 1)
  }

  /** The value of a successful read of type (T, position) and where it leaves the reader. */
  predicate Performed<T(==)>(r: Result<T>, spec: Result<(T, nat)>, newPos: nat)
  {
    match spec
    case Ok(vp) => r == Ok(vp.0) && newPos == vp.1
    case Err(e) => r == Err(e)
  }

  /** A BinaryReader over a MemoryStream: the bytes and the current position,
      which may lie beyond the end after a skip. */
  class Reader {
    const data: seq<byte>
    var pos: nat

    constructor (bytes: seq<byte>)
      ensures data == bytes && pos == 0
    {
      data := bytes;
      pos := 0;
    }

    method ReadInt32() returns (r: Result<int>)
      modifies this
      ensures Performed(r, Int32At(data, old(pos)), pos)
    {
      if pos + 4 <= |data| {
        r := Ok(ToInt32(LE32(data[pos..pos + 4])));
        pos := pos + 4;
      } else {
        r := Err(EndOfStream);
      }
    }

    /** `reader.BaseStream.Position += n`. */
    method Skip(n: nat)
      modifies this
      ensures pos == old(pos) + n
    {
      pos := pos + n;
    }

    /** AlignStream. */
    method AlignStream()
      modifies this
      ensures pos == Align4(old(pos))
    {
      var m := pos % 4;
      if m != 0 {
        pos := pos + (4 - m);
      }
    }

    method ReadAlignedString() returns (r: Result<seq<byte>>)
      modifies this
      ensures Performed(r, AlignedStringAt(data, old(pos)), pos)
    {
      var n := ReadInt32();
      if n.Err? {
        return Err(n.error);
      }
      var len := n.value;
      if len < 0 {
        return Err(ArgumentOutOfRange);
      }
      if pos + len > |data| {
        return Err(EndOfStream);
      }
      r := Ok(data[pos..pos + len]);
      pos := pos + len;
      AlignStream();
    }

    method ReadUInt8Array() returns (r: Result<seq<byte>>)
      modifies this
      ensures Performed(r, ByteArrayAt(data, old(pos)), pos)
    {
      var n := ReadInt32();
      if n.Err? {
        return Err(n.error);
      }
      var len := n.value;
      if len < 0 {
        return Err(ArgumentOutOfRange);
      }
      if pos + len > |data| {
        return Err(EndOfStream);
      }
      r := Ok(data[pos..pos + len]);
      pos := pos + len;
    }

    /** `new byte[len]` filled by `BaseStream.Read(buffer, 0, len)`. */
    method ReadChunk(len: int) returns (r: Result<seq<byte>>)
      modifies this
      ensures Performed(r, ChunkAt(data, old(pos), len), pos)
    {
      if len < 0 {
        return Err(Overflow);
      }
      var avail := if pos >= |data| then 0 else Min(len, |data| - pos);
      var copied := if pos >= |data| then [] else data[pos..pos + avail];
      r := Ok(Fit(copied, len));
      pos := pos + avail;
    }

    method ReadUInt32() returns (r: Result<nat>)
      modifies this
      ensures Performed(r, UInt32At(data, old(pos)), pos)
    {
      if pos + 4 <= |data| {
        r := Ok(LE32(data[pos..pos + 4]));
        pos := pos + 4;
      } else {
        r := Err(EndOfStream);
      }
    }

    /** `reader.BaseStream.Position = p`: a negative position is refused, one
        beyond the end is kept. */
    method Seek(p: int) returns (o: Outcome)
      modifies this
      ensures o.Pass? <==> p >= 0
      ensures o.Pass? ==> pos == p
      ensures o.Fail? ==> o.error == ArgumentOutOfRange && pos == old(pos)
    {
      if p < 0 {
        return Fail(ArgumentOutOfRange);
      }
      pos := p;
      o := Pass;
    }

    /** ReadStringToNull: the bytes up to the first zero byte or the end of the
        stream; the zero byte is consumed and not returned. */
    method ReadStringToNull() returns (r: Result<seq<byte>>)
      modifies this
      ensures SkipToNull(data, old(pos)).Ok? <==> r.Ok?
      ensures r.Err? ==> SkipToNull(data, old(pos)) == Err(r.error)
      ensures r.Ok? ==> pos == SkipToNull(data, old(pos)).value
      ensures r.Ok? ==> r.value == data[old(pos)..if pos > old(pos) && data[pos - 1] == 0 then pos - 1 else pos]
    {
      if pos > |data| {
        return Err(EndOfStream);
      }
      ghost var start := pos;
      var bytes: seq<byte> := [];
      while pos != |data|
        invariant start <= pos <= |data|
        invariant bytes == data[start..pos]
        invariant forall k :: start <= k < pos ==> data[k] != 0
        invariant SkipToNull(data, start) == SkipToNull(data, pos)
        decreases |data| - pos
      {
        var b := data[pos];
        pos := pos + 1;
        if b == 0 {
          return Ok(bytes);
        }
        bytes := bytes + [b];
      }
      r := Ok(bytes);
    }

    /** `ReadBytes(Length - Position)`: the rest of the stream. */
    method ReadToEnd() returns (r: Result<seq<byte>>)
      modifies this
      ensures r.Ok? <==> old(pos) <= |data|
      ensures r.Ok? ==> r.value == data[old(pos)..] && pos == |data|
      ensures r.Err? ==> r.error == ArgumentOutOfRange
    {
      if pos > |data| {
        return Err(ArgumentOutOfRange);
      }
      r := Ok(data[pos..]);
      pos := |data|;
    }
  }
}
