/** The decompressed program blob of one platform (ShaderConverter.cs, lines
    1024-1153): an entry table of (offset, length[, segment]) records, the
    sub-program buffers read segment by segment, and the version-dependent
    layout of one sub-program record. The layouts are given as parse functions
    with their writers as partners; ShaderProgram, ReadEntry and ReadSubProgram
    perform the same reads on a Reader. */
module ShaderProgramFormat {
  import opened Base
  import opened BinaryReading
  import opened ShaderEnums

  /** The first two numbers of the Unity version the asset was built with. */
  datatype Version = Version(major: int, minor: int)

  /** Entries carry a segment number from 2019.3 on. */
  predicate HasSegmentField(v: Version)
  {
    v.major > 2019 || (v.major == 2019 && v.minor >= 3)
  }

  function EntryWidth(v: Version): nat
  {
    if HasSegmentField(v) then 12 else 8
  }

  /** The bytes taken by `count` entries. */
  function TableBytes(count: nat, v: Version): nat
  {
    if HasSegmentField(v) then 12 * count else 8 * count
  }

  /** ShaderSubProgramEntry. `Offset` is read but never used. */
  datatype Entry = Entry(offset: int, length: int, segment: int)

  // ----- the entry table -----

  /** ShaderSubProgramEntry's constructor; the segment stays 0 before 2019.3. */
  function EntryAt(data: seq<byte>, pos: nat, v: Version): (r: Result<(Entry, nat)>)
    ensures r.Ok? <==> pos + EntryWidth(v) <= |data|
    ensures r.Ok? ==> r.value.1 == pos + EntryWidth(v)
    ensures r.Ok? && !HasSegmentField(v) ==> r.value.0.segment == 0
  {
    var off :- Int32At(data, pos);
    var len :- Int32At(data, off.1);
    if HasSegmentField(v) then
      var seg :- Int32At(data, len.1);
      Ok((Entry(off.0, len.0, seg.0), seg.1))
    else
      Ok((Entry(off.0, len.0, 0), len.1))
  }

  /** The loop of ShaderProgram's constructor: `count` entries back to back. */
  function EntriesAt(data: seq<byte>, pos: nat, v: Version, count: nat): (r: Result<(seq<Entry>, nat)>)
    ensures pos + TableBytes(count, v) <= |data| ==> r.Ok?
    ensures r.Ok? ==> |r.value.0| == count && r.value.1 == pos + TableBytes(count, v)
    ensures r.Ok? && count > 0 ==> r.value.1 <= |data|
    ensures r.Ok? && !HasSegmentField(v) ==> forall k :: 0 <= k < count ==> r.value.0[k].segment == 0
    decreases count
  {
    if count == 0 then Ok(([], pos))
    else
      var e :- EntryAt(data, pos, v);
      var rest :- EntriesAt(data, e.1, v, count - 1);
      Ok(([e.0] + rest.0, rest.1))
  }

  /** ShaderProgram's constructor: a count, then that many entries. A negative
      count fails when the entry array is allocated. */
  function EntryTableAt(data: seq<byte>, pos: nat, v: Version): (r: Result<(seq<Entry>, nat)>)
    ensures r.Ok? ==> Int32At(data, pos).Ok? && Int32At(data, pos).value.0 == |r.value.0|
    ensures r.Ok? ==> r.value.1 == pos + 4 + TableBytes(|r.value.0|, v)
    ensures r.Ok? && !HasSegmentField(v) ==> forall k :: 0 <= k < |r.value.0| ==> r.value.0[k].segment == 0
  {
    var n :- Int32At(data, pos);
    :- Need(n.0 >= 0, Overflow);
    EntriesAt(data, n.1, v, n.0)
  }

  /** An entry a writer of version `v` can lay out. */
  predicate EntryEncodable(e: Entry, v: Version)
  {
    IsInt32(e.offset) && IsInt32(e.length) && IsInt32(e.segment) && (!HasSegmentField(v) ==> e.segment == 0)
  }

  function EncodeEntry(e: Entry, v: Version): (b: seq<byte>)
    ensures |b| == EntryWidth(v)
  {
    EncodeInt32(e.offset) + EncodeInt32(e.length) + (if HasSegmentField(v) then EncodeInt32(e.segment) else [])
  }

  function EncodeEntries(es: seq<Entry>, v: Version): (b: seq<byte>)
    ensures |b| == TableBytes(|es|, v)
  {
    if es == [] then [] else EncodeEntry(es[0], v) + EncodeEntries(es[1..], v)
  }

  /** The entry table as a writer lays it out; the partner of EntryTableAt. */
  function EncodeEntryTable(es: seq<Entry>, v: Version): seq<byte>
  {
    EncodeInt32(|es|) + EncodeEntries(es, v)
  }

  lemma EntryIn(data: seq<byte>, pos: nat, e: Entry, v: Version)
    requires EntryEncodable(e, v) && At(data, pos, EncodeEntry(e, v))
    ensures EntryAt(data, pos, v) == Ok((e, pos + EntryWidth(v)))
  {
    var a, b := EncodeInt32(e.offset), EncodeInt32(e.length);
    var c: seq<byte> := if HasSegmentField(v) then EncodeInt32(e.segment) else [];
    AtSplit(data, pos, a + b, c);
    AtSplit(data, pos, a, b);
    Int32AtEncoded(data, pos, e.offset);
    Int32AtEncoded(data, pos + 4, e.length);
    if HasSegmentField(v) {
      Int32AtEncoded(data, pos + 8, e.segment);
    }
  }

  lemma {:induction false} EntriesIn(data: seq<byte>, pos: nat, es: seq<Entry>, v: Version)
    requires forall k :: 0 <= k < |es| ==> EntryEncodable(es[k], v)
    requires At(data, pos, EncodeEntries(es, v))
    ensures EntriesAt(data, pos, v, |es|) == Ok((es, pos + |EncodeEntries(es, v)|))
    decreases |es|
  {
    if es != [] {
      AtSplit(data, pos, EncodeEntry(es[0], v), EncodeEntries(es[1..], v));
      EntryIn(data, pos, es[0], v);
      EntriesIn(data, pos + EntryWidth(v), es[1..], v);
      assert [es[0]] + es[1..] == es;
    }
  }

  /** The entry table reads back from what a writer lays out, whatever follows it. */
  lemma EntryTableRoundTrip(es: seq<Entry>, v: Version, rest: seq<byte>)
    requires |es| < TwoTo31 && forall k :: 0 <= k < |es| ==> EntryEncodable(es[k], v)
    ensures EntryTableAt(EncodeEntryTable(es, v) + rest, 0, v) == Ok((es, |EncodeEntryTable(es, v)|))
  {
    var data := EncodeEntryTable(es, v) + rest;
    AtFront(EncodeEntryTable(es, v), rest);
    AtSplit(data, 0, EncodeInt32(|es|), EncodeEntries(es, v));
    Int32AtEncoded(data, 0, |es|);
    EntriesIn(data, 4, es, v);
  }

  // ----- sub-program buffers, one segment at a time -----

  /** ShaderSubProgramWrap: the entry and the bytes copied for it. */
  datatype Wrap = Wrap(entry: Entry, buffer: seq<byte>)

  /** The loop of ShaderProgram.Read from index `i` on: every entry of segment
      `seg` gets a wrap holding the next `Length` bytes of the stream; the
      other slots are left alone. */
  function FillFrom(es: seq<Entry>, slots: seq<Option<Wrap>>, data: seq<byte>, pos: nat, seg: int, i: nat)
    : (r: Result<(seq<Option<Wrap>>, nat)>)
    requires |slots| == |es| && i <= |es|
    ensures r.Ok? ==> |r.value.0| == |es|
    decreases |es| - i
  {
    if i == |es| then Ok((slots, pos))
    else if es[i].segment == seg then
      var c :- ChunkAt(data, pos, es[i].length);
      FillFrom(es, slots[i := Some(Wrap(es[i], c.0))], data, c.1, seg, i + 1)
    else
      FillFrom(es, slots, data, pos, seg, i + 1)
  }

  /** The bytes taken by the entries of segment `seg` among es[i..k]; a negative
      length (which makes the read fail) counts as none. */
  function SegmentBytes(es: seq<Entry>, seg: int, i: nat, k: nat): nat
    requires i <= k <= |es|
    decreases k - i
  {
    if i == k then 0
    else (if es[i].segment == seg && es[i].length >= 0 then es[i].length else 0) + SegmentBytes(es, seg, i + 1, k)
  }

  predicate SegmentLengthsValid(es: seq<Entry>, seg: int, i: nat)
  {
    forall k :: i <= k < |es| && es[k].segment == seg ==> es[k].length >= 0
  }

  /** ShaderProgram.Read(seg) fails exactly when an entry of the segment has a
      negative length. */
  lemma {:induction false} FillSegmentFails(es: seq<Entry>, slots: seq<Option<Wrap>>, data: seq<byte>, pos: nat, seg: int, i: nat)
    requires |slots| == |es| && i <= |es|
    ensures FillFrom(es, slots, data, pos, seg, i).Ok? <==> SegmentLengthsValid(es, seg, i)
    decreases |es| - i
  {
    if i < |es| {
      if es[i].segment != seg {
        FillSegmentFails(es, slots, data, pos, seg, i + 1);
      } else if es[i].length >= 0 {
        var c := ChunkAt(data, pos, es[i].length).value;
        FillSegmentFails(es, slots[i := Some(Wrap(es[i], c.0))], data, c.1, seg, i + 1);
      }
    }
  }

  /** Slot `k` after ShaderProgram.Read(seg) has run from index `i` at `pos`:
      an entry of the segment gets the `Length` bytes that follow those of the
      earlier entries of the segment, cut short at the end of the stream; any
      other slot keeps what it held. */
  function FilledSlot(es: seq<Entry>, slots: seq<Option<Wrap>>, data: seq<byte>, pos: nat, seg: int, i: nat, k: nat): Option<Wrap>
    requires |slots| == |es| && i <= |es| && k < |es| && SegmentLengthsValid(es, seg, i)
  {
    if i <= k && es[k].segment == seg
    then Some(Wrap(es[k], ChunkAt(data, Min(pos + SegmentBytes(es, seg, i, k), |data|), es[k].length).value.0))
    else slots[k]
  }

  /** ShaderProgram.Read(seg), when no entry of the segment has a negative
      length, leaves every slot as FilledSlot describes. */
  lemma {:induction false} FillSegmentSlot(es: seq<Entry>, slots: seq<Option<Wrap>>, data: seq<byte>, pos: nat, seg: int, i: nat, k: nat)
    requires |slots| == |es| && i <= |es| && k < |es| && pos <= |data|
    requires SegmentLengthsValid(es, seg, i)
    ensures FillSegmentOk(es, slots, data, pos, seg, i)
    ensures FillFrom(es, slots, data, pos, seg, i).value.0[k] == FilledSlot(es, slots, data, pos, seg, i, k)
    decreases |es| - i
  {
    FillSegmentFails(es, slots, data, pos, seg, i);
    if i < |es| {
      if es[i].segment == seg {
        var c := ChunkAt(data, pos, es[i].length).value;
        var slots' := slots[i := Some(Wrap(es[i], c.0))];
        FillSegmentSlot(es, slots', data, c.1, seg, i + 1, k);
        FillMatchStep(es, slots, data, pos, seg, i, c, slots');
        FilledSlotMatchStep(es, slots, data, pos, seg, i, k, c, slots');
      } else {
        FillSegmentSlot(es, slots, data, pos, seg, i + 1, k);
        FilledSlotOtherStep(es, slots, data, pos, seg, i, k);
      }
    }
  }

  /** One step of the loop on an entry of the segment. */
  lemma FillMatchStep(es: seq<Entry>, slots: seq<Option<Wrap>>, data: seq<byte>, pos: nat, seg: int, i: nat,
                      c: (seq<byte>, nat), slots': seq<Option<Wrap>>)
    requires |slots| == |es| && i < |es| && es[i].segment == seg
    requires ChunkAt(data, pos, es[i].length) == Ok(c) && slots' == slots[i := Some(Wrap(es[i], c.0))]
    ensures FillFrom(es, slots, data, pos, seg, i) == FillFrom(es, slots', data, c.1, seg, i + 1)
  {
  }

  /** The slot description is the same before and after a step on an entry of the segment. */
  lemma FilledSlotMatchStep(es: seq<Entry>, slots: seq<Option<Wrap>>, data: seq<byte>, pos: nat, seg: int, i: nat, k: nat,
                            c: (seq<byte>, nat), slots': seq<Option<Wrap>>)
    requires |slots| == |es| && i < |es| && k < |es| && pos <= |data| && es[i].segment == seg
    requires SegmentLengthsValid(es, seg, i)
    requires ChunkAt(data, pos, es[i].length) == Ok(c) && slots' == slots[i := Some(Wrap(es[i], c.0))]
    ensures FilledSlot(es, slots', data, c.1, seg, i + 1, k) == FilledSlot(es, slots, data, pos, seg, i, k)
  {
    if i < k && es[k].segment == seg {
      var rest := SegmentBytes(es, seg, i + 1, k);
      assert SegmentBytes(es, seg, i, k) == es[i].length + rest;
      assert c.1 == Min(pos + es[i].length, |data|);
      MinShift(pos + es[i].length, rest, |data|);
    } else if i == k {
      assert Min(pos + SegmentBytes(es, seg, i, k), |data|) == pos;
    }
  }

  /** Clamping to the end of the stream before or after a forward move lands on the same position. */
  lemma MinShift(x: int, y: nat, n: int)
    ensures Min(Min(x, n) + y, n) == Min(x + y, n)
  {
  }

  /** ... and after a step on an entry of another segment. */
  lemma FilledSlotOtherStep(es: seq<Entry>, slots: seq<Option<Wrap>>, data: seq<byte>, pos: nat, seg: int, i: nat, k: nat)
    requires |slots| == |es| && i < |es| && k < |es| && es[i].segment != seg
    requires SegmentLengthsValid(es, seg, i)
    ensures FilledSlot(es, slots, data, pos, seg, i + 1, k) == FilledSlot(es, slots, data, pos, seg, i, k)
  {
    if i < k {
      assert SegmentBytes(es, seg, i, k) == SegmentBytes(es, seg, i + 1, k);
    }
  }

  predicate FillSegmentOk(es: seq<Entry>, slots: seq<Option<Wrap>>, data: seq<byte>, pos: nat, seg: int, i: nat)
    requires |slots| == |es| && i <= |es|
  {
    FillFrom(es, slots, data, pos, seg, i).Ok?
  }

  /** ShaderProgram.Read(seg), when it succeeds, stops right after the bytes of
      the segment's entries, or at the end of the stream. */
  lemma {:induction false} FillSegmentEnd(es: seq<Entry>, slots: seq<Option<Wrap>>, data: seq<byte>, pos: nat, seg: int, i: nat)
    requires |slots| == |es| && i <= |es| && pos <= |data|
    requires SegmentLengthsValid(es, seg, i)
    ensures FillSegmentOk(es, slots, data, pos, seg, i)
    ensures FillFrom(es, slots, data, pos, seg, i).value.1 == Min(pos + SegmentBytes(es, seg, i, |es|), |data|)
    decreases |es| - i
  {
    FillSegmentFails(es, slots, data, pos, seg, i);
    if i < |es| {
      if es[i].segment == seg {
        var c := ChunkAt(data, pos, es[i].length).value;
        FillSegmentEnd(es, slots[i := Some(Wrap(es[i], c.0))], data, c.1, seg, i + 1);
      } else {
        FillSegmentEnd(es, slots, data, pos, seg, i + 1);
      }
    }
  }

  // ----- one sub-program record -----

  const Version55: int := 201608170        // Unity 5.5: four more reserved bytes
  const Version2019_1: int := 201806140    // Unity 2019.1: local keywords appear
  const Version2021_2: int := 202012090    // Unity 2021.2: local keywords gone again

  predicate HasLocalKeywords(version: int)
  {
    Version2019_1 <= version < Version2021_2
  }

  /** The bytes skipped after the program type. */
  function ReservedLength(version: int): nat
  {
    if version >= Version55 then 16 else 12
  }

  /** ShaderSubProgram as parsed; strings are kept as their UTF-8 bytes. */
  datatype SubProgram = SubProgram(
    version: int,
    programType: GpuProgramType,
    keywords: seq<seq<byte>>,
    localKeywords: Option<seq<seq<byte>>>,
    code: seq<byte>)

  /** A keyword count and that many aligned strings; a negative count fails
      when the string array is allocated. */
  function KeywordListAt(data: seq<byte>, pos: nat): Result<(seq<seq<byte>>, nat)>
  {
    var n :- Int32At(data, pos);
    :- Need(n.0 >= 0, Overflow);
    AlignedStringsAt(data, n.1, n.0)
  }

  /** The local keyword list, read only inside its version band. */
  function LocalKeywordsAt(data: seq<byte>, pos: nat, version: int): Result<(Option<seq<seq<byte>>>, nat)>
  {
    if HasLocalKeywords(version) then
      var l :- KeywordListAt(data, pos);
      Ok((Some(l.0), l.1))
    else
      Ok((None, pos))
  }

  /** ShaderSubProgram's constructor. */
  function SubProgramAt(data: seq<byte>, pos: nat): (r: Result<(SubProgram, nat)>)
    ensures r.Ok? ==> (r.value.0.localKeywords.Some? <==> HasLocalKeywords(r.value.0.version))
    ensures r.Ok? ==> Canonical(r.value.0.programType) && r.value.1 % 4 == 0
  {
    var version :- Int32At(data, pos);
    var typeCode :- Int32At(data, version.1);
    ProgramTypeCodeRoundTrip(typeCode.0);
    RecordBodyAt(data, typeCode.1 + ReservedLength(version.0), version.0, ProgramTypeOfCode(typeCode.0))
  }

  /** The rest of a record after the reserved bytes: the keyword lists, the
      code, and the alignment that ends the record. */
  function RecordBodyAt(data: seq<byte>, pos: nat, version: int, t: GpuProgramType): (r: Result<(SubProgram, nat)>)
    ensures r.Ok? ==> r.value.0.version == version && r.value.0.programType == t
    ensures r.Ok? ==> (r.value.0.localKeywords.Some? <==> HasLocalKeywords(version)) && r.value.1 % 4 == 0
  {
    var keywords :- KeywordListAt(data, pos);
    var locals :- LocalKeywordsAt(data, keywords.1, version);
    var code :- ByteArrayAt(data, locals.1);
    Ok((SubProgram(version, t, keywords.0, locals.0, code.0), Align4(code.1)))
  }

  /** ShaderSubProgramWrap.genShaderSubProgram: a record parsed from the start of a buffer. */
  function ParseSubProgram(buffer: seq<byte>): Result<SubProgram>
  {
    var r :- SubProgramAt(buffer, 0);
    Ok(r.0)
  }

  // ----- the writer's layout of a record, the partner of SubProgramAt -----
  // Positions inside a record are multiples of four; the lemmas below name
  // them by their word index `w` (byte position 4 * w).

  predicate StringsEncodable(ss: seq<seq<byte>>)
  {
    |ss| < TwoTo31 && forall k :: 0 <= k < |ss| ==> |ss[k]| < TwoTo31
  }

  /** A length-prefixed payload padded to a multiple of four (WriteAlignedString). */
  function EncodeAlignedString(s: seq<byte>): (b: seq<byte>)
    ensures |b| == 4 * (1 + Words(|s|))
  {
    EncodeInt32(|s|) + s + Zeros(PadLength(|s|))
  }

  /** The words taken by a run of aligned strings. */
  function StringsWords(ss: seq<seq<byte>>): nat
  {
    if ss == [] then 0 else 1 + Words(|ss[0]|) + StringsWords(ss[1..])
  }

  function EncodeStrings(ss: seq<seq<byte>>): (b: seq<byte>)
    ensures |b| == 4 * StringsWords(ss)
  {
    if ss == [] then [] else EncodeAlignedString(ss[0]) + EncodeStrings(ss[1..])
  }

  function EncodeKeywordList(ss: seq<seq<byte>>): (b: seq<byte>)
    ensures |b| == 4 * (1 + StringsWords(ss))
  {
    EncodeInt32(|ss|) + EncodeStrings(ss)
  }

  function LocalWords(locals: Option<seq<seq<byte>>>): nat
  {
    if locals.Some? then 1 + StringsWords(locals.value) else 0
  }

  function EncodeLocalKeywords(locals: Option<seq<seq<byte>>>): (b: seq<byte>)
    ensures |b| == 4 * LocalWords(locals)
  {
    if locals.Some? then EncodeKeywordList(locals.value) else []
  }

  /** The keyword list, then the local keyword list where the version has one. */
  function EncodeKeywordBlocks(keywords: seq<seq<byte>>, locals: Option<seq<seq<byte>>>): (b: seq<byte>)
    ensures |b| == 4 * (1 + StringsWords(keywords) + LocalWords(locals))
  {
    EncodeKeywordList(keywords) + EncodeLocalKeywords(locals)
  }

  /** A record a writer can lay out: 32-bit fields, a program type the cast
      produces, and local keywords present exactly inside their version band. */
  predicate SubProgramEncodable(sp: SubProgram)
  {
    && IsInt32(sp.version)
    && Canonical(sp.programType) && IsInt32(ProgramTypeCode(sp.programType))
    && StringsEncodable(sp.keywords)
    && (sp.localKeywords.Some? <==> HasLocalKeywords(sp.version))
    && (sp.localKeywords.Some? ==> StringsEncodable(sp.localKeywords.value))
    && |sp.code| < TwoTo31
  }

  /** Version, program type and the reserved bytes. */
  function EncodeHeader(sp: SubProgram): (b: seq<byte>)
    ensures |b| == 8 + ReservedLength(sp.version)
  {
    EncodeInt32(sp.version) + EncodeInt32(ProgramTypeCode(sp.programType)) + Zeros(ReservedLength(sp.version))
  }

  /** The keyword blocks, then the code array, padded like a string. */
  function EncodeRecordBody(sp: SubProgram): seq<byte>
  {
    EncodeKeywordBlocks(sp.keywords, sp.localKeywords) + EncodeAlignedString(sp.code)
  }

  /** A record as a writer lays it out. */
  function EncodeSubProgram(sp: SubProgram): seq<byte>
  {
    EncodeHeader(sp) + EncodeRecordBody(sp)
  }

  // The lemmas below name every position they speak of, `pos` being the
  // byte position of word `w`, so that each result is stated on the very
  // terms its callers hold.

  /** A padded length-prefixed array reads back, and alignment lands after its padding. */
  lemma AlignedArrayIn(data: seq<byte>, pos: nat, w: nat, s: seq<byte>, payloadEnd: nat, end: nat)
    requires pos == 4 * w && payloadEnd == pos + 4 + |s| && end == pos + 4 + 4 * Words(|s|)
    requires |s| < TwoTo31 && At(data, pos, EncodeAlignedString(s))
    ensures ByteArrayAt(data, pos) == Ok((s, payloadEnd)) && Align4(payloadEnd) == end
  {
    AtSplit(data, pos, EncodeInt32(|s|) + s, Zeros(PadLength(|s|)));
    ByteArrayIn(data, pos, s);
    AlignAfterPayload(pos, w, |s|);
  }

  /** ReadAlignedString reads back what EncodeAlignedString lays out. */
  lemma AlignedStringIn(data: seq<byte>, pos: nat, w: nat, s: seq<byte>, end: nat)
    requires pos == 4 * w && end == pos + 4 + 4 * Words(|s|)
    requires |s| < TwoTo31 && At(data, pos, EncodeAlignedString(s))
    ensures AlignedStringAt(data, pos) == Ok((s, end))
  {
    var payloadEnd := pos + 4 + |s|;
    AlignedArrayIn(data, pos, w, s, payloadEnd, end);
    AlignedStringFromParts(data, pos, s, payloadEnd, end);
  }

  lemma AlignedStringFromParts(data: seq<byte>, pos: nat, s: seq<byte>, p: nat, end: nat)
    requires ByteArrayAt(data, pos) == Ok((s, p)) && Align4(p) == end
    ensures AlignedStringAt(data, pos) == Ok((s, end))
  {
  }

  /** AlignedStringsAt is one string followed by the others. */
  lemma StringsFromParts(data: seq<byte>, pos: nat, ss: seq<seq<byte>>, mid: nat, end: nat)
    requires |ss| > 0
    requires AlignedStringAt(data, pos) == Ok((ss[0], mid))
    requires AlignedStringsAt(data, mid, |ss| - 1) == Ok((ss[1..], end))
    ensures AlignedStringsAt(data, pos, |ss|) == Ok((ss, end))
  {
    assert [ss[0]] + ss[1..] == ss;
  }

  lemma {:induction false} StringsIn(data: seq<byte>, pos: nat, w: nat, ss: seq<seq<byte>>, end: nat)
    requires pos == 4 * w && end == pos + 4 * StringsWords(ss)
    requires forall k :: 0 <= k < |ss| ==> |ss[k]| < TwoTo31
    requires At(data, pos, EncodeStrings(ss))
    ensures AlignedStringsAt(data, pos, |ss|) == Ok((ss, end))
    decreases |ss|
  {
    if ss != [] {
      var mid := pos + 4 + 4 * Words(|ss[0]|);
      AtSplit(data, pos, EncodeAlignedString(ss[0]), EncodeStrings(ss[1..]));
      assert pos + |EncodeAlignedString(ss[0])| == mid;
      AlignedStringIn(data, pos, w, ss[0], mid);
      StringsIn(data, mid, w + 1 + Words(|ss[0]|), ss[1..], end);
      StringsFromParts(data, pos, ss, mid, end);
    }
  }

  /** KeywordListAt is a count followed by that many aligned strings. */
  lemma KeywordListFromParts(data: seq<byte>, pos: nat, ss: seq<seq<byte>>, p: nat, end: nat)
    requires Int32At(data, pos) == Ok((|ss|, p)) && AlignedStringsAt(data, p, |ss|) == Ok((ss, end))
    ensures KeywordListAt(data, pos) == Ok((ss, end))
  {
  }

  lemma KeywordListIn(data: seq<byte>, pos: nat, w: nat, ss: seq<seq<byte>>, end: nat)
    requires pos == 4 * w && end == pos + 4 + 4 * StringsWords(ss)
    requires StringsEncodable(ss) && At(data, pos, EncodeKeywordList(ss))
    ensures KeywordListAt(data, pos) == Ok((ss, end))
  {
    AtSplit(data, pos, EncodeInt32(|ss|), EncodeStrings(ss));
    Int32AtEncoded(data, pos, |ss|);
    StringsIn(data, pos + 4, w + 1, ss, end);
    KeywordListFromParts(data, pos, ss, pos + 4, end);
  }

  lemma HeaderIn(data: seq<byte>, sp: SubProgram)
    requires SubProgramEncodable(sp) && At(data, 0, EncodeHeader(sp))
    ensures Int32At(data, 0) == Ok((sp.version, 4))
    ensures Int32At(data, 4) == Ok((ProgramTypeCode(sp.programType), 8))
  {
    var e1 := EncodeInt32(sp.version);
    var e2 := EncodeInt32(ProgramTypeCode(sp.programType));
    AtSplit(data, 0, e1 + e2, Zeros(ReservedLength(sp.version)));
    AtSplit(data, 0, e1, e2);
    Int32AtEncoded(data, 0, sp.version);
    Int32AtEncoded(data, 4, ProgramTypeCode(sp.programType));
  }

  /** LocalKeywordsAt reads a keyword list exactly inside the version band. */
  lemma LocalKeywordsFromList(data: seq<byte>, pos: nat, version: int, locals: Option<seq<seq<byte>>>, end: nat)
    requires locals.Some? <==> HasLocalKeywords(version)
    requires locals.Some? ==> KeywordListAt(data, pos) == Ok((locals.value, end))
    requires locals.None? ==> end == pos
    ensures LocalKeywordsAt(data, pos, version) == Ok((locals, end))
  {
  }

  lemma LocalKeywordsIn(data: seq<byte>, pos: nat, w: nat, locals: Option<seq<seq<byte>>>, version: int, end: nat)
    requires pos == 4 * w && end == pos + 4 * LocalWords(locals)
    requires locals.Some? ==> StringsEncodable(locals.value)
    requires locals.Some? <==> HasLocalKeywords(version)
    requires At(data, pos, EncodeLocalKeywords(locals))
    ensures LocalKeywordsAt(data, pos, version) == Ok((locals, end))
  {
    if locals.Some? {
      KeywordListIn(data, pos, w, locals.value, end);
    }
    LocalKeywordsFromList(data, pos, version, locals, end);
  }

  /** The keyword list ends at `mid`, the local keyword list at `end`. */
  lemma KeywordBlocksIn(data: seq<byte>, pos: nat, w: nat, keywords: seq<seq<byte>>, locals: Option<seq<seq<byte>>>,
                        version: int, mid: nat, end: nat)
    requires pos == 4 * w && mid == pos + 4 + 4 * StringsWords(keywords) && end == mid + 4 * LocalWords(locals)
    requires StringsEncodable(keywords) && (locals.Some? ==> StringsEncodable(locals.value))
    requires locals.Some? <==> HasLocalKeywords(version)
    requires At(data, pos, EncodeKeywordBlocks(keywords, locals))
    ensures KeywordListAt(data, pos) == Ok((keywords, mid))
    ensures LocalKeywordsAt(data, mid, version) == Ok((locals, end))
  {
    KeywordBlocksSplit(data, pos, keywords, locals, mid);
    KeywordListIn(data, pos, w, keywords, mid);
    LocalKeywordsIn(data, mid, w + 1 + StringsWords(keywords), locals, version, end);
  }

  lemma KeywordBlocksSplit(data: seq<byte>, pos: nat, keywords: seq<seq<byte>>, locals: Option<seq<seq<byte>>>, mid: nat)
    requires mid == pos + 4 + 4 * StringsWords(keywords)
    requires At(data, pos, EncodeKeywordBlocks(keywords, locals))
    ensures At(data, pos, EncodeKeywordList(keywords)) && At(data, mid, EncodeLocalKeywords(locals))
  {
    AtSplit(data, pos, EncodeKeywordList(keywords), EncodeLocalKeywords(locals));
  }

  /** Every record a writer lays out parses back to itself: the reader skips 12
      reserved bytes, or 16 from version 201608170 on, reads local keywords only
      from 201806140 up to (not including) 202012090, and ends on the program code. */
  lemma SubProgramRoundTrip(sp: SubProgram)
    requires SubProgramEncodable(sp)
    ensures ParseSubProgram(EncodeSubProgram(sp)) == Ok(sp)
  {
    var data := EncodeSubProgram(sp);
    assert At(data, 0, data) by {
      AtSlice(data, 0, data);
      assert data[0..|data|] == data;
    }
    SubProgramIn(data, sp);
  }

  /** A record laid out at the front of a stream reads back whole and ends
      where its bytes end. */
  lemma SubProgramIn(data: seq<byte>, sp: SubProgram)
    requires SubProgramEncodable(sp) && At(data, 0, EncodeSubProgram(sp))
    ensures SubProgramAt(data, 0) == Ok((sp, |EncodeSubProgram(sp)|))
  {
    var w := if sp.version >= Version55 then 6 else 5;
    var mid := 4 * w + 4 + 4 * StringsWords(sp.keywords);
    var codeAt := mid + 4 * LocalWords(sp.localKeywords);
    var end := codeAt + 4 + 4 * Words(|sp.code|);
    assert end == |EncodeSubProgram(sp)| && 4 * w == |EncodeHeader(sp)|;
    SubProgramSplit(data, sp, 4 * w, codeAt);
    HeaderIn(data, sp);
    RecordBodyIn(data, 4 * w, w, sp, mid, codeAt, end);
    ProgramTypeOfCodeRoundTrip(sp.programType);
    SubProgramFromParts(data, sp.version, ProgramTypeCode(sp.programType), sp.programType, 4 * w, Ok((sp, end)));
  }

  /** SubProgramAt is the header followed by RecordBodyAt. */
  lemma SubProgramFromParts(data: seq<byte>, version: int, tc: int, t: GpuProgramType, pos: nat, body: Result<(SubProgram, nat)>)
    requires Int32At(data, 0) == Ok((version, 4)) && Int32At(data, 4) == Ok((tc, 8))
    requires ProgramTypeOfCode(tc) == t && pos == 8 + ReservedLength(version)
    requires RecordBodyAt(data, pos, version, t) == body
    ensures SubProgramAt(data, 0) == body
  {
  }

  /** The keyword lists end at `mid` and `codeAt`, the padded code at `end`. */
  lemma RecordBodyIn(data: seq<byte>, pos: nat, w: nat, sp: SubProgram, mid: nat, codeAt: nat, end: nat)
    requires pos == 4 * w && mid == pos + 4 + 4 * StringsWords(sp.keywords)
    requires codeAt == mid + 4 * LocalWords(sp.localKeywords) && end == codeAt + 4 + 4 * Words(|sp.code|)
    requires StringsEncodable(sp.keywords) && (sp.localKeywords.Some? ==> StringsEncodable(sp.localKeywords.value))
    requires (sp.localKeywords.Some? <==> HasLocalKeywords(sp.version)) && |sp.code| < TwoTo31
    requires At(data, pos, EncodeKeywordBlocks(sp.keywords, sp.localKeywords)) && At(data, codeAt, EncodeAlignedString(sp.code))
    ensures RecordBodyAt(data, pos, sp.version, sp.programType) == Ok((sp, end))
  {
    KeywordBlocksIn(data, pos, w, sp.keywords, sp.localKeywords, sp.version, mid, codeAt);
    var codeEnd := codeAt + 4 + |sp.code|;
    AlignedArrayIn(data, codeAt, w + 1 + StringsWords(sp.keywords) + LocalWords(sp.localKeywords), sp.code, codeEnd, end);
    RecordBodyFromParts(data, pos, sp, mid, codeAt, codeEnd, end);
  }

  /** A record laid out at `0` is its header, its keyword blocks from `pos` and its code from `codeAt`. */
  lemma SubProgramSplit(data: seq<byte>, sp: SubProgram, pos: nat, codeAt: nat)
    requires At(data, 0, EncodeSubProgram(sp))
    requires pos == |EncodeHeader(sp)| && codeAt == pos + |EncodeKeywordBlocks(sp.keywords, sp.localKeywords)|
    ensures At(data, 0, EncodeHeader(sp))
    ensures At(data, pos, EncodeKeywordBlocks(sp.keywords, sp.localKeywords))
    ensures At(data, codeAt, EncodeAlignedString(sp.code))
  {
    AtSplit(data, 0, EncodeHeader(sp), EncodeRecordBody(sp));
    AtSplit(data, pos, EncodeKeywordBlocks(sp.keywords, sp.localKeywords), EncodeAlignedString(sp.code));
  }

  /** RecordBodyAt is the keyword list, the local keywords and the code, in order. */
  lemma RecordBodyFromParts(data: seq<byte>, pos: nat, sp: SubProgram, p1: nat, p2: nat, p3: nat, end: nat)
    requires KeywordListAt(data, pos) == Ok((sp.keywords, p1))
    requires LocalKeywordsAt(data, p1, sp.version) == Ok((sp.localKeywords, p2))
    requires ByteArrayAt(data, p2) == Ok((sp.code, p3)) && Align4(p3) == end
    ensures RecordBodyAt(data, pos, sp.version, sp.programType) == Ok((sp, end))
  {
  }

  // ----- the imperative readers -----

  /** ShaderSubProgramEntry's constructor, reading from a stream. */
  method ReadEntry(reader: Reader, v: Version) returns (r: Result<Entry>)
    modifies reader
    ensures Performed(r, EntryAt(reader.data, old(reader.pos), v), reader.pos)
  {
    var offset :- reader.ReadInt32();
    var length :- reader.ReadInt32();
    var segment := 0;
    if HasSegmentField(v) {
      segment :- reader.ReadInt32();
    }
    r := Ok(Entry(offset, length, segment));
  }

  /** A keyword count followed by the keyword loop of ShaderSubProgram's constructor. */
  method ReadKeywordList(reader: Reader) returns (r: Result<seq<seq<byte>>>)
    modifies reader
    ensures Performed(r, KeywordListAt(reader.data, old(reader.pos)), reader.pos)
  {
    var n :- reader.ReadInt32();
    if n < 0 {
      return Err(Overflow);
    }
    r := ReadAlignedStrings(reader, n);
  }

  /** The keyword loop: `n` aligned strings, in order. */
  method ReadAlignedStrings(reader: Reader, n: nat) returns (r: Result<seq<seq<byte>>>)
    modifies reader
    ensures Performed(r, AlignedStringsAt(reader.data, old(reader.pos), n), reader.pos)
  {
    ghost var start := reader.pos;
    var words: seq<seq<byte>> := [];
    ThenEmpty(AlignedStringsAt(reader.data, start, n));
    var i := 0;
    while i < n
      invariant 0 <= i <= n
      invariant AlignedStringsAt(reader.data, start, n) == Then(words, AlignedStringsAt(reader.data, reader.pos, n - i))
      decreases n - i
    {
      ghost var before := reader.pos;
      var w := reader.ReadAlignedString();
      StringsLoopStep(reader.data, start, n, words, i, before, w, reader.pos);
      if w.Err? {
        return Err(w.error);
      }
      words := words + [w.value];
      i := i + 1;
    }
    assert words + [] == words;
    r := Ok(words);
  }

  /** One turn of the keyword loop keeps its invariant, or ends it with the
      failure the whole run has. */
  lemma StringsLoopStep(data: seq<byte>, start: nat, n: nat, words: seq<seq<byte>>, i: nat, pos: nat,
                        w: Result<seq<byte>>, after: nat)
    requires i < n && AlignedStringsAt(data, start, n) == Then(words, AlignedStringsAt(data, pos, n - i))
    requires Performed(w, AlignedStringAt(data, pos), after)
    ensures w.Err? ==> AlignedStringsAt(data, start, n) == Err(w.error)
    ensures w.Ok? ==> AlignedStringsAt(data, start, n) == Then(words + [w.value], AlignedStringsAt(data, after, n - i - 1))
  {
    StringsStep(data, pos, n - i, w, after);
    if w.Ok? {
      ThenAssociative(words, [w.value], AlignedStringsAt(data, after, n - i - 1));
    }
  }

  /** One more aligned string read off the front of a run of `count`. */
  lemma StringsStep(data: seq<byte>, pos: nat, count: nat, w: Result<seq<byte>>, after: nat)
    requires count > 0 && Performed(w, AlignedStringAt(data, pos), after)
    ensures w.Err? ==> AlignedStringsAt(data, pos, count) == Err(w.error)
    ensures w.Ok? ==> AlignedStringsAt(data, pos, count) == Then([w.value], AlignedStringsAt(data, after, count - 1))
  {
  }

  /** `prefix` followed by what `rest` reads, or the failure of `rest`. */
  function Then(prefix: seq<seq<byte>>, rest: Result<(seq<seq<byte>>, nat)>): Result<(seq<seq<byte>>, nat)>
  {
    match rest
    case Ok(r) => Ok((prefix + r.0, r.1))
    case Err(e) => Err(e)
  }

  lemma ThenEmpty(rest: Result<(seq<seq<byte>>, nat)>)
    ensures Then([], rest) == rest
  {
    if rest.Ok? {
      assert [] + rest.value.0 == rest.value.0;
    }
  }

  lemma ThenAssociative(a: seq<seq<byte>>, b: seq<seq<byte>>, rest: Result<(seq<seq<byte>>, nat)>)
    ensures Then(a, Then(b, rest)) == Then(a + b, rest)
  {
    if rest.Ok? {
      assert a + (b + rest.value.0) == (a + b) + rest.value.0;
    }
  }

  /** ShaderSubProgram's constructor, reading from a stream. */
  method ReadSubProgram(reader: Reader) returns (r: Result<SubProgram>)
    modifies reader
    ensures Performed(r, SubProgramAt(reader.data, old(reader.pos)), reader.pos)
  {
    var version :- reader.ReadInt32();
    var typeCode :- reader.ReadInt32();
    reader.Skip(12);
    if version >= Version55 {
      reader.Skip(4);
    }
    ProgramTypeCodeRoundTrip(typeCode);
    r := ReadRecordBody(reader, version, ProgramTypeOfCode(typeCode));
  }

  /** The part of ShaderSubProgram's constructor after the reserved bytes. */
  method ReadRecordBody(reader: Reader, version: int, t: GpuProgramType) returns (r: Result<SubProgram>)
    modifies reader
    ensures Performed(r, RecordBodyAt(reader.data, old(reader.pos), version, t), reader.pos)
  {
    var keywords :- ReadKeywordList(reader);
    var localKeywords :- ReadLocalKeywords(reader, version);
    var code :- reader.ReadUInt8Array();
    reader.AlignStream();
    r := Ok(SubProgram(version, t, keywords, localKeywords, code));
  }

  /** The local keyword list, read only inside its version band. */
  method ReadLocalKeywords(reader: Reader, version: int) returns (r: Result<Option<seq<seq<byte>>>>)
    modifies reader
    ensures Performed(r, LocalKeywordsAt(reader.data, old(reader.pos), version), reader.pos)
  {
    if HasLocalKeywords(version) {
      var l :- ReadKeywordList(reader);
      r := Ok(Some(l));
    } else {
      r := Ok(None);
    }
  }

  /** ShaderSubProgramWrap.genShaderSubProgram: parse the wrap's own buffer. */
  method GenShaderSubProgram(w: Wrap) returns (r: Result<SubProgram>)
    ensures r == ParseSubProgram(w.buffer)
    ensures r.Ok? ==> (r.value.localKeywords.Some? <==> HasLocalKeywords(r.value.version))
  {
    var reader := new Reader(w.buffer);
    r := ReadSubProgram(reader);
  }

  /** The loop of ShaderProgram's constructor: one entry per element of `es`,
      in index order. */
  method ReadEntries(reader: Reader, v: Version, es: array<Entry>) returns (o: Outcome)
    modifies reader, es
    ensures match EntriesAt(reader.data, old(reader.pos), v, es.Length)
            case Ok(t) => o == Pass && es[..] == t.0 && reader.pos == t.1
            case Err(e) => o == Fail(e)
  {
    ghost var start := reader.pos;
    ThenEntriesEmpty(EntriesAt(reader.data, start, v, es.Length));
    var i := 0;
    while i < es.Length
      invariant 0 <= i <= es.Length
      invariant EntriesAt(reader.data, start, v, es.Length) == ThenEntries(es[..i], EntriesAt(reader.data, reader.pos, v, es.Length - i))
      decreases es.Length - i
    {
      var e := ReadEntry(reader, v);
      if e.Err? {
        return Fail(e.error);
      }
      es[i] := e.value;
      assert es[..i + 1] == es[..i] + [e.value];
      ThenEntriesAssociative(es[..i], [e.value], EntriesAt(reader.data, reader.pos, v, es.Length - i - 1));
      i := i + 1;
    }
    assert es[..] == es[..es.Length] + [];
    o := Pass;
  }

  /** The slots of a freshly created program: none read yet. */
  function NoWraps(n: nat): (r: seq<Option<Wrap>>)
    ensures |r| == n && forall i :: 0 <= i < n ==> r[i] == None
  {
    seq(n, _ => None)
  }

  /** The program table of one platform once loaded: its entries and, per entry,
      the wrap read for it (None while its segment has not been read). */
  datatype ProgramTable = ProgramTable(entries: seq<Entry>, wraps: seq<Option<Wrap>>)

  /** ShaderProgram: the entry table and the slots that Read fills in place. */
  class ShaderProgram {
    var entries: array<Entry>
    var wraps: array<Option<Wrap>>

    ghost predicate Valid()
      reads this
    {
      entries.Length == wraps.Length
    }

    function Table(): (t: ProgramTable)
      reads this, entries, wraps
      requires Valid()
      ensures |t.entries| == |t.wraps|
    {
      ProgramTable(entries[..], wraps[..])
    }

    constructor Init(es: array<Entry>, slots: array<Option<Wrap>>)
      requires es.Length == slots.Length
      ensures Valid() && entries == es && wraps == slots
    {
      entries := es;
      wraps := slots;
    }

    /** ShaderProgram's constructor: the entry count, the entries, and as many
        empty wrap slots. */
    static method Create(reader: Reader, v: Version) returns (r: Result<ShaderProgram>)
      modifies reader
      ensures r.Ok? ==> fresh(r.value) && fresh(r.value.entries) && fresh(r.value.wraps) && r.value.Valid()
      ensures match EntryTableAt(reader.data, old(reader.pos), v)
              case Ok(t) => r.Ok? && reader.pos == t.1 && r.value.Table() == ProgramTable(t.0, NoWraps(|t.0|))
              case Err(e) => r == Err(e)
    {
      var count :- reader.ReadInt32();
      if count < 0 {
        return Err(Overflow);
      }
      var es := new Entry[count];
      var o := ReadEntries(reader, v, es);
      if o.Fail? {
        return Err(o.error);
      }
      var slots := new Option<Wrap>[count](_ => None);
      var p := new ShaderProgram.Init(es, slots);
      r := Ok(p);
    }

    /** ShaderProgram.Read: fill the slots of the entries of one segment, in
        index order, from the reader's current position. */
    method Read(reader: Reader, segment: int) returns (o: Outcome)
      requires Valid()
      modifies wraps, reader
      ensures Valid()
      ensures match FillFrom(entries[..], old(wraps[..]), reader.data, old(reader.pos), segment, 0)
              case Ok(t) => o == Pass && wraps[..] == t.0 && reader.pos == t.1
              case Err(e) => o == Fail(e)
    {
      var i := 0;
      while i < entries.Length
        invariant 0 <= i <= entries.Length
        invariant FillFrom(entries[..], old(wraps[..]), reader.data, old(reader.pos), segment, 0)
                  == FillFrom(entries[..], wraps[..], reader.data, reader.pos, segment, i)
        decreases entries.Length - i
      {
        var entry := entries[i];
        if entry.segment == segment {
          var buffer := reader.ReadChunk(entry.length);
          if buffer.Err? {
            return Fail(buffer.error);
          }
          wraps[i] := Some(Wrap(entry, buffer.value));
        }
        i := i + 1;
      }
      o := Pass;
    }
  }

  /** `prefix` followed by the entries `rest` reads, or the failure of `rest`. */
  function ThenEntries(prefix: seq<Entry>, rest: Result<(seq<Entry>, nat)>): Result<(seq<Entry>, nat)>
  {
    match rest
    case Ok(r) => Ok((prefix + r.0, r.1))
    case Err(e) => Err(e)
  }

  lemma ThenEntriesEmpty(rest: Result<(seq<Entry>, nat)>)
    ensures ThenEntries([], rest) == rest
  {
    if rest.Ok? {
      assert [] + rest.value.0 == rest.value.0;
    }
  }

  lemma ThenEntriesAssociative(a: seq<Entry>, b: seq<Entry>, rest: Result<(seq<Entry>, nat)>)
    ensures ThenEntries(a, ThenEntries(b, rest)) == ThenEntries(a + b, rest)
  {
    if rest.Ok? {
      assert a + (b + rest.value.0) == (a + b) + rest.value.0;
    }
  }
}
