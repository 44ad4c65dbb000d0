/** How one sub-program becomes text: its keyword lists and its code, rendered
    according to its program type. The decoders this relies on (UTF-8, the
    DXBC and SPIR-V disassemblers, LZ4) are passed in as `Services`. */
module SubProgramExport {
  import opened Base
  import opened BinaryReading
  import opened ShaderEnums
  import opened ShaderProgramFormat

  /** What the SPIR-V disassembler gives back: text, or the message of the
      exception it threw. */
  datatype Disassembly = Disassembled(text: string) | Failed(message: string)

  /** The libraries the converter calls and which are not modelled: UTF-8
      decoding, the DXBC disassembler (empty text on failure), the SPIR-V
      disassembler, LZ4 decoding into a buffer of the given length, the
      regex-based export of pre-5.5 programs, and the culture-dependent
      printing of floats. */
  datatype Services = Services(
    utf8: seq<byte> -> string,
    dxbc: seq<byte> -> string,
    spirv: seq<byte> -> Disassembly,
    lz4: (seq<byte>, nat) -> seq<byte>,
    legacyExport: (ProgramTable, string) -> string,
    showFloat: real -> string)

  const MetalMagic: nat := 0xf00d_cafe

  /** The source text of a Metal program: after a four-byte tag (which, when it
      is the magic number, is followed by the offset of the entry name), a
      zero-terminated entry name, then the source up to the end. */
  function MetalSourceAt(code: seq<byte>): Result<seq<byte>>
  {
    var tag :- UInt32At(code, 0);
    var nameStart :- (if tag.0 == MetalMagic then HeaderOffset(code, tag.1) else Ok(tag.1));
    var sourceStart :- SkipToNull(code, nameStart);
    Ok(code[sourceStart..])
  }

  /** The Int32 after the magic number, as a stream position: a negative one is
      refused by the stream. */
  function HeaderOffset(code: seq<byte>, pos: nat): (r: Result<nat>)
    ensures r.Ok? ==> Int32At(code, pos).Ok? && r.value == Int32At(code, pos).value.0
    ensures r.Err? ==> Int32At(code, pos).Err? || Int32At(code, pos).value.0 < 0
  {
    var off :- Int32At(code, pos);
    if off.0 < 0 then Err(ArgumentOutOfRange) else Ok(off.0)
  }

  /** The Metal branch of Export, as reads on a fresh reader over the code. */
  method ReadMetalSource(code: seq<byte>) returns (r: Result<seq<byte>>)
    ensures r == MetalSourceAt(code)
  {
    var reader := new Reader(code);
    var tag := reader.ReadUInt32();
    if tag.Err? {
      return Err(tag.error);
    }
    if tag.value == MetalMagic {
      var off := reader.ReadInt32();
      if off.Err? {
        return Err(off.error);
      }
      var o := reader.Seek(off.value);
      if o.Fail? {
        return Err(o.error);
      }
    }
    var entryName := reader.ReadStringToNull();
    if entryName.Err? {
      return Err(entryName.error);
    }
    r := reader.ReadToEnd();
  }

  /** A Metal program with the header: magic, offset, any bytes up to the
      offset, the entry name and its terminator, the source. */
  function EncodeMetal(gap: seq<byte>, name: seq<byte>, source: seq<byte>): seq<byte>
    requires 8 + |gap| < TwoTo31
  {
    EncodeUInt32(MetalMagic) + EncodeInt32(8 + |gap|) + gap + name + [0] + source
  }

  /** Reading a zero-terminated name stops just past its terminator. */
  lemma {:induction false} SkipNamedNull(data: seq<byte>, pos: nat, name: seq<byte>)
    requires forall k :: 0 <= k < |name| ==> name[k] != 0
    requires pos + |name| < |data| && data[pos..pos + |name| + 1] == name + [0]
    ensures SkipToNull(data, pos) == Ok(pos + |name| + 1)
    decreases |name|
  {
    assert data[pos + |name|] == (name + [0])[|name|];
    if |name| > 0 {
      assert data[pos] == (name + [0])[0] == name[0];
      var tail := name[1..];
      assert data[pos + 1..pos + 1 + |tail| + 1] == tail + [0] by {
        forall k | 0 <= k < |tail| + 1
          ensures data[pos + 1..pos + 1 + |tail| + 1][k] == (tail + [0])[k]
        {
          assert data[pos + 1 + k] == (name + [0])[k + 1];
        }
      }
      SkipNamedNull(data, pos + 1, tail);
    }
  }

  /** The source written after a Metal header is what Export reads back, as
      long as the entry name holds no zero byte. */
  lemma MetalRoundTrip(gap: seq<byte>, name: seq<byte>, source: seq<byte>)
    requires 8 + |gap| < TwoTo31
    requires forall k :: 0 <= k < |name| ==> name[k] != 0
    ensures MetalSourceAt(EncodeMetal(gap, name, source)) == Ok(source)
  {
    var data := EncodeMetal(gap, name, source);
    var m := EncodeUInt32(MetalMagic);
    var o := EncodeInt32(8 + |gap|);
    var start := 8 + |gap|;
    UInt32RoundTrip(MetalMagic);
    Int32RoundTrip(8 + |gap|);
    assert data[0..4] == m;
    assert UInt32At(data, 0) == Ok((MetalMagic, 4));
    assert data[4..8] == o;
    assert Int32At(data, 4) == Ok((start, 8));
    assert data[start..start + |name| + 1] == name + [0];
    SkipNamedNull(data, start, name);
    assert data[start + |name| + 1..] == source;
  }

  /** Without the magic number the four-byte tag is simply skipped: the entry
      name starts right after it. */
  lemma MetalWithoutHeader(tag: seq<byte>, name: seq<byte>, source: seq<byte>)
    requires |tag| == 4 && LE32(tag) != MetalMagic
    requires forall k :: 0 <= k < |name| ==> name[k] != 0
    ensures MetalSourceAt(tag + name + [0] + source) == Ok(source)
  {
    var data := tag + name + [0] + source;
    assert data[0..4] == tag;
    assert data[4..4 + |name| + 1] == name + [0];
    SkipNamedNull(data, 4, name);
    assert data[4 + |name| + 1..] == source;
  }

  /** How the code of each program type is rendered. */
  datatype Renderer = AsText | DirectX | MetalSource | SpirV | NotRendered

  /** The reference classification of program types by the branch of Export
      that handles them. */
  function RendererOf(t: GpuProgramType): Renderer
  {
    match t
    case GLLegacy | GLES31AEP | GLES31 | GLES3 | GLES | GLCore32 | GLCore41 | GLCore43 => AsText
    case ConsoleVS | ConsoleFS | ConsoleHS | ConsoleDS | ConsoleGS => AsText
    case DX9VertexSM20 | DX9VertexSM30 | DX9PixelSM20 | DX9PixelSM30 => DirectX
    case DX10Level9Vertex | DX10Level9Pixel => DirectX
    case DX11VertexSM40 | DX11VertexSM50 | DX11PixelSM40 | DX11PixelSM50 => DirectX
    case DX11GeometrySM40 | DX11GeometrySM50 | DX11HullSM50 | DX11DomainSM50 => DirectX
    case MetalVS | MetalFS => MetalSource
    case SPIRV => SpirV
    case _ => NotRendered
  }

  /** The text between the quotes for non-empty code. */
  function CodeText(t: GpuProgramType, code: seq<byte>, svc: Services): Result<string>
  {
    match t
    case GLLegacy => Ok(svc.utf8(code))
    case GLES31AEP => Ok(svc.utf8(code))
    case GLES31 => Ok(svc.utf8(code))
    case GLES3 => Ok(svc.utf8(code))
    case GLES => Ok(svc.utf8(code))
    case GLCore32 => Ok(svc.utf8(code))
    case GLCore41 => Ok(svc.utf8(code))
    case GLCore43 => Ok(svc.utf8(code))
    case DX9VertexSM20 => Ok(svc.dxbc(code))
    case DX9VertexSM30 => Ok(svc.dxbc(code))
    case DX9PixelSM20 => Ok(svc.dxbc(code))
    case DX9PixelSM30 => Ok(svc.dxbc(code))
    case DX10Level9Vertex => Ok(svc.dxbc(code))
    case DX10Level9Pixel => Ok(svc.dxbc(code))
    case DX11VertexSM40 => Ok(svc.dxbc(code))
    case DX11VertexSM50 => Ok(svc.dxbc(code))
    case DX11PixelSM40 => Ok(svc.dxbc(code))
    case DX11PixelSM50 => Ok(svc.dxbc(code))
    case DX11GeometrySM40 => Ok(svc.dxbc(code))
    case DX11GeometrySM50 => Ok(svc.dxbc(code))
    case DX11HullSM50 => Ok(svc.dxbc(code))
    case DX11DomainSM50 => Ok(svc.dxbc(code))
    case MetalVS => var src :- MetalSourceAt(code); Ok(svc.utf8(src))
    case MetalFS => var src :- MetalSourceAt(code); Ok(svc.utf8(src))
    case SPIRV =>
      (match svc.spirv(code)
       case Disassembled(text) => Ok(text)
       case Failed(message) => Ok("// disassembly error " + message + "\n"))
    case ConsoleVS => Ok(svc.utf8(code))
    case ConsoleFS => Ok(svc.utf8(code))
    case ConsoleHS => Ok(svc.utf8(code))
    case ConsoleDS => Ok(svc.utf8(code))
    case ConsoleGS => Ok(svc.utf8(code))
    case _ => Ok(NotSupportedNote(t))
  }

  function NotSupportedNote(t: GpuProgramType): string
  {
    "//shader disassembly not supported on " + ProgramTypeName(t)
  }

  /** Each keyword quoted and followed by a space. */
  function QuotedList(kws: seq<seq<byte>>, svc: Services): (r: string)
    ensures |kws| > 0 ==> r == "\"" + svc.utf8(kws[0]) + "\" " + QuotedList(kws[1..], svc)
  {
    if |kws| == 0 then "" else "\"" + svc.utf8(kws[0]) + "\" " + QuotedList(kws[1..], svc)
  }

  /** `<title> { "k1" "k2" }` on its own line, or nothing for an empty or absent list. */
  function KeywordBlock(title: string, kws: Option<seq<seq<byte>>>, svc: Services): (r: string)
    ensures r == "" <==> kws.None? || |kws.value| == 0
  {
    if kws.Some? && |kws.value| > 0 then title + " { " + QuotedList(kws.value, svc) + "}\n" else ""
  }

  /** SubProgram.Export: the keyword blocks, then the rendered code in double
      quotes. Only a malformed Metal header makes it fail. */
  function Export(sp: SubProgram, svc: Services): Result<string>
  {
    var body :- if |sp.code| > 0 then CodeText(sp.programType, sp.code, svc) else Ok("");
    Ok(KeywordBlock("Keywords", Some(sp.keywords), svc)
       + KeywordBlock("Local Keywords", sp.localKeywords, svc)
       + "\"" + body + "\"")
  }

  /** Export fails exactly for non-empty Metal code whose header cannot be
      read, and then with the reader's error. */
  lemma ExportFailsOnlyOnMetalHeader(sp: SubProgram, svc: Services)
    ensures Export(sp, svc).Err? <==>
      RendererOf(sp.programType) == MetalSource && |sp.code| > 0 && MetalSourceAt(sp.code).Err?
    ensures Export(sp, svc).Err? ==> Export(sp, svc).error == MetalSourceAt(sp.code).error
  {
  }

  /** The code part of the export, by renderer: what each library returns, or
      the note for the types no branch handles. */
  lemma ExportByRenderer(sp: SubProgram, svc: Services)
    requires |sp.code| > 0
    ensures RendererOf(sp.programType) == AsText ==> CodeText(sp.programType, sp.code, svc) == Ok(svc.utf8(sp.code))
    ensures RendererOf(sp.programType) == DirectX ==> CodeText(sp.programType, sp.code, svc) == Ok(svc.dxbc(sp.code))
    ensures RendererOf(sp.programType) == NotRendered ==>
      CodeText(sp.programType, sp.code, svc) == Ok(NotSupportedNote(sp.programType))
    ensures RendererOf(sp.programType) == SpirV && svc.spirv(sp.code).Failed? ==>
      CodeText(sp.programType, sp.code, svc) == Ok("// disassembly error " + svc.spirv(sp.code).message + "\n")
    ensures RendererOf(sp.programType) == SpirV && svc.spirv(sp.code).Disassembled? ==>
      CodeText(sp.programType, sp.code, svc) == Ok(svc.spirv(sp.code).text)
    ensures RendererOf(sp.programType) == MetalSource && MetalSourceAt(sp.code).Ok? ==>
      CodeText(sp.programType, sp.code, svc) == Ok(svc.utf8(MetalSourceAt(sp.code).value))
  {
  }

  /** Empty code gives an empty pair of quotes after the keyword blocks,
      whatever the type. */
  lemma EmptyCodeExport(sp: SubProgram, svc: Services)
    requires |sp.code| == 0
    ensures Export(sp, svc) == Ok(KeywordBlock("Keywords", Some(sp.keywords), svc)
                                  + KeywordBlock("Local Keywords", sp.localKeywords, svc) + "\"\"")
  {
    var blocks := KeywordBlock("Keywords", Some(sp.keywords), svc) + KeywordBlock("Local Keywords", sp.localKeywords, svc);
    var q: string := "\"";
    assert q + q == "\"\"";
    assert blocks + q + "" == blocks + q;
    assert blocks + q + q == blocks + (q + q);
  }

  /** Every type a known platform's compiler emits has a renderer, except the
      PS5 NGGC program type: such programs are selected, then printed as not supported. */
  lemma SelectableTypesRendered(p: Platform, t: GpuProgramType)
    requires CheckGpuProgramUsable(p, t) == Ok(true)
    ensures RendererOf(t) == NotRendered <==> t == PS5NGGCProgram
  {
    UsableOnlyOnHomePlatform(p, t);
    if RendererOf(t) == NotRendered {
      assert t.Unknown? || t.RayTracing? || t.PS5NGGCProgram? || t.UnmappedProgramType?;
      assert HomePlatform(t) == Some(p);
    }
  }
}
