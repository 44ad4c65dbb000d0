/** The whole listing: properties, sub-shaders, passes and the programs of
    each pass stage, the loading of the per-platform program tables from the
    compressed blob, and the three paths of Shader.Convert. */
module ShaderText {
  import opened Base
  import opened Text
  import opened ShaderEnums
  import opened BinaryReading
  import opened ShaderProgramFormat
  import opened SubProgramExport
  import opened NameResolver
  import opened StateText
  import opened ProgramSelection

  // ---------------------------------------------------------------------
  // Properties

  datatype PropertyType =
    | ColorProperty | VectorProperty | FloatProperty | RangeProperty | TextureProperty | IntProperty
    | UnmappedPropertyType(code: int)

  datatype TextureDimension =
    | UnknownDimension | NoDimension | AnyDimension | Tex2D | Tex3D | Cube | Tex2DArray | CubeArray
    | UnmappedDimension(code: int)

  /** The four floats of m_DefValue. */
  datatype Vector4 = Vector4(x: real, y: real, z: real, w: real)

  datatype Property = Property(
    attributes: seq<string>, name: string, description: string, propertyType: PropertyType,
    defValue: Vector4, texDim: TextureDimension, defaultTextureName: string)

  /** Math.Round: to the nearest integer, halves to the even neighbour. */
  function RoundHalfEven(x: real): (r: int)
    ensures -0.5 <= x - r as real <= 0.5
    ensures x - r as real == 0.5 || x - r as real == -0.5 ==> r % 2 == 0
  {
    var f := x.Floor;
    var d := x - f as real;
    if d < 0.5 then f
    else if d > 0.5 then f + 1
    else if f % 2 == 0 then f
    else f + 1
  }

  function Dist(a: real, b: real): real
  {
    if a >= b then a - b else b - a
  }

  /** No integer is closer to `x` than the rounded value. */
  lemma RoundIsNearest(x: real, n: int)
    ensures Dist(x, RoundHalfEven(x) as real) <= Dist(x, n as real)
  {
    var r := RoundHalfEven(x);
    if n != r {
      assert n <= r - 1 || n >= r + 1;
    }
  }

  function AttributeList(attributes: seq<string>): string
  {
    if attributes == [] then "" else "[" + attributes[0] + "] " + AttributeList(attributes[1..])
  }

  function DimensionName(d: TextureDimension): string
  {
    match d
    case AnyDimension => "any"
    case Tex2D => "2D"
    case Tex3D => "3D"
    case Cube => "Cube"
    case Tex2DArray => "2DArray"
    case CubeArray => "CubeArray"
    case _ => ""
  }

  /** The type between the description and `) =`; Int and unknown types have
      no case in the first switch and print nothing there. */
  function TypeText(p: Property, svc: Services): string
  {
    match p.propertyType
    case ColorProperty => "Color"
    case VectorProperty => "Vector"
    case FloatProperty => "Float"
    case RangeProperty => "Range(" + svc.showFloat(p.defValue.y) + ", " + svc.showFloat(p.defValue.z) + ")"
    case TextureProperty => DimensionName(p.texDim)
    case _ => ""
  }

  /** The default value; an unknown type throws ArgumentOutOfRangeException. */
  function DefaultText(p: Property, svc: Services): (r: Result<string>)
    ensures r.Err? <==> p.propertyType.UnmappedPropertyType?
    ensures r.Err? ==> r.error == ArgumentOutOfRange
  {
    var v := p.defValue;
    match p.propertyType
    case ColorProperty => Ok(Tuple4(v, svc))
    case VectorProperty => Ok(Tuple4(v, svc))
    case FloatProperty => Ok(svc.showFloat(v.x))
    case RangeProperty => Ok(svc.showFloat(v.x))
    case IntProperty => Ok(IntToString(RoundHalfEven(v.x)))
    case TextureProperty => Ok("\"" + p.defaultTextureName + "\" { }")
    case UnmappedPropertyType(_) => Err(ArgumentOutOfRange)
  }

  function Tuple4(v: Vector4, svc: Services): string
  {
    "(" + svc.showFloat(v.x) + "," + svc.showFloat(v.y) + "," + svc.showFloat(v.z) + "," + svc.showFloat(v.w) + ")"
  }

  /** ConvertSerializedProperty: attributes, `name ("description", type) = default`. */
  function ConvertSerializedProperty(p: Property, level: nat, svc: Services): Result<string>
  {
    var value :- DefaultText(p, svc);
    Ok(Indent(level) + AttributeList(p.attributes) + p.name + " (\"" + p.description + "\", "
       + TypeText(p, svc) + ") = " + value + "\n")
  }

  /** An Int property prints its rounded default but no type name. */
  lemma IntPropertyLine(p: Property, level: nat, svc: Services)
    requires p.propertyType == IntProperty && p.attributes == []
    ensures ConvertSerializedProperty(p, level, svc)
         == Ok(Indent(level) + p.name + " (\"" + p.description + "\", " + ") = "
               + IntToString(RoundHalfEven(p.defValue.x)) + "\n")
  {
    assert AttributeList(p.attributes) == "";
    assert Indent(level) + "" == Indent(level);
    assert TypeText(p, svc) == "";
    var head := Indent(level) + p.name + " (\"" + p.description + "\", ";
    assert head + "" == head;
  }

  function PropertyLines(props: seq<Property>, level: nat, svc: Services): (r: Result<string>)
    ensures r.Err? <==> exists k :: 0 <= k < |props| && props[k].propertyType.UnmappedPropertyType?
    decreases |props|
  {
    if props == [] then Ok("")
    else
      var first :- ConvertSerializedProperty(props[0], level, svc);
      var rest :- PropertyLines(props[1..], level, svc);
      assert forall k :: 1 <= k < |props| ==> props[k] == props[1..][k - 1];
      Ok(first + rest)
  }

  function ConvertSerializedProperties(props: seq<Property>, level: nat, svc: Services): Result<string>
  {
    var lines :- PropertyLines(props, level + 1, svc);
    Ok(Line(level, "Properties {\n") + lines + Line(level, "}\n"))
  }

  // ---------------------------------------------------------------------
  // Programs of a pass stage

  /** ConvertPrograms: the texture bindings and the Parameters block when the
      program has common parameters, then the Program block of its
      sub-programs and the PlayerProgram block of its flattened player
      sub-programs, each only when non-empty. */
  function ConvertPrograms(names: map<int, string>, program: Option<SerializedProgram>, programType: string,
                           platforms: seq<Platform>, programs: seq<Option<ProgramTable>>,
                           level: nat, svc: Services): Result<string>
    requires |programs| == |platforms|
  {
    var common := if program.Some? then program.value.commonParameters else None;
    var textures :- if common.Some? then TextureBindings(names, common.value.textureParams, level, {}) else Ok(("", {}));
    var buffers :- if common.Some? then ConvertConstantBuffer(names, common.value, programType, level, textures.1)
                   else Ok(("", textures.1));
    var serialized :- if program.Some? && |program.value.subPrograms| > 0 then
                        var inner :- ConvertSubPrograms(SerializedRefs(program.value.subPrograms), platforms, programs, level + 1, svc);
                        Ok(Line(level, "Program \"" + programType + "\" {\n") + inner + Line(level, "}\n"))
                      else Ok("");
    var flat := Flatten(program);
    var players :- if |flat| > 0 then
                     var inner :- ConvertSubPrograms(PlayerRefs(flat), platforms, programs, level + 1, svc);
                     Ok(Line(level, "PlayerProgram \"" + programType + "\" {\n") + inner + Line(level, "}\n"))
                   else Ok("");
    Ok(textures.0 + buffers.0 + serialized + players)
  }

  /** A null program stage prints nothing. */
  lemma AbsentProgramEmpty(names: map<int, string>, programType: string, platforms: seq<Platform>,
                           programs: seq<Option<ProgramTable>>, level: nat, svc: Services)
    requires |programs| == |platforms|
    ensures ConvertPrograms(names, None, programType, platforms, programs, level, svc) == Ok("")
  {
    assert Flatten(None) == [];
    assert "" + "" + "" + "" == "";
  }

  /** A program with common parameters always gets a Parameters block, even
      without constant buffers or sub-programs. */
  lemma ParametersAlwaysPrinted(names: map<int, string>, params: Parameters, programType: string,
                                platforms: seq<Platform>, programs: seq<Option<ProgramTable>>, level: nat, svc: Services)
    requires |programs| == |platforms|
    requires params.textureParams == [] && params.constantBuffers == []
    ensures ConvertPrograms(names, Some(SerializedProgram([], None, Some(params))), programType, platforms, programs, level, svc)
         == Ok(Line(level, "Parameters \"" + programType + "\" {\n") + Line(level, "}\n"))
  {
    ConstantBufferEmpty(names, params, programType, level, {});
    var block := Line(level, "Parameters \"" + programType + "\" {\n") + Line(level, "}\n");
    assert "" + block + "" + "" == block;
  }

  // ---------------------------------------------------------------------
  // Passes and sub-shaders

  datatype PassType = NormalPass | UsePass | GrabPass | UnmappedPassType(code: int)

  datatype Pass = Pass(
    passType: PassType, useName: string, textureName: string, state: ShaderState,
    nameIndices: seq<(string, int)>,
    progVertex: Option<SerializedProgram>, progFragment: Option<SerializedProgram>,
    progGeometry: Option<SerializedProgram>, progHull: Option<SerializedProgram>,
    progDomain: Option<SerializedProgram>, progRayTracing: Option<SerializedProgram>)

  /** The program stages of a pass with the label each is printed under. */
  function Stages(p: Pass): seq<(string, Option<SerializedProgram>)>
  {
    [("vp", p.progVertex), ("fp", p.progFragment), ("gp", p.progGeometry),
     ("hp", p.progHull), ("dp", p.progDomain), ("rtp", p.progRayTracing)]
  }

  function StagePrograms(names: map<int, string>, stages: seq<(string, Option<SerializedProgram>)>,
                         platforms: seq<Platform>, programs: seq<Option<ProgramTable>>,
                         level: nat, svc: Services): Result<string>
    requires |programs| == |platforms|
    decreases |stages|
  {
    if stages == [] then Ok("")
    else
      var first :- ConvertPrograms(names, stages[0].1, stages[0].0, platforms, programs, level, svc);
      var rest :- StagePrograms(names, stages[1..], platforms, programs, level, svc);
      Ok(first + rest)
  }

  /** The keyword that opens a pass; an unknown pass type has none. */
  function PassKeyword(t: PassType, level: nat): string
  {
    match t
    case NormalPass => Line(level, "Pass ")
    case UsePass => Line(level, "UsePass ")
    case GrabPass => Line(level, "GrabPass ")
    case UnmappedPassType(_) => ""
  }

  /** ConvertSerializedPass. A UsePass names the pass it reuses and leaves an
      indentation behind; a GrabPass names its texture, if any; every other
      pass prints its state and the programs of its six stages. */
  function ConvertSerializedPass(p: Pass, platforms: seq<Platform>, programs: seq<Option<ProgramTable>>,
                                 level: nat, svc: Services): Result<string>
    requires |programs| == |platforms|
  {
    if p.passType == UsePass then
      Ok(PassKeyword(p.passType, level) + "\"" + p.useName + "\"\n" + Indent(level))
    else if p.passType == GrabPass then
      Ok(PassKeyword(p.passType, level) + "{\n"
         + (if p.textureName != "" then Line(level, "\"" + p.textureName + "\"\n") else "")
         + Line(level, "}\n"))
    else
      var stages :- StagePrograms(NameMap(p.nameIndices), Stages(p), platforms, programs, level + 1, svc);
      Ok(PassBlock(PassKeyword(p.passType, level), ConvertSerializedShaderState(p.state, level + 1), stages, level))
  }

  /** A pass with state and programs: the keyword, the braces around the
      state and the stages, the closing brace at the pass's level. */
  function PassBlock(keyword: string, state: string, stages: string, level: nat): (r: string)
    ensures |r| >= |keyword| + 2 && r[..|keyword|] == keyword && r[|keyword|..|keyword| + 2] == "{\n"
  {
    var r := keyword + "{\n" + state + stages + Line(level, "}\n");
    assert r == keyword + "{\n" + (state + stages + Line(level, "}\n"));
    r
  }

  /** A UsePass line ends with the indentation of its level instead of a line
      break; the next pass is therefore indented twice. */
  lemma UsePassLeavesIndent(p: Pass, platforms: seq<Platform>, programs: seq<Option<ProgramTable>>, level: nat, svc: Services)
    requires |programs| == |platforms| && p.passType == UsePass
    ensures var r := ConvertSerializedPass(p, platforms, programs, level, svc);
            r.Ok? && |r.value| >= 4 * level && r.value[|r.value| - 4 * level..] == Indent(level)
  {
    var head := PassKeyword(p.passType, level) + "\"" + p.useName + "\"\n";
    assert ConvertSerializedPass(p, platforms, programs, level, svc) == Ok(head + Indent(level));
    assert (head + Indent(level))[|head|..] == Indent(level);
  }

  /** A pass of unknown type opens with a bare brace: no keyword, no indentation. */
  lemma UnmappedPassOpensWithBrace(p: Pass, platforms: seq<Platform>, programs: seq<Option<ProgramTable>>, level: nat, svc: Services)
    requires |programs| == |platforms| && p.passType.UnmappedPassType?
    ensures var r := ConvertSerializedPass(p, platforms, programs, level, svc);
            r.Ok? ==> |r.value| >= 2 && r.value[..2] == "{\n"
  {
    var stages := StagePrograms(NameMap(p.nameIndices), Stages(p), platforms, programs, level + 1, svc);
    if stages.Ok? {
      assert PassKeyword(p.passType, level) == [];
    }
  }

  function PassLines(passes: seq<Pass>, platforms: seq<Platform>, programs: seq<Option<ProgramTable>>,
                     level: nat, svc: Services): Result<string>
    requires |programs| == |platforms|
    decreases |passes|
  {
    if passes == [] then Ok("")
    else
      var first :- ConvertSerializedPass(passes[0], platforms, programs, level, svc);
      var rest :- PassLines(passes[1..], platforms, programs, level, svc);
      Ok(first + rest)
  }

  datatype SubShader = SubShader(lod: int, tags: seq<(string, string)>, passes: seq<Pass>)

  /** ConvertSerializedSubShader: the LOD line when non-zero, the tags, the
      passes one level deeper. */
  function ConvertSerializedSubShader(s: SubShader, platforms: seq<Platform>, programs: seq<Option<ProgramTable>>,
                                      level: nat, svc: Services): Result<string>
    requires |programs| == |platforms|
  {
    var passes :- PassLines(s.passes, platforms, programs, level + 1, svc);
    Ok(Line(level, "SubShader {\n") + LodLine(s.lod, level + 1) + ConvertSerializedTagMap(s.tags, level + 1)
       + passes + Line(level, "}\n"))
  }

  function SubShaderLines(subs: seq<SubShader>, platforms: seq<Platform>, programs: seq<Option<ProgramTable>>,
                          level: nat, svc: Services): Result<string>
    requires |programs| == |platforms|
    decreases |subs|
  {
    if subs == [] then Ok("")
    else
      var first :- ConvertSerializedSubShader(subs[0], platforms, programs, level, svc);
      var rest :- SubShaderLines(subs[1..], platforms, programs, level, svc);
      Ok(first + rest)
  }

  /** SerializedShader, the parsed form: name, properties, sub-shaders and
      the fallback and custom editor names (empty when absent). */
  datatype SerializedShader = SerializedShader(
    name: string, props: seq<Property>, subShaders: seq<SubShader>,
    fallbackName: string, customEditorName: string)

  function OptionalLine(keyword: string, value: string, level: nat): (r: string)
    ensures r == "" <==> value == ""
  {
    if value != "" then Line(level, keyword + " \"" + value + "\"\n") else ""
  }

  /** The parsed form as text: properties and sub-shaders one level deeper,
      Fallback and CustomEditor at the shader's own level, and a closing brace
      without a line break. */
  function ConvertSerializedShaderTree(parsed: SerializedShader, platforms: seq<Platform>,
                                       programs: seq<Option<ProgramTable>>, level: nat, svc: Services): (r: Result<string>)
    requires |programs| == |platforms|
    ensures r.Ok? ==> var open := Line(level, "Shader \"" + parsed.name + "\" {\n");
                      |r.value| >= |open| + 4 * level + 1
                      && r.value[..|open|] == open
                      && r.value[|r.value| - 4 * level - 1..] == Line(level, "}")
  {
    var props :- ConvertSerializedProperties(parsed.props, level + 1, svc);
    var subs :- SubShaderLines(parsed.subShaders, platforms, programs, level + 1, svc);
    var open := Line(level, "Shader \"" + parsed.name + "\" {\n");
    var body := props + subs + OptionalLine("Fallback", parsed.fallbackName, level)
                + OptionalLine("CustomEditor", parsed.customEditorName, level);
    var close := Line(level, "}");
    var text := open + body + close;
    assert |close| == 4 * level + 1;
    assert text[..|open|] == open;
    assert text[|text| - |close|..] == close;
    Ok(text)
  }

  /** An empty Properties block is still printed. */
  lemma EmptyProperties(level: nat, svc: Services)
    ensures ConvertSerializedProperties([], level, svc) == Ok(Line(level, "Properties {\n") + Line(level, "}\n"))
  {
    assert PropertyLines([], level + 1, svc) == Ok("");
    assert Line(level, "Properties {\n") + "" == Line(level, "Properties {\n");
  }

  /** A sub-shader without LOD, tags or passes is a bare block. */
  lemma EmptySubShader(platforms: seq<Platform>, programs: seq<Option<ProgramTable>>, level: nat, svc: Services)
    requires |programs| == |platforms|
    ensures ConvertSerializedSubShader(SubShader(0, [], []), platforms, programs, level, svc)
         == Ok(Line(level, "SubShader {\n") + Line(level, "}\n"))
  {
    assert PassLines([], platforms, programs, level + 1, svc) == Ok("");
    assert LodLine(0, level + 1) == "";
    assert ConvertSerializedTagMap([], level + 1) == "";
    assert Line(level, "SubShader {\n") + "" + "" + "" == Line(level, "SubShader {\n");
  }

  /** A shader with one empty sub-shader and nothing else. */
  lemma MinimalShader(platforms: seq<Platform>, programs: seq<Option<ProgramTable>>, svc: Services)
    requires |programs| == |platforms|
    ensures ConvertSerializedShaderTree(SerializedShader("X", [], [SubShader(0, [], [])], "", ""), platforms, programs, 0, svc)
         == Ok("Shader \"X\" {\n" + "    Properties {\n" + "    }\n" + "    SubShader {\n" + "    }\n" + "}")
  {
    var sub := SubShader(0, [], []);
    EmptyProperties(1, svc);
    EmptySubShader(platforms, programs, 1, svc);
    var props := Line(1, "Properties {\n") + Line(1, "}\n");
    var subText := Line(1, "SubShader {\n") + Line(1, "}\n");
    assert SubShaderLines([sub], platforms, programs, 1, svc) == Ok(subText + "");
    var open := Line(0, "Shader \"" + "X" + "\" {\n");
    var body := props + (subText + "") + OptionalLine("Fallback", "", 0) + OptionalLine("CustomEditor", "", 0);
    assert ConvertSerializedShaderTree(SerializedShader("X", [], [sub], "", ""), platforms, programs, 0, svc)
        == Ok(open + body + Line(0, "}"));
    MinimalShaderText(open, body, props, subText);
  }

  lemma MinimalShaderText(open: string, body: string, props: string, subText: string)
    requires open == Line(0, "Shader \"" + "X" + "\" {\n")
    requires props == Line(1, "Properties {\n") + Line(1, "}\n")
    requires subText == Line(1, "SubShader {\n") + Line(1, "}\n")
    requires body == props + (subText + "") + "" + ""
    ensures open + body + Line(0, "}")
         == "Shader \"X\" {\n" + "    Properties {\n" + "    }\n" + "    SubShader {\n" + "    }\n" + "}"
  {
    assert Indent(0) == "";
    assert Indent(1) == "    ";
    assert open == "Shader \"X\" {\n";
    assert Line(0, "}") == "}";
  }

  // ---------------------------------------------------------------------
  // Loading the program tables

  /** The Shader object: its version, the platforms of its compressed blob
      with the per-segment offsets and lengths (jagged arrays, indexed by
      platform then segment), the blobs, the script and the parsed form. */
  datatype Shader = Shader(
    version: Version, platforms: seq<Platform>,
    offsets: seq<seq<nat>>, compressedLengths: seq<seq<nat>>, decompressedLengths: seq<seq<nat>>,
    compressedBlob: Option<seq<byte>>,
    subProgramBlob: Option<seq<byte>>, decompressedSize: nat,
    script: seq<byte>, parsedForm: SerializedShader)

  /** The bytes of segment j of platform i: its compressed slice decoded into a
      buffer of the decompressed length. */
  function DecompressedSegment(s: Shader, blob: seq<byte>, i: nat, j: nat, svc: Services): (r: Result<seq<byte>>)
    requires i < |s.offsets| && j < |s.offsets[i]|
    ensures r.Ok? <==> i < |s.compressedLengths| && j < |s.compressedLengths[i]|
                       && i < |s.decompressedLengths| && j < |s.decompressedLengths[i]|
                       && s.offsets[i][j] + s.compressedLengths[i][j] <= |blob|
    ensures r.Ok? ==> |r.value| == s.decompressedLengths[i][j]
  {
    var offset := s.offsets[i][j];
    :- Need(i < |s.compressedLengths| && j < |s.compressedLengths[i]|, IndexOutOfRange);
    :- Need(i < |s.decompressedLengths| && j < |s.decompressedLengths[i]|, IndexOutOfRange);
    var length := s.compressedLengths[i][j];
    var size := s.decompressedLengths[i][j];
    :- Need(offset + length <= |blob|, ArgumentOutOfRange);
    Ok(Fit(svc.lz4(blob[offset..offset + length], size), size))
  }

  /** One segment: segment 0 creates the program from the entry table at the
      front of its bytes and reads its own wraps after the table; a later
      segment reads its wraps from the front of its bytes into the existing
      program. */
  function LoadSegment(acc: Option<ProgramTable>, bytes: seq<byte>, v: Version, j: nat): (r: Result<ProgramTable>)
    requires acc.Some? ==> |acc.value.entries| == |acc.value.wraps|
    ensures r.Ok? ==> |r.value.entries| == |r.value.wraps|
    ensures r.Ok? && j > 0 ==> acc.Some? && r.value.entries == acc.value.entries
  {
    if j == 0 then
      var table :- EntryTableAt(bytes, 0, v);
      var filled :- FillFrom(table.0, NoWraps(|table.0|), bytes, table.1, 0, 0);
      Ok(ProgramTable(table.0, filled.0))
    else if acc.None? then Err(NullReference)
    else
      var filled :- FillFrom(acc.value.entries, acc.value.wraps, bytes, 0, j, 0);
      Ok(ProgramTable(acc.value.entries, filled.0))
  }

  /** The segments of platform i from j on. */
  function LoadPlatform(s: Shader, blob: seq<byte>, svc: Services, i: nat, j: nat, acc: Option<ProgramTable>)
    : (r: Result<Option<ProgramTable>>)
    requires i < |s.offsets| && j <= |s.offsets[i]|
    requires acc.Some? ==> |acc.value.entries| == |acc.value.wraps|
    ensures r.Ok? && r.value.Some? ==> |r.value.value.entries| == |r.value.value.wraps|
    decreases |s.offsets[i]| - j
  {
    if j == |s.offsets[i]| then Ok(acc)
    else
      var bytes :- DecompressedSegment(s, blob, i, j, svc);
      var table :- LoadSegment(acc, bytes, s.version, j);
      LoadPlatform(s, blob, svc, i, j + 1, Some(table))
  }

  /** The program tables of the platforms from i on, one per platform; a
      platform without segments keeps a null program. */
  function LoadPrograms(s: Shader, blob: seq<byte>, svc: Services, i: nat): (r: Result<seq<Option<ProgramTable>>>)
    ensures r.Ok? ==> |r.value| == |s.platforms| - i || (i > |s.platforms| && r.value == [])
    decreases |s.platforms| - i
  {
    if i >= |s.platforms| then Ok([])
    else
      :- Need(i < |s.offsets|, IndexOutOfRange);
      var table :- LoadPlatform(s, blob, svc, i, 0, None);
      var rest :- LoadPrograms(s, blob, svc, i + 1);
      Ok([table] + rest)
  }

  function PrefixWith(prefix: seq<Option<ProgramTable>>, rest: Result<seq<Option<ProgramTable>>>)
    : Result<seq<Option<ProgramTable>>>
  {
    match rest
    case Ok(tables) => Ok(prefix + tables)
    case Err(e) => Err(e)
  }

  lemma PrefixWithNothing(rest: Result<seq<Option<ProgramTable>>>)
    ensures PrefixWith([], rest) == rest
  {
    if rest.Ok? {
      assert [] + rest.value == rest.value;
    }
  }

  lemma PrefixWithTwice(a: seq<Option<ProgramTable>>, b: seq<Option<ProgramTable>>, rest: Result<seq<Option<ProgramTable>>>)
    ensures PrefixWith(a, PrefixWith(b, rest)) == PrefixWith(a + b, rest)
  {
    if rest.Ok? {
      assert a + (b + rest.value) == (a + b) + rest.value;
    }
  }

  /** The loaded table of a platform, or null. */
  function Snapshot(p: ShaderProgram?): Option<ProgramTable>
    reads if p != null then {p, p.entries, p.wraps} else {}
    requires p != null ==> p.Valid()
  {
    if p == null then None else Some(p.Table())
  }

  /** The loop of ConvertSerializedShader that fills `shaderPrograms`: one
      program per platform, kept as the table it holds. */
  method LoadShaderPrograms(s: Shader, blob: seq<byte>, svc: Services) returns (r: Result<seq<Option<ProgramTable>>>)
    ensures r == LoadPrograms(s, blob, svc, 0)
  {
    var tables: seq<Option<ProgramTable>> := [];
    PrefixWithNothing(LoadPrograms(s, blob, svc, 0));
    var i := 0;
    while i < |s.platforms|
      invariant i <= |s.platforms|
      invariant LoadPrograms(s, blob, svc, 0) == PrefixWith(tables, LoadPrograms(s, blob, svc, i))
      decreases |s.platforms| - i
    {
      if i >= |s.offsets| {
        return Err(IndexOutOfRange);
      }
      var table := LoadPlatformProgram(s, blob, svc, i);
      if table.Err? {
        return Err(table.error);
      }
      PrefixWithTwice(tables, [table.value], LoadPrograms(s, blob, svc, i + 1));
      tables := tables + [table.value];
      i := i + 1;
    }
    assert tables + [] == tables;
    r := Ok(tables);
  }

  /** The segments of platform i, each decompressed and read, the first one
      creating the program. */
  method LoadPlatformProgram(s: Shader, blob: seq<byte>, svc: Services, i: nat) returns (r: Result<Option<ProgramTable>>)
    requires i < |s.offsets|
    ensures r == LoadPlatform(s, blob, svc, i, 0, None)
  {
    var current: ShaderProgram? := null;
    var j := 0;
    while j < |s.offsets[i]|
      invariant j <= |s.offsets[i]|
      invariant j > 0 <==> current != null
      invariant current != null ==> current.Valid() && fresh(current.wraps)
      invariant LoadPlatform(s, blob, svc, i, 0, None) == LoadPlatform(s, blob, svc, i, j, Snapshot(current))
      decreases |s.offsets[i]| - j
    {
      var bytes := DecompressedSegment(s, blob, i, j, svc);
      if bytes.Err? {
        return Err(bytes.error);
      }
      LoadPlatformStep(s, blob, svc, i, j, Snapshot(current), bytes.value);
      var next := LoadSegmentInto(current, bytes.value, s.version, j);
      if next.Err? {
        return Err(next.error);
      }
      current := next.value;
      j := j + 1;
    }
    r := Ok(Snapshot(current));
  }

  /** One segment of a platform: segment 0 creates the program from the
      front of its bytes, then the segment's wraps are read into the program. */
  method LoadSegmentInto(current: ShaderProgram?, bytes: seq<byte>, v: Version, j: nat) returns (r: Result<ShaderProgram>)
    requires j > 0 <==> current != null
    requires current != null ==> current.Valid()
    modifies if current != null then {current.wraps} else {}
    ensures r.Ok? ==> r.value.Valid()
    ensures r.Ok? && current == null ==> fresh(r.value.wraps)
    ensures r.Ok? && current != null ==> r.value == current
    ensures LoadSegment(old(Snapshot(current)), bytes, v, j) == (if r.Ok? then Ok(r.value.Table()) else Err(r.error))
  {
    var reader := new Reader(bytes);
    var p: ShaderProgram;
    if current == null {
      var created := ShaderProgram.Create(reader, v);
      if created.Err? {
        return Err(created.error);
      }
      p := created.value;
    } else {
      p := current;
    }
    var o := p.Read(reader, j);
    if o.Fail? {
      return Err(o.error);
    }
    r := Ok(p);
  }

  /** LoadPlatform is one segment read into the tables so far, then the rest. */
  lemma LoadPlatformStep(s: Shader, blob: seq<byte>, svc: Services, i: nat, j: nat, acc: Option<ProgramTable>, bytes: seq<byte>)
    requires i < |s.offsets| && j < |s.offsets[i]|
    requires acc.Some? ==> |acc.value.entries| == |acc.value.wraps|
    requires DecompressedSegment(s, blob, i, j, svc) == Ok(bytes)
    ensures LoadPlatform(s, blob, svc, i, j, acc) ==
              match LoadSegment(acc, bytes, s.version, j)
              case Ok(t) => LoadPlatform(s, blob, svc, i, j + 1, Some(t))
              case Err(e) => Err(e)
  {
  }

  /** A platform listed without segments keeps a null program: a sub-program
      group whose first compatible platform it is makes the conversion throw
      NullReferenceException. */
  lemma SegmentlessPlatformFails(s: Shader, blob: seq<byte>, svc: Services, i: nat, g: seq<SubProgramRef>, level: nat)
    requires i < |s.platforms| && i < |s.offsets| && s.offsets[i] == []
    requires LoadPrograms(s, blob, svc, 0).Ok?
    requires |g| > 0 && CheckGpuProgramUsable(s.platforms[i], g[0].programType) == Ok(true)
    requires forall j :: 0 <= j < i ==> CheckGpuProgramUsable(s.platforms[j], g[0].programType) == Ok(false)
    ensures |LoadPrograms(s, blob, svc, 0).value| == |s.platforms|
    ensures ConvertGroup(g, s.platforms, LoadPrograms(s, blob, svc, 0).value, level, svc) == Err(NullReference)
  {
    var programs := LoadPrograms(s, blob, svc, 0).value;
    LoadProgramsAt(s, blob, svc, 0, i);
    assert programs[i] == None;
    GroupIgnoresLaterPlatforms(g, s.platforms, programs, level, svc, i);
  }

  /** Entry k of the loaded tables is what LoadPlatform gives for platform k. */
  lemma {:induction false} LoadProgramsAt(s: Shader, blob: seq<byte>, svc: Services, from: nat, k: nat)
    requires from <= k < |s.platforms| && k < |s.offsets|
    requires LoadPrograms(s, blob, svc, from).Ok?
    ensures LoadPlatform(s, blob, svc, k, 0, None).Ok?
    ensures LoadPrograms(s, blob, svc, from).value[k - from] == LoadPlatform(s, blob, svc, k, 0, None).value
    decreases k - from
  {
    LoadProgramsUnfold(s, blob, svc, from);
    var table := LoadPlatform(s, blob, svc, from, 0, None).value;
    var rest := LoadPrograms(s, blob, svc, from + 1).value;
    if from < k {
      LoadProgramsAt(s, blob, svc, from + 1, k);
      IndexAfterHead(table, rest, k - from);
    }
  }

  lemma IndexAfterHead(x: Option<ProgramTable>, rest: seq<Option<ProgramTable>>, n: nat)
    requires 0 < n <= |rest|
    ensures ([x] + rest)[n] == rest[n - 1]
  {
  }

  /** A successful LoadPrograms is the table of its first platform followed by the others. */
  lemma LoadProgramsUnfold(s: Shader, blob: seq<byte>, svc: Services, from: nat)
    requires from < |s.platforms| && LoadPrograms(s, blob, svc, from).Ok?
    ensures from < |s.offsets|
    ensures LoadPlatform(s, blob, svc, from, 0, None).Ok? && LoadPrograms(s, blob, svc, from + 1).Ok?
    ensures LoadPrograms(s, blob, svc, from).value
            == [LoadPlatform(s, blob, svc, from, 0, None).value] + LoadPrograms(s, blob, svc, from + 1).value
  {
  }

  // ---------------------------------------------------------------------
  // Shader.Convert

  const Header: string :=
    "//////////////////////////////////////////\n"
    + "//\n"
    + "// NOTE: This is *not* a valid shader file\n"
    + "//\n"
    + "///////////////////////////////////////////\n"

  /** ConvertSerializedShader(shader): the tables of every platform, then the
      parsed form at level 0. */
  function SerializedShaderText(s: Shader, blob: seq<byte>, svc: Services): Result<string>
  {
    var programs :- LoadPrograms(s, blob, svc, 0);
    assert |programs| == |s.platforms|;
    ConvertSerializedShaderTree(s.parsedForm, s.platforms, programs, 0, svc)
  }

  method ConvertSerializedShader(s: Shader, blob: seq<byte>, svc: Services) returns (r: Result<string>)
    ensures r == SerializedShaderText(s, blob, svc)
  {
    var programs := LoadShaderPrograms(s, blob, svc);
    if programs.Err? {
      return Err(programs.error);
    }
    r := ConvertSerializedShaderTree(s.parsedForm, s.platforms, programs.value, 0, svc);
  }

  /** Shader.Convert: a 5.3-5.4 shader exports its single program table into
      its script; a 5.5+ shader is rebuilt from its parsed form; otherwise the
      script is printed as it is. The header comes first in every case. */
  function Convert(s: Shader, svc: Services): (r: Result<string>)
    ensures r.Ok? ==> |r.value| >= |Header| && r.value[..|Header|] == Header
    ensures r.Err? ==> s.subProgramBlob.Some? || s.compressedBlob.Some?
  {
    if s.subProgramBlob.Some? then
      var bytes := Fit(svc.lz4(s.subProgramBlob.value, s.decompressedSize), s.decompressedSize);
      var table :- LoadSegment(None, bytes, s.version, 0);
      Ok(Header + svc.legacyExport(table, svc.utf8(s.script)))
    else if s.compressedBlob.Some? then
      var text :- SerializedShaderText(s, s.compressedBlob.value, svc);
      Ok(Header + text)
    else
      Ok(Header + svc.utf8(s.script))
  }

  /** Shader.Convert as the code performs it: the legacy blob is read through
      a ShaderProgram object, the compressed blob through the loading loop. */
  method ConvertShader(s: Shader, svc: Services) returns (r: Result<string>)
    ensures r == Convert(s, svc)
  {
    if s.subProgramBlob.Some? {
      var bytes := Fit(svc.lz4(s.subProgramBlob.value, s.decompressedSize), s.decompressedSize);
      var reader := new Reader(bytes);
      var created := ShaderProgram.Create(reader, s.version);
      if created.Err? {
        return Err(created.error);
      }
      var program := created.value;
      var o := program.Read(reader, 0);
      if o.Fail? {
        return Err(o.error);
      }
      r := Ok(Header + svc.legacyExport(program.Table(), svc.utf8(s.script)));
    } else if s.compressedBlob.Some? {
      var text := ConvertSerializedShader(s, s.compressedBlob.value, svc);
      if text.Err? {
        return Err(text.error);
      }
      r := Ok(Header + text.value);
    } else {
      r := Ok(Header + svc.utf8(s.script));
    }
  }

  /** A shader without blobs is its script after the header. */
  lemma ScriptOnlyShader(s: Shader, svc: Services)
    requires s.subProgramBlob.None? && s.compressedBlob.None?
    ensures Convert(s, svc) == Ok(Header + svc.utf8(s.script))
  {
  }
}
