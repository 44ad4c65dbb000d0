/** The fixed-function state of a pass as ShaderLab text (ShaderConverter.cs,
    lines 365-794): every field is compared with its ShaderLab default and
    printed only when it differs. The state's float values are modelled as the
    integer codes they hold. */
module StateText {
  import opened Base
  import opened Text
  import opened ShaderEnums

  /** One render target's blend state. */
  datatype RTBlend = RTBlend(
    srcBlend: int, destBlend: int, srcBlendAlpha: int, destBlendAlpha: int,
    blendOp: int, blendOpAlpha: int, colMask: int)

  datatype StencilOp = StencilOp(pass: int, fail: int, zFail: int, comp: int)

  /** FogMode; `UnmappedFog` holds a value outside the enumeration. */
  datatype FogMode = FogUnknown | FogDisabled | FogLinear | FogExp | FogExp2 | UnmappedFog(code: int)

  datatype Color = Color(x: int, y: int, z: int, w: int)

  /** SerializedShaderState. `zClip` is None when the asset predates the field. */
  datatype ShaderState = ShaderState(
    name: string, lod: int, tags: seq<(string, string)>,
    rtBlend: seq<RTBlend>, rtSeparateBlend: bool,
    alphaToMask: int, zClip: Option<int>, zTest: int, zWrite: int, culling: int,
    offsetFactor: int, offsetUnits: int,
    stencilRef: int, stencilReadMask: int, stencilWriteMask: int,
    stencilOp: StencilOp, stencilOpFront: StencilOp, stencilOpBack: StencilOp,
    fogMode: FogMode, fogColor: Color, fogDensity: int, fogStart: int, fogEnd: int,
    lighting: bool, gpuProgramID: int)

  // ----- tags -----

  function TagPairs(tags: seq<(string, string)>): string
  {
    if tags == [] then "" else "\"" + tags[0].0 + "\" = \"" + tags[0].1 + "\" " + TagPairs(tags[1..])
  }

  /** ConvertSerializedTagMap: one `Tags { }` line, or nothing when there are no tags. */
  function ConvertSerializedTagMap(tags: seq<(string, string)>, level: nat): (r: string)
    ensures r == "" <==> tags == []
  {
    if |tags| > 0 then Line(level, "Tags { ") + TagPairs(tags) + "}\n" else ""
  }

  // ----- blending, per render target -----

  predicate DefaultBlendFactors(b: RTBlend)
  {
    b.srcBlend == 1 && b.destBlend == 0 && b.srcBlendAlpha == 1 && b.destBlendAlpha == 0
  }

  predicate DefaultBlendOps(b: RTBlend)
  {
    b.blendOp == 0 && b.blendOpAlpha == 0
  }

  /** Blend One Zero, BlendOp Add, ColorMask RGBA. */
  predicate DefaultRTBlend(b: RTBlend)
  {
    DefaultBlendFactors(b) && DefaultBlendOps(b) && b.colMask == 0xF
  }

  /** The render-target number, written when it is not 0 or when targets blend separately. */
  function TargetPrefix(i: nat, separate: bool): (r: string)
    ensures r == "" <==> i == 0 && !separate
  {
    if i != 0 || separate then IntToString(i) + " " else ""
  }

  /** The alpha factors of a Blend line, written unless they are One Zero. */
  function AlphaFactors(b: RTBlend): (r: string)
    ensures r == "" <==> b.srcBlendAlpha == 1 && b.destBlendAlpha == 0
  {
    if b.srcBlendAlpha != 1 || b.destBlendAlpha != 0
    then ", " + ConvertBlendFactor(b.srcBlendAlpha) + " " + ConvertBlendFactor(b.destBlendAlpha)
    else ""
  }

  function BlendLine(i: nat, b: RTBlend, separate: bool, level: nat): (r: string)
    ensures r == "" <==> DefaultBlendFactors(b)
  {
    if !DefaultBlendFactors(b)
    then Line(level, "Blend ") + TargetPrefix(i, separate)
         + ConvertBlendFactor(b.srcBlend) + " " + ConvertBlendFactor(b.destBlend) + AlphaFactors(b) + "\n"
    else ""
  }

  /** The alpha operation of a BlendOp line, written unless it is Add (code 0). */
  function AlphaOp(b: RTBlend): (r: string)
    ensures r == "" <==> b.blendOpAlpha == 0
  {
    if b.blendOpAlpha != 0 then ", " + ConvertBlendOp(b.blendOpAlpha) else ""
  }

  function BlendOpLine(i: nat, b: RTBlend, separate: bool, level: nat): (r: string)
    ensures r == "" <==> DefaultBlendOps(b)
  {
    if !DefaultBlendOps(b)
    then Line(level, "BlendOp ") + TargetPrefix(i, separate) + ConvertBlendOp(b.blendOp) + AlphaOp(b) + "\n"
    else ""
  }

  /** Bit `k` of `v` in two's complement (`(v & (1 << k)) != 0`). */
  predicate Bit(v: int, k: nat)
  {
    (v / Pow2(k)) % 2 == 1
  }

  function Pow2(k: nat): (p: nat)
    ensures p >= 1
  {
    if k == 0 then 1 else 2 * Pow2(k - 1)
  }

  /** The channel letters of a colour mask: bit 1 is R, bit 2 G, bit 3 B and
      bit 0 A; a mask of 0 is written "0". */
  function MaskLetters(v: int): string
  {
    if v == 0 then "0"
    else (if Bit(v, 1) then "R" else "") + (if Bit(v, 2) then "G" else "")
         + (if Bit(v, 3) then "B" else "") + (if Bit(v, 0) then "A" else "")
  }

  /** The channel bit a letter names. */
  function Channel(c: char): nat
  {
    match c
    case 'R' => 2
    case 'G' => 4
    case 'B' => 8
    case 'A' => 1
    case _ => 0
  }

  /** The partner of MaskLetters: the channel bits a run of letters names. */
  function LettersMask(s: string): nat
  {
    if s == [] then 0 else Channel(s[0]) + LettersMask(s[1..])
  }

  lemma {:induction false} LettersMaskAppend(s: string, t: string)
    ensures LettersMask(s + t) == LettersMask(s) + LettersMask(t)
    decreases |s|
  {
    if s != [] {
      assert (s + t)[0] == s[0] && (s + t)[1..] == s[1..] + t;
      LettersMaskAppend(s[1..], t);
    } else {
      assert s + t == t;
    }
  }

  lemma LowBits(v: int)
    ensures (if Bit(v, 1) then 2 else 0) + (if Bit(v, 2) then 4 else 0) + (if Bit(v, 3) then 8 else 0)
            + (if Bit(v, 0) then 1 else 0) == v % 16
  {
    RemainderBits(v);
    SmallMaskBits(v % 16);
  }

  /** The four low bits of `v` are those of `v % 16`. */
  lemma RemainderBits(v: int)
    ensures Bit(v, 0) == Bit(v % 16, 0) && Bit(v, 1) == Bit(v % 16, 1)
    ensures Bit(v, 2) == Bit(v % 16, 2) && Bit(v, 3) == Bit(v % 16, 3)
  {
    assert Pow2(0) == 1 && Pow2(1) == 2 && Pow2(2) == 4 && Pow2(3) == 8;
    var q := v / 16;
    var m := v % 16;
    assert v == 16 * q + m;
    HalfOf(v, q, m);
    QuarterOf(v, q, m);
    EighthOf(v, q, m);
  }

  lemma HalfOf(v: int, q: int, m: int)
    requires v == 16 * q + m && 0 <= m < 16
    ensures v / 2 == 8 * q + m / 2 && (v / 2) % 2 == (m / 2) % 2
  {
    QuotientOf(v, 2, 8 * q + m / 2, m % 2);
    QuotientOf(v / 2, 2, 4 * q + m / 4, (m / 2) % 2);
    QuotientOf(m / 2, 2, m / 4, (m / 2) % 2);
  }

  lemma QuarterOf(v: int, q: int, m: int)
    requires v == 16 * q + m && 0 <= m < 16
    ensures v / 4 == 4 * q + m / 4 && (v / 4) % 2 == (m / 4) % 2
  {
    QuotientOf(v, 4, 4 * q + m / 4, m % 4);
    QuotientOf(v / 4, 2, 2 * q + m / 8, (m / 4) % 2);
    QuotientOf(m / 4, 2, m / 8, (m / 4) % 2);
  }

  lemma EighthOf(v: int, q: int, m: int)
    requires v == 16 * q + m && 0 <= m < 16
    ensures v / 8 == 2 * q + m / 8 && (v / 8) % 2 == (m / 8) % 2
  {
    QuotientOf(v, 8, 2 * q + m / 8, m % 8);
    QuotientOf(v / 8, 2, q, (m / 8) % 2);
  }

  /** Euclidean division is unique: `x == d * q + r` with `0 <= r < d` fixes the
      quotient and the remainder. */
  lemma QuotientOf(x: int, d: int, q: int, r: int)
    requires d in {2, 4, 8} && x == d * q + r && 0 <= r < d
    ensures x / d == q && x % d == r
  {
    if d == 2 {
      assert x == 2 * q + r;
    } else if d == 4 {
      assert x == 4 * q + r;
    } else {
      assert x == 8 * q + r;
    }
  }

  lemma SmallMaskBits(m: int)
    requires 0 <= m < 16
    ensures (if Bit(m, 1) then 2 else 0) + (if Bit(m, 2) then 4 else 0) + (if Bit(m, 3) then 8 else 0)
            + (if Bit(m, 0) then 1 else 0) == m
  {
    assert Pow2(0) == 1 && Pow2(1) == 2 && Pow2(2) == 4 && Pow2(3) == 8;
    if m == 0 {
    } else if m == 1 {
    } else if m == 2 {
    } else if m == 3 {
    } else if m == 4 {
    } else if m == 5 {
    } else if m == 6 {
    } else if m == 7 {
    } else if m == 8 {
    } else if m == 9 {
    } else if m == 10 {
    } else if m == 11 {
    } else if m == 12 {
    } else if m == 13 {
    } else if m == 14 {
    } else {
      assert m == 15;
    }
  }

  /** The letters of a nonzero mask name exactly its four low bits: a mask is
      read back from its ColorMask letters (its bits above the fourth are lost). */
  lemma {:induction false} MaskLettersRoundTrip(v: int)
    requires v != 0
    ensures LettersMask(MaskLetters(v)) == v % 16
  {
    var r: string := if Bit(v, 1) then "R" else "";
    var g: string := if Bit(v, 2) then "G" else "";
    var b: string := if Bit(v, 3) then "B" else "";
    var a: string := if Bit(v, 0) then "A" else "";
    LettersMaskAppend(r, g);
    LettersMaskAppend(r + g, b);
    LettersMaskAppend(r + g + b, a);
    assert LettersMask(r) == (if Bit(v, 1) then 2 else 0);
    assert LettersMask(g) == (if Bit(v, 2) then 4 else 0);
    assert LettersMask(b) == (if Bit(v, 3) then 8 else 0);
    assert LettersMask(a) == (if Bit(v, 0) then 1 else 0);
    LowBits(v);
  }

  /** ColorMask, written unless the mask is 0xF; the target number always follows. */
  function ColorMaskLine(i: nat, b: RTBlend, level: nat): (r: string)
    ensures r == "" <==> b.colMask == 0xF
  {
    if b.colMask != 0xF then Line(level, "ColorMask ") + MaskLetters(b.colMask) + " " + IntToString(i) + "\n" else ""
  }

  /** The lines of render target `i`. */
  function TargetLines(i: nat, b: RTBlend, separate: bool, level: nat): (r: string)
    ensures r == "" <==> DefaultRTBlend(b)
  {
    BlendLine(i, b, separate, level) + BlendOpLine(i, b, separate, level) + ColorMaskLine(i, b, level)
  }

  /** The loop of ConvertSerializedShaderRTBlendState from target `i` on. */
  function TargetsFrom(rts: seq<RTBlend>, separate: bool, level: nat, i: nat): string
    requires i <= |rts|
    decreases |rts| - i
  {
    if i == |rts| then "" else TargetLines(i, rts[i], separate, level) + TargetsFrom(rts, separate, level, i + 1)
  }

  /** ConvertSerializedShaderRTBlendState. */
  function ConvertSerializedShaderRTBlendState(rts: seq<RTBlend>, separate: bool, level: nat): string
  {
    TargetsFrom(rts, separate, level, 0)
  }

  predicate AllDefaultTargets(rts: seq<RTBlend>)
  {
    forall i :: 0 <= i < |rts| ==> DefaultRTBlend(rts[i])
  }

  /** The blend state prints nothing exactly when every target has the default blend. */
  lemma {:induction false} RTBlendStateEmpty(rts: seq<RTBlend>, separate: bool, level: nat, i: nat)
    requires i <= |rts|
    ensures TargetsFrom(rts, separate, level, i) == "" <==> forall k :: i <= k < |rts| ==> DefaultRTBlend(rts[k])
    decreases |rts| - i
  {
    if i < |rts| {
      var first := TargetLines(i, rts[i], separate, level);
      var rest := TargetsFrom(rts, separate, level, i + 1);
      RTBlendStateEmpty(rts, separate, level, i + 1);
      assert TargetsFrom(rts, separate, level, i) == first + rest;
      assert |first + rest| == |first| + |rest|;
      assert (forall k :: i <= k < |rts| ==> DefaultRTBlend(rts[k]))
         <==> DefaultRTBlend(rts[i]) && (forall k :: i + 1 <= k < |rts| ==> DefaultRTBlend(rts[k]));
    }
  }

  // ----- stencil -----

  predicate DefaultStencilOp(op: StencilOp)
  {
    op.pass == 0 && op.fail == 0 && op.zFail == 0 && op.comp == 8
  }

  /** ConvertSerializedStencilOp: the comparison and the three operations of one face. */
  function ConvertSerializedStencilOp(op: StencilOp, suffix: string, level: nat): string
  {
    Line(level, "Comp" + suffix + " " + ConvertStencilComp(op.comp) + "\n")
    + Line(level, "Pass" + suffix + " " + ConvertStencilOp(op.pass) + "\n")
    + Line(level, "Fail" + suffix + " " + ConvertStencilOp(op.fail) + "\n")
    + Line(level, "ZFail" + suffix + " " + ConvertStencilOp(op.zFail) + "\n")
  }

  /** The operations of one face inside the Stencil block, when they differ from the default. */
  function FaceLines(op: StencilOp, suffix: string, level: nat): (r: string)
    ensures r == "" <==> DefaultStencilOp(op)
  {
    if !DefaultStencilOp(op) then ConvertSerializedStencilOp(op, suffix, level) else ""
  }

  predicate DefaultStencil(st: ShaderState)
  {
    && st.stencilRef == 0 && st.stencilReadMask == 255 && st.stencilWriteMask == 255
    && DefaultStencilOp(st.stencilOp) && DefaultStencilOp(st.stencilOpFront) && DefaultStencilOp(st.stencilOpBack)
  }

  function StencilBlock(st: ShaderState, level: nat): (r: string)
    ensures r == "" <==> DefaultStencil(st)
  {
    if !DefaultStencil(st) then
      Line(level, "Stencil {\n")
      + (if st.stencilRef != 0 then Line(level + 1, "Ref " + IntToString(st.stencilRef) + "\n") else "")
      + (if st.stencilReadMask != 255 then Line(level + 1, "ReadMask " + IntToString(st.stencilReadMask) + "\n") else "")
      + (if st.stencilWriteMask != 255 then Line(level + 1, "WriteMask " + IntToString(st.stencilWriteMask) + "\n") else "")
      + FaceLines(st.stencilOp, "", level + 1)
      + FaceLines(st.stencilOpFront, "Front", level + 1)
      + FaceLines(st.stencilOpBack, "Back", level + 1)
      + Line(level, "}\n")
    else ""
  }

  // ----- fog -----

  /** The fog-mode names; Unknown is never printed, and an unmapped mode gets an empty name. */
  function FogModeName(m: FogMode): string
  {
    match m
    case FogDisabled => "Off"
    case FogLinear => "Linear"
    case FogExp => "Exp"
    case FogExp2 => "Exp2"
    case _ => ""
  }

  predicate ZeroColor(c: Color)
  {
    c.x == 0 && c.y == 0 && c.z == 0 && c.w == 0
  }

  predicate DefaultFog(st: ShaderState)
  {
    st.fogMode == FogUnknown && ZeroColor(st.fogColor) && st.fogDensity == 0 && st.fogStart == 0 && st.fogEnd == 0
  }

  function FogBlock(st: ShaderState, level: nat): (r: string)
    ensures r == "" <==> DefaultFog(st)
  {
    if !DefaultFog(st) then
      Line(level, "Fog {\n")
      + (if st.fogMode != FogUnknown then Line(level + 1, "Mode ") + FogModeName(st.fogMode) + "\n" else "")
      + (if !ZeroColor(st.fogColor)
         then Line(level + 1, "Color (" + IntToString(st.fogColor.x) + "," + IntToString(st.fogColor.y) + ","
                              + IntToString(st.fogColor.z) + "," + IntToString(st.fogColor.w) + ")\n")
         else "")
      + (if st.fogDensity != 0 then Line(level + 1, "Density " + IntToString(st.fogDensity) + "\n") else "")
      + (if st.fogStart != 0 || st.fogEnd != 0
         then Line(level + 1, "Range " + IntToString(st.fogStart) + ", " + IntToString(st.fogEnd) + "\n")
         else "")
      + Line(level, "}\n")
    else ""
  }

  // ----- the remaining single-line fields -----

  function NameLine(st: ShaderState, level: nat): (r: string)
    ensures r == "" <==> st.name == ""
  {
    if st.name != "" then Line(level, "Name \"" + st.name + "\"\n") else ""
  }

  function LodLine(lod: int, level: nat): (r: string)
    ensures r == "" <==> lod == 0
  {
    if lod != 0 then Line(level, "LOD " + IntToString(lod) + "\n") else ""
  }

  function AlphaToMaskLine(st: ShaderState, level: nat): (r: string)
    ensures r == "" <==> st.alphaToMask <= 0
  {
    if st.alphaToMask > 0 then Line(level, "AlphaToMask On\n") else ""
  }

  /** `zClip?.val != 1f`: a missing zClip compares unequal, so it prints `ZClip Off`. */
  function ZClipLine(st: ShaderState, level: nat): (r: string)
    ensures r == "" <==> st.zClip == Some(1)
  {
    if st.zClip != Some(1) then Line(level, "ZClip Off\n") else ""
  }

  function ZTestLine(st: ShaderState, level: nat): (r: string)
    ensures r == "" <==> st.zTest == 4
  {
    if st.zTest != 4 then Line(level, "ZTest ") + ZTestName(st.zTest) + "\n" else ""
  }

  function ZWriteLine(st: ShaderState, level: nat): (r: string)
    ensures r == "" <==> st.zWrite == 1
  {
    if st.zWrite != 1 then Line(level, "ZWrite Off\n") else ""
  }

  function CullLine(st: ShaderState, level: nat): (r: string)
    ensures r == "" <==> st.culling == 2
  {
    if st.culling != 2 then Line(level, "Cull ") + CullName(st.culling) + "\n" else ""
  }

  function OffsetLine(st: ShaderState, level: nat): (r: string)
    ensures r == "" <==> st.offsetFactor == 0 && st.offsetUnits == 0
  {
    if st.offsetFactor != 0 || st.offsetUnits != 0
    then Line(level, "Offset " + IntToString(st.offsetFactor) + ", " + IntToString(st.offsetUnits) + "\n")
    else ""
  }

  function LightingLine(st: ShaderState, level: nat): string
  {
    if st.lighting then Line(level, "Lighting " + (if st.lighting then "On" else "Off") + "\n") else ""
  }

  /** Lighting is written only when on: the "Off" arm of the line is unreachable. */
  lemma LightingOnlyOn(st: ShaderState, level: nat)
    ensures LightingLine(st, level) == if st.lighting then Line(level, "Lighting On\n") else ""
  {
  }

  function GpuProgramIdLine(st: ShaderState, level: nat): string
  {
    Line(level, "GpuProgramID " + IntToString(st.gpuProgramID) + "\n")
  }

  /** ConvertSerializedShaderState. */
  function ConvertSerializedShaderState(st: ShaderState, level: nat): string
  {
    NameLine(st, level) + LodLine(st.lod, level) + ConvertSerializedTagMap(st.tags, level)
    + ConvertSerializedShaderRTBlendState(st.rtBlend, st.rtSeparateBlend, level)
    + AlphaToMaskLine(st, level) + ZClipLine(st, level) + ZTestLine(st, level) + ZWriteLine(st, level)
    + CullLine(st, level) + OffsetLine(st, level) + StencilBlock(st, level) + FogBlock(st, level)
    + LightingLine(st, level) + GpuProgramIdLine(st, level)
  }

  /** The state ShaderLab assumes when a pass says nothing. */
  predicate IsDefaultState(st: ShaderState)
  {
    && st.name == "" && st.lod == 0 && st.tags == []
    && AllDefaultTargets(st.rtBlend)
    && st.alphaToMask <= 0 && st.zClip == Some(1) && st.zTest == 4 && st.zWrite == 1 && st.culling == 2
    && st.offsetFactor == 0 && st.offsetUnits == 0
    && DefaultStencil(st) && DefaultFog(st) && !st.lighting
  }

  /** A pass state renders as its GpuProgramID line alone exactly when every
      field holds its default. */
  lemma DefaultStateElided(st: ShaderState, level: nat)
    ensures ConvertSerializedShaderState(st, level) == GpuProgramIdLine(st, level) <==> IsDefaultState(st)
  {
    var a, b, c := NameLine(st, level), LodLine(st.lod, level), ConvertSerializedTagMap(st.tags, level);
    var d := ConvertSerializedShaderRTBlendState(st.rtBlend, st.rtSeparateBlend, level);
    var e, f, g, h := AlphaToMaskLine(st, level), ZClipLine(st, level), ZTestLine(st, level), ZWriteLine(st, level);
    var i, j, k, l := CullLine(st, level), OffsetLine(st, level), StencilBlock(st, level), FogBlock(st, level);
    var m, id := LightingLine(st, level), GpuProgramIdLine(st, level);
    var prefix := a + b + c + d + e + f + g + h + i + j + k + l + m;
    assert ConvertSerializedShaderState(st, level) == prefix + id;
    RTBlendStateEmpty(st.rtBlend, st.rtSeparateBlend, level, 0);
    assert m == "" <==> !st.lighting;
    assert prefix == "" <==> IsDefaultState(st);
    assert prefix + id == id <==> prefix == [] by {
      assert |prefix + id| == |prefix| + |id|;
      if prefix == [] {
        assert prefix + id == id;
      }
    }
  }
}
