/** The closed enumerations the converter switches on, and its pure
    code-to-name tables (ShaderConverter.cs, lines 577-779 and 890-1015). */
module ShaderEnums {
  import opened Base
  import Text

  /** ShaderCompilerPlatform; `UnmappedPlatform` holds any value outside the enumeration. */
  datatype Platform =
    | GL | D3D9 | Xbox360 | PS3 | D3D11 | GLES20 | NaCl | Flash | D3D11_9x | GLES3Plus
    | PSP2 | PS4 | XboxOne | PSM | Metal | OpenGLCore | N3DS | WiiU | Vulkan | Switch
    | XboxOneD3D12 | GameCoreXboxOne | GameCoreScarlett | PS5 | PS5NGGC
    | UnmappedPlatform(code: int)

  /** ShaderGpuProgramType; `UnmappedProgramType` holds a code outside 0..32. */
  datatype GpuProgramType =
    | Unknown | GLLegacy | GLES31AEP | GLES31 | GLES3 | GLES | GLCore32 | GLCore41 | GLCore43
    | DX9VertexSM20 | DX9VertexSM30 | DX9PixelSM20 | DX9PixelSM30
    | DX10Level9Vertex | DX10Level9Pixel
    | DX11VertexSM40 | DX11VertexSM50 | DX11PixelSM40 | DX11PixelSM50
    | DX11GeometrySM40 | DX11GeometrySM50 | DX11HullSM50 | DX11DomainSM50
    | MetalVS | MetalFS | SPIRV
    | ConsoleVS | ConsoleFS | ConsoleHS | ConsoleDS | ConsoleGS
    | RayTracing | PS5NGGCProgram
    | UnmappedProgramType(code: int)

  /** The cast `(ShaderGpuProgramType)reader.ReadInt32()` of a sub-program record. */
  function ProgramTypeOfCode(c: int): GpuProgramType
  {
    match c
    case 0 => Unknown
    case 1 => GLLegacy
    case 2 => GLES31AEP
    case 3 => GLES31
    case 4 => GLES3
    case 5 => GLES
    case 6 => GLCore32
    case 7 => GLCore41
    case 8 => GLCore43
    case 9 => DX9VertexSM20
    case 10 => DX9VertexSM30
    case 11 => DX9PixelSM20
    case 12 => DX9PixelSM30
    case 13 => DX10Level9Vertex
    case 14 => DX10Level9Pixel
    case 15 => DX11VertexSM40
    case 16 => DX11VertexSM50
    case 17 => DX11PixelSM40
    case 18 => DX11PixelSM50
    case 19 => DX11GeometrySM40
    case 20 => DX11GeometrySM50
    case 21 => DX11HullSM50
    case 22 => DX11DomainSM50
    case 23 => MetalVS
    case 24 => MetalFS
    case 25 => SPIRV
    case 26 => ConsoleVS
    case 27 => ConsoleFS
    case 28 => ConsoleHS
    case 29 => ConsoleDS
    case 30 => ConsoleGS
    case 31 => RayTracing
    case 32 => PS5NGGCProgram
    case _ => UnmappedProgramType(c)
  }

  /** The numeric value of a program type, the partner of ProgramTypeOfCode. */
  function ProgramTypeCode(t: GpuProgramType): int
  {
    match t
    case Unknown => 0
    case GLLegacy => 1
    case GLES31AEP => 2
    case GLES31 => 3
    case GLES3 => 4
    case GLES => 5
    case GLCore32 => 6
    case GLCore41 => 7
    case GLCore43 => 8
    case DX9VertexSM20 => 9
    case DX9VertexSM30 => 10
    case DX9PixelSM20 => 11
    case DX9PixelSM30 => 12
    case DX10Level9Vertex => 13
    case DX10Level9Pixel => 14
    case DX11VertexSM40 => 15
    case DX11VertexSM50 => 16
    case DX11PixelSM40 => 17
    case DX11PixelSM50 => 18
    case DX11GeometrySM40 => 19
    case DX11GeometrySM50 => 20
    case DX11HullSM50 => 21
    case DX11DomainSM50 => 22
    case MetalVS => 23
    case MetalFS => 24
    case SPIRV => 25
    case ConsoleVS => 26
    case ConsoleFS => 27
    case ConsoleHS => 28
    case ConsoleDS => 29
    case ConsoleGS => 30
    case RayTracing => 31
    case PS5NGGCProgram => 32
    case UnmappedProgramType(c) => c
  }

  /** A program type as the cast can produce it: unmapped only outside 0..32. */
  predicate Canonical(t: GpuProgramType)
  {
    t.UnmappedProgramType? ==> !(0 <= t.code <= 32)
  }

  lemma ProgramTypeCodeRoundTrip(c: int)
    ensures Canonical(ProgramTypeOfCode(c))
    ensures ProgramTypeCode(ProgramTypeOfCode(c)) == c
  {
  }

  lemma ProgramTypeOfCodeRoundTrip(t: GpuProgramType)
    requires Canonical(t)
    ensures ProgramTypeOfCode(ProgramTypeCode(t)) == t
  {
  }

  /** `m_ProgramType.ToString()`: the member name, or the number for an undefined value. */
  function ProgramTypeName(t: GpuProgramType): string
  {
    match t
    case Unknown => "Unknown"
    case GLLegacy => "GLLegacy"
    case GLES31AEP => "GLES31AEP"
    case GLES31 => "GLES31"
    case GLES3 => "GLES3"
    case GLES => "GLES"
    case GLCore32 => "GLCore32"
    case GLCore41 => "GLCore41"
    case GLCore43 => "GLCore43"
    case DX9VertexSM20 => "DX9VertexSM20"
    case DX9VertexSM30 => "DX9VertexSM30"
    case DX9PixelSM20 => "DX9PixelSM20"
    case DX9PixelSM30 => "DX9PixelSM30"
    case DX10Level9Vertex => "DX10Level9Vertex"
    case DX10Level9Pixel => "DX10Level9Pixel"
    case DX11VertexSM40 => "DX11VertexSM40"
    case DX11VertexSM50 => "DX11VertexSM50"
    case DX11PixelSM40 => "DX11PixelSM40"
    case DX11PixelSM50 => "DX11PixelSM50"
    case DX11GeometrySM40 => "DX11GeometrySM40"
    case DX11GeometrySM50 => "DX11GeometrySM50"
    case DX11HullSM50 => "DX11HullSM50"
    case DX11DomainSM50 => "DX11DomainSM50"
    case MetalVS => "MetalVS"
    case MetalFS => "MetalFS"
    case SPIRV => "SPIRV"
    case ConsoleVS => "ConsoleVS"
    case ConsoleFS => "ConsoleFS"
    case ConsoleHS => "ConsoleHS"
    case ConsoleDS => "ConsoleDS"
    case ConsoleGS => "ConsoleGS"
    case RayTracing => "RayTracing"
    case PS5NGGCProgram => "PS5NGGC"
    case UnmappedProgramType(c) => Text.IntToString(c)
  }

  /** The program types of one closed-platform bucket. */
  predicate IsConsoleType(t: GpuProgramType)
  {
    t == ConsoleVS || t == ConsoleFS || t == ConsoleHS || t == ConsoleDS || t == ConsoleGS
  }

  predicate IsConsolePlatform(p: Platform)
  {
    p.Xbox360? || p.PS3? || p.PSP2? || p.PS4? || p.XboxOne? || p.N3DS? || p.WiiU? || p.Switch?
    || p.XboxOneD3D12? || p.GameCoreXboxOne? || p.GameCoreScarlett? || p.PS5?
  }

  /** CheckGpuProgramUsable: whether a platform's compiler emits programs of
      type `t`; obsolete and unknown platforms raise NotSupportedException. */
  function CheckGpuProgramUsable(p: Platform, t: GpuProgramType): Result<bool>
  {
    match p
    case GL => Ok(t == GLLegacy)
    case D3D9 => Ok(t == DX9VertexSM20 || t == DX9VertexSM30 || t == DX9PixelSM20 || t == DX9PixelSM30)
    case Xbox360 => Ok(IsConsoleType(t))
    case PS3 => Ok(IsConsoleType(t))
    case PSP2 => Ok(IsConsoleType(t))
    case PS4 => Ok(IsConsoleType(t))
    case XboxOne => Ok(IsConsoleType(t))
    case N3DS => Ok(IsConsoleType(t))
    case WiiU => Ok(IsConsoleType(t))
    case Switch => Ok(IsConsoleType(t))
    case XboxOneD3D12 => Ok(IsConsoleType(t))
    case GameCoreXboxOne => Ok(IsConsoleType(t))
    case GameCoreScarlett => Ok(IsConsoleType(t))
    case PS5 => Ok(IsConsoleType(t))
    case PS5NGGC => Ok(t == PS5NGGCProgram)
    case D3D11 => Ok(t == DX11VertexSM40 || t == DX11VertexSM50 || t == DX11PixelSM40 || t == DX11PixelSM50
                     || t == DX11GeometrySM40 || t == DX11GeometrySM50 || t == DX11HullSM50 || t == DX11DomainSM50)
    case GLES20 => Ok(t == GLES)
    case NaCl => Err(NotSupported)
    case Flash => Err(NotSupported)
    case D3D11_9x => Ok(t == DX10Level9Vertex || t == DX10Level9Pixel)
    case GLES3Plus => Ok(t == GLES31AEP || t == GLES31 || t == GLES3)
    case PSM => Err(NotSupported)
    case Metal => Ok(t == MetalVS || t == MetalFS)
    case OpenGLCore => Ok(t == GLCore32 || t == GLCore41 || t == GLCore43)
    case Vulkan => Ok(t == SPIRV)
    case UnmappedPlatform(_) => Err(NotSupported)
  }

  /** Exactly NaCl, Flash, PSM and the values outside the enumeration are refused,
      whatever the program type. */
  lemma UsableFailsExactlyOnUnsupported(p: Platform, t: GpuProgramType)
    ensures CheckGpuProgramUsable(p, t).Err? <==> (p == NaCl || p == Flash || p == PSM || p.UnmappedPlatform?)
    ensures CheckGpuProgramUsable(p, t).Err? ==> CheckGpuProgramUsable(p, t).error == NotSupported
  {
  }

  /** The reference definition of the capability table, read by program type:
      the one platform whose compiler emits `t` (console types excepted). */
  function HomePlatform(t: GpuProgramType): Option<Platform>
  {
    match t
    case GLLegacy => Some(GL)
    case DX9VertexSM20 => Some(D3D9)
    case DX9VertexSM30 => Some(D3D9)
    case DX9PixelSM20 => Some(D3D9)
    case DX9PixelSM30 => Some(D3D9)
    case PS5NGGCProgram => Some(PS5NGGC)
    case DX11VertexSM40 => Some(D3D11)
    case DX11VertexSM50 => Some(D3D11)
    case DX11PixelSM40 => Some(D3D11)
    case DX11PixelSM50 => Some(D3D11)
    case DX11GeometrySM40 => Some(D3D11)
    case DX11GeometrySM50 => Some(D3D11)
    case DX11HullSM50 => Some(D3D11)
    case DX11DomainSM50 => Some(D3D11)
    case GLES => Some(GLES20)
    case DX10Level9Vertex => Some(D3D11_9x)
    case DX10Level9Pixel => Some(D3D11_9x)
    case GLES31AEP => Some(GLES3Plus)
    case GLES31 => Some(GLES3Plus)
    case GLES3 => Some(GLES3Plus)
    case MetalVS => Some(Metal)
    case MetalFS => Some(Metal)
    case GLCore32 => Some(OpenGLCore)
    case GLCore41 => Some(OpenGLCore)
    case GLCore43 => Some(OpenGLCore)
    case SPIRV => Some(Vulkan)
    case _ => None
  }

  /** CheckGpuProgramUsable accepts only the home platform of a type, or a
      closed platform for a console type: no type is shared by two platform families. */
  lemma UsableOnlyOnHomePlatform(p: Platform, t: GpuProgramType)
    requires CheckGpuProgramUsable(p, t) == Ok(true)
    ensures if IsConsoleType(t) then IsConsolePlatform(p) else HomePlatform(t) == Some(p)
  {
    if IsConsolePlatform(p) {
      ConsolePlatformEmitsConsoleTypes(p, t);
    } else if p == D3D11 {
      D3D11EmitsOwnTypes(t);
    } else if p == D3D9 {
      D3D9EmitsOwnTypes(t);
    } else if p == GL || p == GLES20 || p == D3D11_9x {
      LegacyPlatformEmitsOwnTypes(p, t);
    } else {
      ModernPlatformEmitsOwnTypes(p, t);
    }
  }

  lemma ConsolePlatformEmitsConsoleTypes(p: Platform, t: GpuProgramType)
    requires IsConsolePlatform(p) && CheckGpuProgramUsable(p, t) == Ok(true)
    ensures IsConsoleType(t)
  {
  }

  lemma D3D11EmitsOwnTypes(t: GpuProgramType)
    requires CheckGpuProgramUsable(D3D11, t) == Ok(true)
    ensures !IsConsoleType(t) && HomePlatform(t) == Some(D3D11)
  {
  }

  lemma D3D9EmitsOwnTypes(t: GpuProgramType)
    requires CheckGpuProgramUsable(D3D9, t) == Ok(true)
    ensures !IsConsoleType(t) && HomePlatform(t) == Some(D3D9)
  {
  }

  lemma LegacyPlatformEmitsOwnTypes(p: Platform, t: GpuProgramType)
    requires p == GL || p == GLES20 || p == D3D11_9x
    requires CheckGpuProgramUsable(p, t) == Ok(true)
    ensures !IsConsoleType(t) && HomePlatform(t) == Some(p)
  {
    match p
    case GL => {}
    case GLES20 => {}
    case D3D11_9x => {}
  }

  lemma ModernPlatformEmitsOwnTypes(p: Platform, t: GpuProgramType)
    requires !IsConsolePlatform(p) && !(p == GL || p == D3D9 || p == D3D11 || p == GLES20 || p == D3D11_9x)
    requires CheckGpuProgramUsable(p, t) == Ok(true)
    ensures !IsConsoleType(t) && HomePlatform(t) == Some(p)
  {
    match p
    case GLES3Plus => {}
    case Metal => {}
    case OpenGLCore => {}
    case Vulkan => {}
    case PS5NGGC => {}
    case NaCl => {}
    case Flash => {}
    case PSM => {}
    case UnmappedPlatform(_) => {}
  }

  /** ... and it does accept the home platform (every closed platform for a console type). */
  lemma UsableOnHomePlatform(p: Platform, t: GpuProgramType)
    requires if IsConsoleType(t) then IsConsolePlatform(p) else HomePlatform(t) == Some(p)
    ensures CheckGpuProgramUsable(p, t) == Ok(true)
  {
    if IsConsoleType(t) {
      ConsolePlatformAcceptsConsoleTypes(p, t);
    } else if t.DX9VertexSM20? || t.DX9VertexSM30? || t.DX9PixelSM20? || t.DX9PixelSM30?
              || t.DX11VertexSM40? || t.DX11VertexSM50? || t.DX11PixelSM40? || t.DX11PixelSM50?
              || t.DX11GeometrySM40? || t.DX11GeometrySM50? || t.DX11HullSM50? || t.DX11DomainSM50?
              || t.DX10Level9Vertex? || t.DX10Level9Pixel? {
      DirectXTypesAcceptedAtHome(t);
    } else {
      OtherTypesAcceptedAtHome(p, t);
    }
  }

  lemma ConsolePlatformAcceptsConsoleTypes(p: Platform, t: GpuProgramType)
    requires IsConsoleType(t) && IsConsolePlatform(p)
    ensures CheckGpuProgramUsable(p, t) == Ok(true)
  {
  }

  lemma DirectXTypesAcceptedAtHome(t: GpuProgramType)
    requires t.DX9VertexSM20? || t.DX9VertexSM30? || t.DX9PixelSM20? || t.DX9PixelSM30?
             || t.DX11VertexSM40? || t.DX11VertexSM50? || t.DX11PixelSM40? || t.DX11PixelSM50?
             || t.DX11GeometrySM40? || t.DX11GeometrySM50? || t.DX11HullSM50? || t.DX11DomainSM50?
             || t.DX10Level9Vertex? || t.DX10Level9Pixel?
    ensures HomePlatform(t).Some? && CheckGpuProgramUsable(HomePlatform(t).value, t) == Ok(true)
  {
  }

  lemma OtherTypesAcceptedAtHome(p: Platform, t: GpuProgramType)
    requires !IsConsoleType(t) && HomePlatform(t) == Some(p)
    requires !(t.DX9VertexSM20? || t.DX9VertexSM30? || t.DX9PixelSM20? || t.DX9PixelSM30?
               || t.DX11VertexSM40? || t.DX11VertexSM50? || t.DX11PixelSM40? || t.DX11PixelSM50?
               || t.DX11GeometrySM40? || t.DX11GeometrySM50? || t.DX11HullSM50? || t.DX11DomainSM50?
               || t.DX10Level9Vertex? || t.DX10Level9Pixel?)
    ensures CheckGpuProgramUsable(p, t) == Ok(true)
  {
    match t
    case GLLegacy => {}
    case GLES31AEP => {}
    case GLES31 => {}
    case GLES3 => {}
    case GLES => {}
    case GLCore32 => {}
    case GLCore41 => {}
    case GLCore43 => {}
    case MetalVS => {}
    case MetalFS => {}
    case SPIRV => {}
    case PS5NGGCProgram => {}
    case _ => {}
  }

  /** GetPlatformString. */
  function GetPlatformString(p: Platform): string
  {
    match p
    case GL => "openGL"
    case D3D9 => "d3d9"
    case Xbox360 => "xbox360"
    case PS3 => "ps3"
    case D3D11 => "d3d11"
    case GLES20 => "gles"
    case NaCl => "glesdesktop"
    case Flash => "flash"
    case D3D11_9x => "d3d11_9x"
    case GLES3Plus => "gles3"
    case PSP2 => "psp2"
    case PS4 => "ps4"
    case XboxOne => "xboxone"
    case PSM => "psm"
    case Metal => "metal"
    case OpenGLCore => "glcore"
    case N3DS => "n3ds"
    case WiiU => "wiiu"
    case Vulkan => "vulkan"
    case Switch => "switch"
    case XboxOneD3D12 => "xboxone_d3d12"
    case GameCoreXboxOne => "xboxone"
    case GameCoreScarlett => "xbox_scarlett"
    case PS5 => "ps5"
    case PS5NGGC => "ps5_nggc"
    case UnmappedPlatform(_) => "unknown"
  }

  /** The partner of GetPlatformString: the platform a name stands for, the
      first in declaration order where two share it; "unknown" stands for none. */
  function PlatformNamed(s: string): Option<Platform>
  {
    match s
    case "openGL" => Some(GL)
    case "d3d9" => Some(D3D9)
    case "xbox360" => Some(Xbox360)
    case "ps3" => Some(PS3)
    case "d3d11" => Some(D3D11)
    case "gles" => Some(GLES20)
    case "glesdesktop" => Some(NaCl)
    case "flash" => Some(Flash)
    case "d3d11_9x" => Some(D3D11_9x)
    case "gles3" => Some(GLES3Plus)
    case "psp2" => Some(PSP2)
    case "ps4" => Some(PS4)
    case "xboxone" => Some(XboxOne)
    case "psm" => Some(PSM)
    case "metal" => Some(Metal)
    case "glcore" => Some(OpenGLCore)
    case "n3ds" => Some(N3DS)
    case "wiiu" => Some(WiiU)
    case "vulkan" => Some(Vulkan)
    case "switch" => Some(Switch)
    case "xboxone_d3d12" => Some(XboxOneD3D12)
    case "xbox_scarlett" => Some(GameCoreScarlett)
    case "ps5" => Some(PS5)
    case "ps5_nggc" => Some(PS5NGGC)
    case _ => None
  }

  /** Every platform but GameCoreXboxOne and the unmapped values is read back from its name. */
  lemma PlatformNameRoundTrip(p: Platform)
    requires p != GameCoreXboxOne && !p.UnmappedPlatform?
    ensures PlatformNamed(GetPlatformString(p)) == Some(p)
  {
    match p
    case GL => {}
    case D3D9 => {}
    case Xbox360 => {}
    case PS3 => {}
    case D3D11 => {}
    case GLES20 => {}
    case NaCl => {}
    case Flash => {}
    case D3D11_9x => {}
    case GLES3Plus => {}
    case PSP2 => {}
    case PS4 => {}
    case XboxOne => {}
    case PSM => {}
    case Metal => {}
    case OpenGLCore => {}
    case N3DS => {}
    case WiiU => {}
    case Vulkan => {}
    case Switch => {}
    case XboxOneD3D12 => {}
    case GameCoreScarlett => {}
    case PS5 => {}
    case PS5NGGC => {}
    case _ => {}
  }

  /** Platform names are unambiguous except that XboxOne and GameCoreXboxOne
      share "xboxone" and every unmapped value prints "unknown". */
  lemma PlatformStringCollisions(p: Platform, q: Platform)
    requires GetPlatformString(p) == GetPlatformString(q)
    ensures p == q || {p, q} == {XboxOne, GameCoreXboxOne} || (p.UnmappedPlatform? && q.UnmappedPlatform?)
  {
    NamedPlatform(p);
    NamedPlatform(q);
  }

  /** What PlatformNamed gives back for any platform's name. */
  lemma NamedPlatform(p: Platform)
    ensures p == GameCoreXboxOne ==> PlatformNamed(GetPlatformString(p)) == Some(XboxOne)
    ensures p.UnmappedPlatform? ==> PlatformNamed(GetPlatformString(p)) == None
    ensures p != GameCoreXboxOne && !p.UnmappedPlatform? ==> PlatformNamed(GetPlatformString(p)) == Some(p)
  {
    if p != GameCoreXboxOne && !p.UnmappedPlatform? {
      PlatformNameRoundTrip(p);
    }
  }

  /** ConvertStencilOp; unmapped codes fall back to "Keep". */
  function ConvertStencilOp(op: int): string
  {
    match op
    case 1 => "Zero"
    case 2 => "Replace"
    case 3 => "IncrSat"
    case 4 => "DecrSat"
    case 5 => "Invert"
    case 6 => "IncrWrap"
    case 7 => "DecrWrap"
    case _ => "Keep"
  }

  /** ConvertStencilComp; unmapped codes fall back to "Always". */
  function ConvertStencilComp(comp: int): string
  {
    match comp
    case 0 => "Disabled"
    case 1 => "Never"
    case 2 => "Less"
    case 3 => "Equal"
    case 4 => "LEqual"
    case 5 => "Greater"
    case 6 => "NotEqual"
    case 7 => "GEqual"
    case _ => "Always"
  }

  /** ConvertBlendOp; unmapped codes fall back to "Add". */
  function ConvertBlendOp(op: int): string
  {
    match op
    case 1 => "Sub"
    case 2 => "RevSub"
    case 3 => "Min"
    case 4 => "Max"
    case 5 => "LogicalClear"
    case 6 => "LogicalSet"
    case 7 => "LogicalCopy"
    case 8 => "LogicalCopyInverted"
    case 9 => "LogicalNoop"
    case 10 => "LogicalInvert"
    case 11 => "LogicalAnd"
    case 12 => "LogicalNand"
    case 13 => "LogicalOr"
    case 14 => "LogicalNor"
    case 15 => "LogicalXor"
    case 16 => "LogicalEquiv"
    case 17 => "LogicalAndReverse"
    case 18 => "LogicalAndInverted"
    case 19 => "LogicalOrReverse"
    case 20 => "LogicalOrInverted"
    case _ => "Add"
  }

  /** ConvertBlendFactor; unmapped codes fall back to "One". */
  function ConvertBlendFactor(factor: int): string
  {
    match factor
    case 0 => "Zero"
    case 2 => "DstColor"
    case 3 => "SrcColor"
    case 4 => "OneMinusDstColor"
    case 5 => "SrcAlpha"
    case 6 => "OneMinusSrcColor"
    case 7 => "DstAlpha"
    case 8 => "OneMinusDstAlpha"
    case 9 => "SrcAlphaSaturate"
    case 10 => "OneMinusSrcAlpha"
    case _ => "One"
  }

  /** The compare-function names of `ZTest`; code 4 (LEqual) has no case, since a
      ZTest of 4 is never printed, and an unmapped code gets an empty name. */
  function ZTestName(code: int): string
  {
    match code
    case 0 => "Off"
    case 1 => "Never"
    case 2 => "Less"
    case 3 => "Equal"
    case 5 => "Greater"
    case 6 => "NotEqual"
    case 7 => "GEqual"
    case 8 => "Always"
    case _ => ""
  }

  /** The cull-mode names of `Cull`; Back (2) is never printed, other codes get an empty name. */
  function CullName(code: int): string
  {
    match code
    case 0 => "Off"
    case 1 => "Front"
    case _ => ""
  }

  /** The partner tables: the code a name stands for (the first one, for names
      shared by the fallback). */
  function StencilOpCode(name: string): Option<int>
  {
    match name
    case "Keep" => Some(0)
    case "Zero" => Some(1)
    case "Replace" => Some(2)
    case "IncrSat" => Some(3)
    case "DecrSat" => Some(4)
    case "Invert" => Some(5)
    case "IncrWrap" => Some(6)
    case "DecrWrap" => Some(7)
    case _ => None
  }

  function StencilCompCode(name: string): Option<int>
  {
    match name
    case "Disabled" => Some(0)
    case "Never" => Some(1)
    case "Less" => Some(2)
    case "Equal" => Some(3)
    case "LEqual" => Some(4)
    case "Greater" => Some(5)
    case "NotEqual" => Some(6)
    case "GEqual" => Some(7)
    case "Always" => Some(8)
    case _ => None
  }

  function BlendFactorCode(name: string): Option<int>
  {
    match name
    case "Zero" => Some(0)
    case "One" => Some(1)
    case "DstColor" => Some(2)
    case "SrcColor" => Some(3)
    case "OneMinusDstColor" => Some(4)
    case "SrcAlpha" => Some(5)
    case "OneMinusSrcColor" => Some(6)
    case "DstAlpha" => Some(7)
    case "OneMinusDstAlpha" => Some(8)
    case "SrcAlphaSaturate" => Some(9)
    case "OneMinusSrcAlpha" => Some(10)
    case _ => None
  }

  function BlendOpCode(name: string): Option<int>
  {
    match name
    case "Add" => Some(0)
    case "Sub" => Some(1)
    case "RevSub" => Some(2)
    case "Min" => Some(3)
    case "Max" => Some(4)
    case "LogicalClear" => Some(5)
    case "LogicalSet" => Some(6)
    case "LogicalCopy" => Some(7)
    case "LogicalCopyInverted" => Some(8)
    case "LogicalNoop" => Some(9)
    case "LogicalInvert" => Some(10)
    case "LogicalAnd" => Some(11)
    case "LogicalNand" => Some(12)
    case "LogicalOr" => Some(13)
    case "LogicalNor" => Some(14)
    case "LogicalXor" => Some(15)
    case "LogicalEquiv" => Some(16)
    case "LogicalAndReverse" => Some(17)
    case "LogicalAndInverted" => Some(18)
    case "LogicalOrReverse" => Some(19)
    case "LogicalOrInverted" => Some(20)
    case _ => None
  }

  /** Each mapped stencil operation reads back as its own code; every other code prints as Keep. */
  lemma StencilOpTable(op: int)
    ensures 0 <= op <= 7 ==> StencilOpCode(ConvertStencilOp(op)) == Some(op)
    ensures !(0 <= op <= 7) ==> ConvertStencilOp(op) == "Keep"
  {
  }

  lemma StencilCompTable(comp: int)
    ensures 0 <= comp <= 8 ==> StencilCompCode(ConvertStencilComp(comp)) == Some(comp)
    ensures !(0 <= comp <= 8) ==> ConvertStencilComp(comp) == "Always"
  {
  }

  lemma BlendFactorTable(factor: int)
    ensures 0 <= factor <= 10 ==> BlendFactorCode(ConvertBlendFactor(factor)) == Some(factor)
    ensures !(0 <= factor <= 10) ==> ConvertBlendFactor(factor) == "One"
  {
  }

  lemma BlendOpTable(op: int)
    ensures 0 <= op <= 20 ==> BlendOpCode(ConvertBlendOp(op)) == Some(op)
    ensures !(0 <= op <= 20) ==> ConvertBlendOp(op) == "Add"
  {
  }

  /** A ZTest or Cull line names its value exactly for the mapped codes. */
  lemma EmptyStateNames(code: int)
    ensures ZTestName(code) == "" <==> !(0 <= code <= 8) || code == 4
    ensures CullName(code) == "" <==> !(0 <= code <= 1)
  {
  }
}
