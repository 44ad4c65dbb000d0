# ShaderConverter model

A Dafny model of AssetStudio's shader exporter, `AssetStudioUtility/ShaderConverter.cs`.
The exporter turns a parsed Unity `Shader` object, and the per-platform program
blobs packed inside it, into ShaderLab-like text.

The model covers:

- the binary side: the entry table read by the `ShaderProgram` constructor, the
  segment-by-segment filling of the sub-program wraps by `ShaderProgram.Read`, the
  version-dependent layout of a `ShaderSubProgram` record, and the Metal source
  header skipped by `ShaderSubProgram.Export`;
- the selection of sub-programs: `CheckGpuProgramUsable`, the grouping by blob index and
  then by program type in `ConvertSubPrograms`, the first-compatible-platform rule,
  and `FlattenPlayerSubPrograms`;
- the derivation of names: `tN` texture names, `cbN[..]` vector and matrix
  expressions, and the note map that rejects duplicates;
- the rendering of render state with default elision (blend, stencil, fog, depth, cull);
- the text of properties, passes, sub-shaders and the shader, with 4-space
  indentation;
- the three paths of `Shader.Convert`.

Modules, one per file:

| file | module | what it holds |
|---|---|---|
| base.dfy | `Base` | bytes, `Result`/`Outcome` with the error kinds the code throws, `Need`, `Fit` |
| text.dfy | `Text` | indentation, integer formatting, `"00"` padding, the newline re-indentation of sub-program text |
| enums.dfy | `ShaderEnums` | platforms, GPU program types, `CheckGpuProgramUsable`, `GetPlatformString`, the stencil/blend/ZTest/Cull name tables |
| reader.dfy | `BinaryReading` | little-endian decoding, parse functions on `(bytes, position)`, and the `Reader` class that performs the same reads in place |
| program.dfy | `ShaderProgramFormat` | entries, wraps, sub-program records, their writers, and the `ShaderProgram` class over two arrays |
| export.dfy | `SubProgramExport` | `ShaderSubProgram.Export`: keyword blocks, Metal header, dispatch on the program type |
| names.dfy | `NameResolver` | `ConvertTextureBindings`, `ConvertConstantBuffer` |
| state.dfy | `StateText` | `ConvertSerializedShaderState`, the render-target blend state, stencil and fog blocks, tags |
| selection.dfy | `ProgramSelection` | `FlattenPlayerSubPrograms`, grouping, platform selection, `AppendSubProgram`, `ConvertSubPrograms` |
| shader.dfy | `ShaderText` | properties, `ConvertPrograms`, passes, sub-shaders, the shader text, blob loading, `Shader.Convert` |

Foreign code is passed in as the `Services` record (`SubProgramExport.Services`):

- `utf8` for `Encoding.UTF8.GetString`;
- `dxbc` for the DXBC disassembler;
- `spirv` for the SPIR-V converter, which gives text or a failure message;
- `lz4` for `LZ4Codec.Decode`, whose output is cut or zero-padded to the decompressed length;
- `legacyExport` for the regex-based `ShaderProgram.Export`;
- `showFloat` for the `ToString` of a float.

Exceptions become `Err` values of `Result`. Examples: a missing dictionary key gives
`KeyNotFound`, a duplicate `Dictionary.Add` key gives `DuplicateKey`, a fixed-size read
(`ReadInt32`, `ReadUInt32`) past the end gives `EndOfStream`, a negative seek gives
`ArgumentOutOfRange`, a null program gives `NullReference`, and an obsolete platform gives
`NotSupported`. The length-prefixed reads `ReadAlignedString` and `ReadUInt8Array` are
called here but defined in another file; the model chooses their failure modes (see
"## Left out").

Behaviour worth noting:

- Vector offset 20 in a constant buffer renders as `cb0[1].y`. `swizz_char` is indexed
  by the component number (AssetStudioUtility/ShaderConverter.cs:166 and 202-208), so an
  offset inside component x names the bare register and `.x` is never produced.
- Properties and sub-shaders are indented one level inside `Shader { }`. The closing
  brace of the shader has no line break (AssetStudioUtility/ShaderConverter.cs:86).
  Fallback and CustomEditor lines sit at the shader's own level.
- A program type that no branch renders prints `//shader disassembly not supported on <type>`,
  with no space after `//` (AssetStudioUtility/ShaderConverter.cs:1292). A SPIR-V failure
  prints `// disassembly error <message>` and a line break, with no colon
  (AssetStudioUtility/ShaderConverter.cs:1281).
- An unmapped platform makes the compatibility check throw NotSupported
  (AssetStudioUtility/ShaderConverter.cs:953-954), and an unmapped property type makes
  the default-value switch throw ArgumentOutOfRange (AssetStudioUtility/ShaderConverter.cs:883-884).
  The model returns `Err` in both cases.

The codes 0-32 of `ShaderGpuProgramType` follow the order of that enum's declaration,
which lives outside ShaderConverter.cs (the file only casts the int32 it reads, at
AssetStudioUtility/ShaderConverter.cs:1128).

## Model

| member | source | states |
|---|---|---|
| Text.Indent | AssetStudioUtility/ShaderConverter.cs:796-799 | the indentation of level n is exactly 4n spaces |
| Text.IntToString | AssetStudioUtility/ShaderConverter.cs:157 | an integer prints as a non-empty string that starts with '-' exactly when it is negative |
| Text.NatToStringRoundTrip | AssetStudioUtility/ShaderConverter.cs:157 | parsing the decimal text of n gives back n |
| Text.IntToStringInjective | AssetStudioUtility/ShaderConverter.cs:162 | two integers with the same decimal text are equal, so `tN` notes of different indices differ |
| Text.NatToStringInjective | AssetStudioUtility/ShaderConverter.cs:157 | two naturals with the same decimal text are equal |
| Text.Pad2Nat | AssetStudioUtility/ShaderConverter.cs:348 | the `00` format of n has at least two digits and parses back to n |
| Text.ReplaceNewlines | AssetStudioUtility/ShaderConverter.cs:291 | replacing each line break by a break plus indentation adds the indentation's length once per line break |
| Text.ReplaceNewlinesRoundTrip | AssetStudioUtility/ShaderConverter.cs:289-291 | removing the indentation after every line break restores the sub-program text |
| Text.ReplaceNewlinesNoBreak | AssetStudioUtility/ShaderConverter.cs:291 | text without a line break is unchanged by the re-indentation |
| ShaderEnums.ProgramTypeCodeRoundTrip | AssetStudioUtility/ShaderConverter.cs:1128 | every int32 code maps to a program type whose code is that int again |
| ShaderEnums.ProgramTypeOfCodeRoundTrip | AssetStudioUtility/ShaderConverter.cs:1128 | every canonical program type is recovered from its code |
| ShaderEnums.UsableFailsExactlyOnUnsupported | AssetStudioUtility/ShaderConverter.cs:890-956 | the compatibility check throws NotSupported exactly for NaCl, Flash, PSM and unmapped platforms |
| ShaderEnums.UsableOnlyOnHomePlatform | AssetStudioUtility/ShaderConverter.cs:890-956 | an accepted program type is a console type on a console platform, or its one home platform |
| ShaderEnums.UsableOnHomePlatform | AssetStudioUtility/ShaderConverter.cs:890-956 | conversely every type is accepted on its home platform, and console types on every console platform |
| ShaderEnums.ConsolePlatformEmitsConsoleTypes | AssetStudioUtility/ShaderConverter.cs:901-917 | a console platform accepts only console program types |
| ShaderEnums.ConsolePlatformAcceptsConsoleTypes | AssetStudioUtility/ShaderConverter.cs:901-917 | every console platform accepts every console program type |
| ShaderEnums.D3D11EmitsOwnTypes | AssetStudioUtility/ShaderConverter.cs:920-928 | D3D11 accepts only the DX11 types, whose home it is |
| ShaderEnums.D3D9EmitsOwnTypes | AssetStudioUtility/ShaderConverter.cs:896-900 | D3D9 accepts only the DX9 types |
| ShaderEnums.LegacyPlatformEmitsOwnTypes | AssetStudioUtility/ShaderConverter.cs:894-937 | GL, GLES20 and D3D11_9x accept only their own types |
| ShaderEnums.ModernPlatformEmitsOwnTypes | AssetStudioUtility/ShaderConverter.cs:918-952 | GLES3Plus, Metal, OpenGLCore, Vulkan and PS5NGGC accept only their own types |
| ShaderEnums.DirectXTypesAcceptedAtHome | AssetStudioUtility/ShaderConverter.cs:896-937 | every DirectX type is accepted on its home platform |
| ShaderEnums.OtherTypesAcceptedAtHome | AssetStudioUtility/ShaderConverter.cs:890-956 | every other non-console type is accepted on its home platform |
| ShaderEnums.PlatformStringCollisions | AssetStudioUtility/ShaderConverter.cs:958-1015 | two platforms share a name only for XboxOne/GameCoreXboxOne, or when both are unmapped ("unknown") |
| ShaderEnums.PlatformNameRoundTrip | AssetStudioUtility/ShaderConverter.cs:958-1015 | every platform except GameCoreXboxOne and the unmapped values is read back from its name by PlatformNamed |
| ShaderEnums.StencilOpTable | AssetStudioUtility/ShaderConverter.cs:577-599 | codes 0-7 map to names that map back to the code; other codes print Keep |
| ShaderEnums.StencilCompTable | AssetStudioUtility/ShaderConverter.cs:601-625 | codes 0-8 round-trip through their names; other codes print Always |
| ShaderEnums.BlendOpTable | AssetStudioUtility/ShaderConverter.cs:701-749 | codes 0-20 round-trip through their names; other codes print Add |
| ShaderEnums.BlendFactorTable | AssetStudioUtility/ShaderConverter.cs:751-779 | codes 0-10 round-trip through their names; other codes print One |
| ShaderEnums.EmptyStateNames | AssetStudioUtility/ShaderConverter.cs:391-443 | ZTest gives no name for 4 and for unmapped codes; Cull gives none outside 0-1 |
| BinaryReading.UInt32RoundTrip | AssetStudioUtility/ShaderConverter.cs:1263 | a 32-bit value written little-endian reads back unchanged |
| BinaryReading.Int32RoundTrip | AssetStudioUtility/ShaderConverter.cs:1032-1036 | an int32 written little-endian reads back unchanged |
| BinaryReading.UInt32At | AssetStudioUtility/ShaderConverter.cs:1263 | a uint32 read succeeds iff 4 bytes remain, gives a value below 2^32 and advances by 4; otherwise EndOfStream |
| BinaryReading.Int32At | AssetStudioUtility/ShaderConverter.cs:1032 | an int32 read succeeds iff 4 bytes remain, gives an int32 and advances by 4; otherwise EndOfStream |
| BinaryReading.Align4 | AssetStudioUtility/ShaderConverter.cs:1150 | alignment gives the least multiple of 4 at or after the position |
| BinaryReading.AlignedStringsAt | AssetStudioUtility/ShaderConverter.cs:1136-1139 | n aligned strings read give exactly n strings |
| BinaryReading.ChunkAt | AssetStudioUtility/ShaderConverter.cs:1092-1093 | a wrap buffer always has the entry's length; a short stream leaves zeros and the position stops at the end; a negative length fails |
| BinaryReading.SkipToNull | AssetStudioUtility/ShaderConverter.cs:1269 | the position after the first zero byte, or the end of the stream; no zero byte is skipped over |
| BinaryReading.Reader.ReadInt32 | AssetStudioUtility/ShaderConverter.cs:1032 | the reader performs Int32At in place |
| BinaryReading.Reader.Skip | AssetStudioUtility/ShaderConverter.cs:1129-1133 | the position moves forward by n |
| BinaryReading.Reader.AlignStream | AssetStudioUtility/ShaderConverter.cs:1150 | the position moves to Align4 of itself |
| BinaryReading.Reader.ReadAlignedString | AssetStudioUtility/ShaderConverter.cs:1138 | the reader performs AlignedStringAt in place |
| BinaryReading.Reader.ReadUInt8Array | AssetStudioUtility/ShaderConverter.cs:1149 | the reader performs ByteArrayAt in place |
| BinaryReading.Reader.ReadChunk | AssetStudioUtility/ShaderConverter.cs:1092-1093 | the reader performs ChunkAt in place |
| BinaryReading.Reader.ReadUInt32 | AssetStudioUtility/ShaderConverter.cs:1263 | the reader performs UInt32At in place |
| BinaryReading.Reader.Seek | AssetStudioUtility/ShaderConverter.cs:1267 | the seek succeeds iff the offset is not negative, and then the position is the offset; otherwise ArgumentOutOfRange and the position is unchanged |
| BinaryReading.Reader.ReadStringToNull | AssetStudioUtility/ShaderConverter.cs:1269 | the result is the bytes before the terminator, and the new position is SkipToNull's |
| BinaryReading.Reader.ReadToEnd | AssetStudioUtility/ShaderConverter.cs:1270 | the result is every byte from the position on, and the position reaches the end; a position past the end fails with ArgumentOutOfRange |
| ShaderProgramFormat.EntryAt | AssetStudioUtility/ShaderConverter.cs:1030-1038 | an entry takes 12 bytes from 2019.3 on and 8 before, when the segment stays 0 |
| ShaderProgramFormat.EntriesAt | AssetStudioUtility/ShaderConverter.cs:1048-1053 | n entries take n entry widths and give n entries |
| ShaderProgramFormat.EntryTableAt | AssetStudioUtility/ShaderConverter.cs:1046-1055 | the table has as many entries as the leading count, and ends after them |
| ShaderProgramFormat.EntryTableRoundTrip | AssetStudioUtility/ShaderConverter.cs:1046-1055 | reading a written entry table gives back its entries and ends after it |
| ShaderProgramFormat.FillFrom | AssetStudioUtility/ShaderConverter.cs:1057-1067 | reading a segment keeps one slot per entry |
| ShaderProgramFormat.FillSegmentFails | AssetStudioUtility/ShaderConverter.cs:1057-1067 | reading a segment fails exactly when one of its entries has a negative length |
| ShaderProgramFormat.FillSegmentSlot | AssetStudioUtility/ShaderConverter.cs:1059-1066 | a slot of the segment gets a wrap of its entry with the next Length bytes; every other slot is unchanged |
| ShaderProgramFormat.FillSegmentEnd | AssetStudioUtility/ShaderConverter.cs:1089-1094 | reading a segment consumes the sum of its entries' lengths, capped at the end of the stream |
| ShaderProgramFormat.SubProgramAt | AssetStudioUtility/ShaderConverter.cs:1116-1150 | local keywords are present exactly in the version band, and the record ends 4-aligned |
| ShaderProgramFormat.RecordBodyAt | AssetStudioUtility/ShaderConverter.cs:1134-1150 | the body keeps the version and type read before it, and reads local keywords exactly in the band |
| ShaderProgramFormat.SubProgramRoundTrip | AssetStudioUtility/ShaderConverter.cs:1116-1150 | parsing a written sub-program record gives back the sub-program |
| ShaderProgramFormat.ReadEntry | AssetStudioUtility/ShaderConverter.cs:1030-1038 | the reader performs EntryAt |
| ShaderProgramFormat.ReadKeywordList | AssetStudioUtility/ShaderConverter.cs:1134-1139 | the reader performs KeywordListAt |
| ShaderProgramFormat.ReadAlignedStrings | AssetStudioUtility/ShaderConverter.cs:1136-1139 | the keyword loop reads n aligned strings in order, as AlignedStringsAt defines, or stops at the first failure |
| ShaderProgramFormat.ReadSubProgram | AssetStudioUtility/ShaderConverter.cs:1116-1150 | the reader performs SubProgramAt |
| ShaderProgramFormat.ReadRecordBody | AssetStudioUtility/ShaderConverter.cs:1134-1150 | the reader after the reserved bytes performs RecordBodyAt |
| ShaderProgramFormat.ReadLocalKeywords | AssetStudioUtility/ShaderConverter.cs:1140-1148 | the local keyword list is read exactly inside the version band, as LocalKeywordsAt defines |
| ShaderProgramFormat.GenShaderSubProgram | AssetStudioUtility/ShaderConverter.cs:1096-1104 | a wrap's buffer parses as ParseSubProgram says |
| ShaderProgramFormat.ReadEntries | AssetStudioUtility/ShaderConverter.cs:1050-1053 | the loop fills the array with the entries EntriesAt gives |
| ShaderProgramFormat.NoWraps | AssetStudioUtility/ShaderConverter.cs:1054 | a new wrap array of n slots holds n nulls |
| ShaderProgramFormat.ShaderProgram.Create | AssetStudioUtility/ShaderConverter.cs:1046-1055 | a new program holds the entry table read and as many null wraps |
| ShaderProgramFormat.ShaderProgram.Read | AssetStudioUtility/ShaderConverter.cs:1057-1067 | the wrap array becomes what FillFrom gives for the segment; the entries are unchanged |
| SubProgramExport.HeaderOffset | AssetStudioUtility/ShaderConverter.cs:1266-1267 | the stored offset is used as it is; a negative one fails |
| SubProgramExport.ReadMetalSource | AssetStudioUtility/ShaderConverter.cs:1261-1272 | the reads on the code give what MetalSourceAt says |
| SubProgramExport.MetalRoundTrip | AssetStudioUtility/ShaderConverter.cs:1261-1272 | with the magic, a stored offset and an entry name, the exported bytes are exactly the source after the name |
| SubProgramExport.MetalWithoutHeader | AssetStudioUtility/ShaderConverter.cs:1263-1270 | without the magic, the source starts after the name that follows the 4-byte tag |
| SubProgramExport.SkipNamedNull | AssetStudioUtility/ShaderConverter.cs:1269 | a name without zero bytes followed by a zero is skipped exactly |
| SubProgramExport.QuotedList | AssetStudioUtility/ShaderConverter.cs:1191-1194 | each keyword is printed quoted and followed by a space, in order |
| SubProgramExport.KeywordBlock | AssetStudioUtility/ShaderConverter.cs:1188-1205 | a keyword block is printed iff the list is present and non-empty |
| SubProgramExport.ExportFailsOnlyOnMetalHeader | AssetStudioUtility/ShaderConverter.cs:1185-1298 | the export fails only for non-empty Metal code whose header cannot be followed, with that error |
| SubProgramExport.ExportByRenderer | AssetStudioUtility/ShaderConverter.cs:1208-1294 | by program type, the code is printed as UTF-8 text, by the DXBC disassembler, as the SPIR-V disassembly or its error line, as the UTF-8 Metal source after its header, or as the "not supported" note |
| SubProgramExport.EmptyCodeExport | AssetStudioUtility/ShaderConverter.cs:1207-1297 | empty code exports the keyword blocks and `""` |
| SubProgramExport.SelectableTypesRendered | AssetStudioUtility/ShaderConverter.cs:918-919 | among types some platform accepts, only PS5NGGC falls to the "not supported" note |
| NameResolver.CsDiv | AssetStudioUtility/ShaderConverter.cs:190 | C# integer division truncates toward zero |
| NameResolver.CsRem | AssetStudioUtility/ShaderConverter.cs:199-200 | C# remainder agrees with Euclidean for non-negative offsets and stays within the divisor |
| NameResolver.NameMapLookup | AssetStudioUtility/ShaderConverter.cs:257-260 | in the name map, an index gets the name of its last binding |
| NameResolver.NameMapDomain | AssetStudioUtility/ShaderConverter.cs:257-260 | an index is in the name map iff some binding has it |
| NameResolver.TextureNoteInjective | AssetStudioUtility/ShaderConverter.cs:162 | different texture indices give different `tN.Sample` notes |
| NameResolver.TextureBindingsOk | AssetStudioUtility/ShaderConverter.cs:151-164 | texture bindings succeed iff every name index resolves and no note repeats |
| NameResolver.TextureBindingsNotes | AssetStudioUtility/ShaderConverter.cs:162 | the bindings add one `tN.Sample` note per texture |
| NameResolver.VectorName | AssetStudioUtility/ShaderConverter.cs:196-213 | the three naming cases: `cbN[base]`, `cbN[base].` + component letter, `cbN[base]+(o%16)` |
| NameResolver.VectorNameAt20 | AssetStudioUtility/ShaderConverter.cs:208 | offset 20 gives `cb0[1].y` |
| NameResolver.VectorNameInsideFirstComponent | AssetStudioUtility/ShaderConverter.cs:202-205 | offsets 1-3 inside a register name the register itself |
| NameResolver.VectorNameInjective | AssetStudioUtility/ShaderConverter.cs:196-213 | different offsets inside one register's aligned components give different names |
| NameResolver.MatrixName | AssetStudioUtility/ShaderConverter.cs:190-191 | a matrix is named by four consecutive registers from o/16 |
| NameResolver.MatrixNameRegister | AssetStudioUtility/ShaderConverter.cs:190-191 | two matrix offsets share a name iff they share a register |
| NameResolver.CbBindingsLookup | AssetStudioUtility/ShaderConverter.cs:175-179 | a buffer's code name is `cb` + the index of its last binding |
| NameResolver.CbBindingsDomain | AssetStudioUtility/ShaderConverter.cs:175-179 | a name index has a code name iff some binding has it |
| NameResolver.MatrixLines | AssetStudioUtility/ShaderConverter.cs:188-195 | the matrix lines add one note per matrix name |
| NameResolver.VectorLines | AssetStudioUtility/ShaderConverter.cs:196-216 | vector lines succeed iff every vector's name index resolves |
| NameResolver.BufferBlock | AssetStudioUtility/ShaderConverter.cs:182-216 | a buffer prints only if its name and binding resolve, and it keeps every earlier note |
| NameResolver.BufferBlocks | AssetStudioUtility/ShaderConverter.cs:182-217 | all buffers print only if each name and binding resolves |
| NameResolver.ConvertConstantBuffer | AssetStudioUtility/ShaderConverter.cs:168-220 | the Parameters block prints only when every buffer resolves |
| NameResolver.ConstantBufferEmpty | AssetStudioUtility/ShaderConverter.cs:168-220 | without buffers the Parameters block is still printed, empty |
| StateText.ConvertSerializedTagMap | AssetStudioUtility/ShaderConverter.cs:781-794 | the tags line is printed iff there are tags |
| StateText.TargetPrefix | AssetStudioUtility/ShaderConverter.cs:639-642 | the `i ` prefix is printed iff i is not 0 or the blend is separate |
| StateText.AlphaFactors | AssetStudioUtility/ShaderConverter.cs:644-648 | the alpha pair is printed iff (srcA, dstA) is not (1, 0) |
| StateText.BlendLine | AssetStudioUtility/ShaderConverter.cs:633-650 | the Blend line is printed iff the four factors are not (1, 0, 1, 0) |
| StateText.AlphaOp | AssetStudioUtility/ShaderConverter.cs:661-664 | the alpha op is printed iff it is not 0 |
| StateText.BlendOpLine | AssetStudioUtility/ShaderConverter.cs:652-666 | the BlendOp line is printed iff the two ops are not both 0 |
| StateText.MaskLettersRoundTrip | AssetStudioUtility/ShaderConverter.cs:672-694 | the R, G, B, A letters printed for a non-zero mask give back its low four bits |
| StateText.ColorMaskLine | AssetStudioUtility/ShaderConverter.cs:668-696 | the ColorMask line is printed iff the mask is not 0xF |
| StateText.TargetLines | AssetStudioUtility/ShaderConverter.cs:630-697 | a render target prints nothing iff all its values are defaults |
| StateText.RTBlendStateEmpty | AssetStudioUtility/ShaderConverter.cs:627-699 | the blend state prints nothing iff every render target is all-default |
| StateText.FaceLines | AssetStudioUtility/ShaderConverter.cs:479-498 | a stencil face prints iff its ops are not (0, 0, 0, 8) |
| StateText.StencilBlock | AssetStudioUtility/ShaderConverter.cs:450-501 | the Stencil block prints iff ref, masks or a face differ from the defaults |
| StateText.FogBlock | AssetStudioUtility/ShaderConverter.cs:503-555 | the Fog block prints iff the mode is known or a value is non-zero |
| StateText.NameLine | AssetStudioUtility/ShaderConverter.cs:368-371 | the Name line prints iff the name is not empty |
| StateText.LodLine | AssetStudioUtility/ShaderConverter.cs:372-375 | the LOD line prints iff the LOD is not 0 |
| StateText.AlphaToMaskLine | AssetStudioUtility/ShaderConverter.cs:381-384 | AlphaToMask On prints iff the value is positive |
| StateText.ZClipLine | AssetStudioUtility/ShaderConverter.cs:386-389 | ZClip Off prints unless zClip is present and 1, so a null zClip prints it |
| StateText.ZTestLine | AssetStudioUtility/ShaderConverter.cs:391-423 | the ZTest line prints iff the code is not 4, even with an empty name |
| StateText.ZWriteLine | AssetStudioUtility/ShaderConverter.cs:425-428 | ZWrite Off prints iff the value is not 1 |
| StateText.CullLine | AssetStudioUtility/ShaderConverter.cs:430-443 | the Cull line prints iff the code is not 2, even with an empty name |
| StateText.OffsetLine | AssetStudioUtility/ShaderConverter.cs:445-448 | the Offset line prints iff a value is non-zero |
| StateText.LightingOnlyOn | AssetStudioUtility/ShaderConverter.cs:557-560 | `Lighting On` prints exactly when lighting is on; `Lighting Off` never prints |
| StateText.DefaultStateElided | AssetStudioUtility/ShaderConverter.cs:365-564 | a state prints only its GpuProgramID line iff every value is a default |
| ProgramSelection.SerializedRefs | AssetStudioUtility/ShaderConverter.cs:347-348 | each serialized sub-program keeps its blob, type and `hw_tier` info, in order |
| ProgramSelection.PlayerRefs | AssetStudioUtility/ShaderConverter.cs:335-336 | each player sub-program keeps its blob and type, without info, in order |
| ProgramSelection.FlattenPlayerSubPrograms | AssetStudioUtility/ShaderConverter.cs:109-121 | the loop builds the concatenation that Flatten defines |
| ProgramSelection.ConcatListsAppend | AssetStudioUtility/ShaderConverter.cs:113-119 | flattening distributes over appending lists |
| ProgramSelection.ConcatListsMembers | AssetStudioUtility/ShaderConverter.cs:113-119 | an element is flattened iff it is in some non-null inner list |
| ProgramSelection.ConcatListsLength | AssetStudioUtility/ShaderConverter.cs:113-119 | the flat list is as long as the non-null lists together |
| ProgramSelection.FlattenExample | AssetStudioUtility/ShaderConverter.cs:109-121 | `[[a,b], null, [c]]` flattens to `[a,b,c]` |
| ProgramSelection.Distinct | AssetStudioUtility/ShaderConverter.cs:304 | the group keys are the keys present, without duplicates |
| ProgramSelection.FirstIndex | AssetStudioUtility/ShaderConverter.cs:304 | the first position of a key holds it, and none before does |
| ProgramSelection.DistinctInOrder | AssetStudioUtility/ShaderConverter.cs:304 | groups come in the order of their keys' first appearance |
| ProgramSelection.FilterMembers | AssetStudioUtility/ShaderConverter.cs:304 | a group holds exactly the sub-programs with its key |
| ProgramSelection.GroupByGroups | AssetStudioUtility/ShaderConverter.cs:304-308 | every group is non-empty and all its members share its key |
| ProgramSelection.GroupByPermutation | AssetStudioUtility/ShaderConverter.cs:304 | grouping neither loses nor duplicates sub-programs |
| ProgramSelection.GroupsPermutation | AssetStudioUtility/ShaderConverter.cs:304-308 | the two-level grouping by blob and then type is a permutation of the sub-programs |
| ProgramSelection.Answers | AssetStudioUtility/ShaderConverter.cs:311-314 | the compatibility answer for each platform, in order |
| ProgramSelection.SelectFirst | AssetStudioUtility/ShaderConverter.cs:311-325 | the chosen platform is the first accepting one; none means all refuse; a throw comes from the first throwing platform, after refusals |
| ProgramSelection.SelectPlatformFirstMatch | AssetStudioUtility/ShaderConverter.cs:311-325 | the selection on the platform table: first compatible platform, no match, or NotSupported |
| ProgramSelection.SelectFirstPrefix | AssetStudioUtility/ShaderConverter.cs:311-325 | platforms after the chosen one do not matter |
| ProgramSelection.SelectFirstAllNo | AssetStudioUtility/ShaderConverter.cs:311-325 | when every platform refuses, nothing is chosen |
| ProgramSelection.SelectFirstFails | AssetStudioUtility/ShaderConverter.cs:311-325 | a throwing platform before any match makes the selection throw |
| ProgramSelection.SelectFirstFound | AssetStudioUtility/ShaderConverter.cs:311-325 | an accepting platform after only refusals is chosen |
| ProgramSelection.WrapOf | AssetStudioUtility/ShaderConverter.cs:286 | the wrap is found iff the program exists, the index is in range and the slot is filled; otherwise IndexOutOfRange or NullReference |
| ProgramSelection.SubProgramBlockRecovers | AssetStudioUtility/ShaderConverter.cs:278-295 | the sub-program block is header, re-indented text and footer, and removing the indentation gives back the exported text |
| ProgramSelection.GroupIgnoresLaterPlatforms | AssetStudioUtility/ShaderConverter.cs:311-325 | a group is emitted with the first compatible platform and its program, whatever follows |
| ProgramSelection.GroupWithoutPlatform | AssetStudioUtility/ShaderConverter.cs:311-325 | a group no platform accepts emits nothing |
| ProgramSelection.UnsupportedPlatformFirst | AssetStudioUtility/ShaderConverter.cs:311-325 | an obsolete or unmapped platform before any match makes the conversion throw NotSupported |
| ShaderText.RoundHalfEven | AssetStudioUtility/ShaderConverter.cs:878 | `Math.Round` is within one half of its argument, and halves go to the even neighbour |
| ShaderText.RoundIsNearest | AssetStudioUtility/ShaderConverter.cs:878 | no integer is closer to the value than its rounding |
| ShaderText.DefaultText | AssetStudioUtility/ShaderConverter.cs:867-885 | the default value prints for every known property type, and an unknown type throws ArgumentOutOfRange |
| ShaderText.IntPropertyLine | AssetStudioUtility/ShaderConverter.cs:818-888 | an Int property prints its rounded default but no type name |
| ShaderText.PropertyLines | AssetStudioUtility/ShaderConverter.cs:810-813 | the properties print iff none has an unknown type |
| ShaderText.AbsentProgramEmpty | AssetStudioUtility/ShaderConverter.cs:123-150 | a null program stage prints nothing |
| ShaderText.ParametersAlwaysPrinted | AssetStudioUtility/ShaderConverter.cs:127-135 | a program with common parameters always gets a Parameters block |
| ShaderText.UsePassLeavesIndent | AssetStudioUtility/ShaderConverter.cs:237-241 | a UsePass ends with its level's indentation instead of a line break |
| ShaderText.UnmappedPassOpensWithBrace | AssetStudioUtility/ShaderConverter.cs:225-244 | a pass of unknown type opens with a bare `{` |
| ShaderText.OptionalLine | AssetStudioUtility/ShaderConverter.cs:75-83 | Fallback and CustomEditor lines print iff their names are not empty |
| ShaderText.ConvertSerializedShaderTree | AssetStudioUtility/ShaderConverter.cs:64-88 | the text opens with the `Shader "name" {` line and ends with the closing brace at the shader's level |
| ShaderText.EmptyProperties | AssetStudioUtility/ShaderConverter.cs:806-816 | an empty property list still prints the Properties block |
| ShaderText.EmptySubShader | AssetStudioUtility/ShaderConverter.cs:90-107 | a sub-shader without LOD, tags or passes is a bare block |
| ShaderText.MinimalShader | AssetStudioUtility/ShaderConverter.cs:64-107 | the complete text of a shader with one empty sub-shader |
| ShaderText.DecompressedSegment | AssetStudioUtility/ShaderConverter.cs:45-49 | a segment decompresses to exactly its decompressed length, and only when the jagged arrays have the entry and the slice is in the blob |
| ShaderText.LoadSegment | AssetStudioUtility/ShaderConverter.cs:50-57 | a later segment keeps the program's entries and needs the program of segment 0 |
| ShaderText.LoadPrograms | AssetStudioUtility/ShaderConverter.cs:39-59 | one program slot per platform |
| ShaderText.LoadProgramsAt | AssetStudioUtility/ShaderConverter.cs:39-59 | the slot of platform k is what its segments load |
| ShaderText.LoadShaderPrograms | AssetStudioUtility/ShaderConverter.cs:39-59 | the loop over platforms gives what LoadPrograms defines |
| ShaderText.LoadPlatformProgram | AssetStudioUtility/ShaderConverter.cs:43-58 | the loop over one platform's segments, creating the program at segment 0 and reading into it, gives what LoadPlatform defines |
| ShaderText.LoadSegmentInto | AssetStudioUtility/ShaderConverter.cs:52-57 | segment 0 creates a fresh program, every segment then reads its wraps into the program; the resulting table is what LoadSegment defines |
| ShaderText.SegmentlessPlatformFails | AssetStudioUtility/ShaderConverter.cs:39-59 | a platform without segments keeps a null program, and a group that selects it throws NullReference |
| ShaderText.ConvertSerializedShader | AssetStudioUtility/ShaderConverter.cs:37-62 | the loaded programs and the parsed form give the shader text |
| ShaderText.Convert | AssetStudioUtility/ShaderConverter.cs:15-35 | every result starts with the header, and only the two blob paths can fail |
| ShaderText.ConvertShader | AssetStudioUtility/ShaderConverter.cs:15-35 | reading the legacy blob through a ShaderProgram object, or loading the compressed blob, gives what Convert defines |
| ShaderText.ScriptOnlyShader | AssetStudioUtility/ShaderConverter.cs:34 | a shader without blobs is the header and its script |

## Left out

- `BinaryReading.BytesAt`, `BinaryReading.ByteArrayAt`, `BinaryReading.AlignedStringAt`: `ReadAlignedString` and `ReadUInt8Array` are defined outside ShaderConverter.cs and their code is not part of this model. Their failure modes are chosen here: a negative length gives `ArgumentOutOfRange` and a payload running past the end gives `EndOfStream`. .NET `BinaryReader.ReadBytes` would instead return a shorter array at the end of the stream.
- LZ4 decoding, DXBC and SPIR-V disassembly, UTF-8 decoding, the JSON serialisation of sub-program parameters and the regex-based legacy `ShaderProgram.Export` are foreign code. They are parameters (`Services`, `parametersJson`) and are not modelled.
- Float formatting goes through `Services.showFloat`. Float-valued render state is held as integer codes, printed in decimal. This matches C# for integral values; fractional values are not modelled.
- `BinaryReading.Reader.ReadStringToNull`: the 32767-byte cap of `ReadStringToNull` is not modelled. A longer name is read whole.
- Casts from `uint` to `int` on blob offsets and lengths, and the `(int)` cast of rounded Int defaults, are not modelled. Those values are `nat`/`int`.
- `ShaderText.RoundHalfEven`: `Math.Round` runs on the double widening of a float. The model rounds an exact real.
- `ConvertSerializedShaderNameIndices` is unused (its call is commented out) and is not modelled.
- The `shaderPrograms` array of objects is kept as the value each program holds after loading (`seq<Option<ProgramTable>>`). Aliasing between those objects and later reads is therefore not represented.
- Console logging and native library preloading are out of scope.
- AssetStudioUtility/DxBCDecompileHelper.cs and the SPIR-V converter are not part of this model.
