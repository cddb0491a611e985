# 3d-chess renderer core, modelled in Dafny

This project models the data-handling core of the 3d-chess OpenGL renderer. The GPU work and the
float maths are left out. Five parts are modelled:

- **The Wavefront OBJ importer** of `include/load_obj.h`:
  - the line tokeniser;
  - the record handlers `handle_v`, `handle_vt`, `handle_vn`, `handle_vp` and `handle_f`, with `handle_f`'s slash-field loop;
  - index resolution, where negative indices count back from the end and `INVALID_FACE_ID` is the sentinel;
  - the sliding-window triangulation that appends `VBO_STRUCT` vertices to the caller's vector.
- **`parse_vec3`** (`include/helpers.h`): the reader of every numeric triple string in the scene file.
- **The `Scene` class** (`src/Scene.cpp`):
  - the constructor, which reads lights, camera orientation, material constants, the object and texture tables, and the models, in that order;
  - `ld_shadow_maps`, which gives every light its own depth texture;
  - `ld_lights_uniform`, which binds light i's shadow texture to texture unit `startIndex + i`.
- **`clamp_dim`, `LOC` and `load_tex`**:
  - `include/lib.hpp` and `include/_v1/load_tex.h`, duplicated in `src/bind.cpp`;
  - textures are cut to the largest power-of-two block and repacked bottom-up into an RGB byte buffer.
- **`save_as_tga` and the two depth screenshot helpers** of `src/screen.cpp`, as byte strings in the Truevision TGA 2.0 layout.

The modules and their files:

| module | file | part |
|---|---|---|
| `Common` | `common.dfy` | shared values |
| `Text` | `text.dfy` | splitting on one separator with `std::string::find` |
| `Helpers` | `helpers.dfy` | `parse_vec3` |
| `Dims` | `dims.dfy` | `clamp_dim` |
| `TextureRepack` | `texture.dfy` | `load_tex` |
| `Tga` | `tga.dfy` | screenshots |
| `ObjLoader` | `obj_loader.dfy` | the importer |
| `SceneModel` | `scene.dfy` | the scene |

A step that ends the process is an `Err` of the `Fatal` datatype. These are:
- `exit(1)`;
- an exception from `std::stof`;
- a failed `assert`.

`front()` on an exhausted token list is undefined behaviour in C++, not an abort. The coordinate
handlers are modelled as stopping there with `MissingToken`; "## Left out" names them.

Floats are opaque 32-bit patterns: the modelled code only copies them.

`std::stof` is a partial function passed in as a parameter. So is the float-to-int conversion of `int c = std::stof(s)`.

Two behaviours of the importer differ from what a reader of the Wavefront OBJ format would
expect; the model follows the code:

- **Short face tokens.**
  - In the Wavefront OBJ format `f 1 2 3` is a triangle.
  - The code skips every token shorter than three characters (`include/load_obj.h:107-109`), so that face is empty.
  - `ShortTokenSkipped` and `ShortDescriptorsDropped` state this.
  - Triangulating that empty face then takes `j % 0`. The model skips such a face instead; see "## Findings".
- **Unreadable OBJ file.**
  - `load_obj` does not abort on an unreadable file: it prints a message and returns, leaving `data` unchanged (`include/load_obj.h:222-225`).
  - `LoadObjResult` returns `Ok(data)`.

## Model

| member | source | states |
|---|---|---|
| `Text.Find` | include/load_obj.h:242-249 | The position found is the first separator at or after the start; it is the end of the string (npos) when there is none. |
| `Text.Split` | include/helpers.h:48-59 | The chunks of the scanning loop: no chunk holds the separator, and only the empty string has no chunks. |
| `Text.SplitScan` | include/load_obj.h:241-259 | One turn of a scanning loop: take the chunk up to the next separator and step past it. Chunks seen so far plus the chunks of the rest still equal all chunks. |
| `Text.ScanEnd` | include/load_obj.h:241 | When the position reaches the end, the chunks seen are exactly the chunks of the string. |
| `Text.JoinSplit` | include/helpers.h:48-59 | Splitting and re-joining with the separator gives the string back, minus one trailing separator. |
| `Text.SplitJoin` | include/helpers.h:48-59 | Words without separators, the last non-empty, joined with separators, split back into the same words. |
| `Text.SplitTrailingSep` | include/load_obj.h:241-259 | A single separator at the end of the string adds no chunk. |
| `Text.SplitLeadingSep` | include/load_obj.h:241-259 | A leading separator gives an empty first chunk. |
| `Text.SplitDoubleSep` | include/load_obj.h:241-259 | Two separators in a row give an empty chunk. |
| `Helpers.ParseAll` | include/helpers.h:48-59 | One number per chunk when every chunk converts. ParseAllMeans states the rest. |
| `Helpers.Vec3From` | include/helpers.h:44-64 | Defines parse_vec3's result: the first three numbers, or the reason the process stops. Vec3FromMeans states it. |
| `Helpers.ParseAllMeans` | include/helpers.h:54-56 | The numbers are produced exactly when std::stof accepts every chunk; they come in chunk order; otherwise the error is BadNumber. |
| `Helpers.ParseAllErrSticks` | include/helpers.h:55 | Once std::stof has thrown, later chunks do not change the outcome. |
| `Helpers.Vec3FromMeans` | include/helpers.h:44-64 | A vector results exactly when every chunk converts and there are at least three; it holds the first three numbers; otherwise BadNumber or TooFewComponents. |
| `Helpers.ParseVec3` | include/helpers.h:44-64 | The method (loop, assertion, first three parts) returns exactly Vec3From of its input. |
| `Helpers.ParseChunks` | include/helpers.h:45-59 | The loop's numbers are std::stof of each space-separated chunk in order, or the error of the first chunk it throws on. |
| `Helpers.ParseAllStep` | include/helpers.h:54-58 | A converting turn of the loop keeps both loop invariants. |
| `Helpers.ThrowAborts` | include/helpers.h:55 | A chunk std::stof rejects makes the whole parse that chunk's BadNumber. |
| `Helpers.FirstChunkRejected` | include/helpers.h:54-56 | A first chunk std::stof rejects is the error, whatever follows. |
| `Helpers.EmptyStringFails` | include/helpers.h:61 | An empty string has no parts and fails the assertion. |
| `Helpers.ThreeNumbersRoundTrip` | include/helpers.h:44-64 | "a b c" with single spaces reads back as stof(a), stof(b), stof(c). |
| `Helpers.StraySpaceAborts` | include/helpers.h:49-55 | A leading space or a double space makes an empty chunk, which std::stof rejects, so the result is a BadNumber error. With a leading space it is BadNumber(""). |
| `Helpers.TrailingSpaceTolerated` | include/helpers.h:48-58 | One trailing space does not change the result. |
| `Dims.Pow2Floor` | include/lib.hpp:93-103 | The reference value clamp_dim is checked against: 0 below 1, otherwise a positive number. Pow2FloorBounds proves it the largest power of two not above dim. |
| `Dims.Pow2FloorBounds` | include/lib.hpp:93-103 | The reference value is a power of two r with r <= dim < 2r. |
| `Dims.Pow2FloorUnique` | include/lib.hpp:93-103 | Only one power of two satisfies r <= dim < 2r. |
| `Dims.ClampDim` | include/lib.hpp:93-103 | Returns 0 for dim < 1. Otherwise it returns the power of two r with r <= dim < 2r. The copy in include/_v1/load_tex.h:9-19 is identical. |
| `Dims.ClampIdempotent` | include/lib.hpp:93-103 | Clamping an already clamped side leaves it unchanged. |
| `Dims.ClampMonotone` | include/lib.hpp:93-103 | A larger side never clamps to a smaller value. |
| `TextureRepack.Loc` | include/_v1/load_tex.h:6 | Defines LOC(x, y, w) = 3(y*w + x). LocInjective, LocInRange and LocCovers state its properties. |
| `TextureRepack.Repacked` | include/_v1/load_tex.h:41-52 | Defines byte k of the repacked buffer: channel k%3 of the vertically flipped source texel. RepackedAt states it per texel. |
| `TextureRepack.LocInjective` | include/_v1/load_tex.h:6 | LOC gives distinct texels of one row width disjoint 3-byte slots. |
| `TextureRepack.LocInRange` | include/_v1/load_tex.h:6 | Every slot of an M-by-N block lies inside the 3*M*N buffer. |
| `TextureRepack.LocCovers` | include/_v1/load_tex.h:6 | Every buffer position lies in the slot of exactly one texel and channel. |
| `TextureRepack.RepackedAt` | include/_v1/load_tex.h:41-52 | Output texel (x, y) holds source texel (x, N-1-y): the rows are flipped. |
| `TextureRepack.LoadTex` | include/_v1/load_tex.h:21-60 | The sides are clamp_dim of the image's. The buffer is fresh and 3*M*N bytes long. Every texel is the vertically flipped source texel. Positions are written once each, in increasing order. |
| `TextureRepack.Repack` | src/bind.cpp:160-175 | The malloc and both loops produce a fresh 3*M*N buffer holding the flipped block. |
| `TextureRepack.Fill` | include/_v1/load_tex.h:41-54 | The row loop fills the whole buffer with the flipped block, positions in order. |
| `TextureRepack.FillRow` | include/_v1/load_tex.h:42-53 | One output row moves the write frontier from the start of row y to the start of row y+1. |
| `TextureRepack.FillStep` | include/_v1/load_tex.h:44-52 | Storing r, g, b of one texel extends the filled prefix by that texel's slot. |
| `TextureRepack.FilledMeans` | include/_v1/load_tex.h:41-54 | A buffer filled to its end holds every flipped source texel. |
| `Tga.ToShort` | src/screen.cpp:51-52 | `(short)n` is a 16-bit value congruent to n modulo 2^16. |
| `Tga.MakeHeader` | src/screen.cpp:34-52 | The header save_as_tga fills in always has 16-bit fields. |
| `Tga.EncodeHeader` | src/screen.cpp:19-32 | The packed header is always 18 bytes. HeaderRoundTrip proves it decodes back. |
| `Tga.ShortRoundTrip` | src/screen.cpp:23-29 | A 16-bit field stored little-endian reads back as itself. |
| `Tga.HeaderRoundTrip` | src/screen.cpp:19-32 | Every header save_as_tga can write decodes from its 18 packed bytes to itself. |
| `Tga.SaveAsTga` | src/screen.cpp:4-62 | The file is the 18-byte header followed by the first data_size bytes. Image type is 3 with 8 bpp for greyscale, otherwise 2 with 24 bpp. Width and height are (short) casts. Every other header byte is 0. |
| `Tga.Depth2DScreenshot` | src/screen.cpp:109-137 | The file is a greyscale 8-bpp TGA of the width*height depth bytes. |
| `Tga.Depth2DIgnoresType` | src/screen.cpp:130-136 | The image type argument has no effect on the file. |
| `Tga.Depth3DLayerScreenshot` | src/screen.cpp:88-107 | The file is the greyscale header of the layer's size, then the layer's bytes. |
| `ObjLoader.KeptMeans` | include/load_obj.h:253-255 | Every kept chunk is non-empty and is one of the line's chunks. |
| `ObjLoader.TokensMeans` | include/load_obj.h:241-259 | A line's tokens are non-empty and contain no space. |
| `ObjLoader.Tokenize` | include/load_obj.h:238-259 | The tokenising loop returns exactly the non-empty space-separated chunks, in order. |
| `ObjLoader.NextToken` | include/load_obj.h:242-258 | One turn of the loop keeps the invariant: the chunks seen so far, and the kept ones among them. |
| `ObjLoader.TokenStep` | include/load_obj.h:251-258 | The kept list grows by the chunk exactly when it is neither " " nor "". |
| `ObjLoader.KeptAppend` | include/load_obj.h:253-255 | Filtering distributes over concatenation. |
| `ObjLoader.KeptIdentity` | include/load_obj.h:253-255 | Chunks that are non-empty and space-free are all kept. |
| `ObjLoader.TokensJoin` | include/load_obj.h:241-259 | Space-free words joined with single spaces tokenise back to the words. |
| `ObjLoader.TokensLeadingSpace` | include/load_obj.h:253 | A leading space does not change the tokens. |
| `ObjLoader.Tokens` | include/load_obj.h:238-259 | Defines a line's tokens: the non-empty space-separated chunks. TokensMeans and Tokenize state their meaning. |
| `ObjLoader.HandleV` | include/load_obj.h:58-79 | Defines the vertex record: x, y, z, and w or 1.0. HandleVReadsPrefix states it. |
| `ObjLoader.HandleVn` | include/load_obj.h:81-97 | Defines the normal record x, y, z. HandleVnReadsPrefix states it. |
| `ObjLoader.HandleUvw` | include/load_obj.h:168-206 | Defines the texture (and identical parameter-space) record: u, then v and w when present. HandleUvwReadsPrefix states it. |
| `ObjLoader.HandleVReadsPrefix` | include/load_obj.h:58-79 | handle_v parses the first four tokens, or as many as there are, in order; the first rejected one aborts. Fewer than three is MissingToken. Otherwise x, y, z come first, then w or 1.0. |
| `ObjLoader.HandleVnReadsPrefix` | include/load_obj.h:81-97 | handle_vn parses the first three tokens in order and needs all three. |
| `ObjLoader.HandleUvwReadsPrefix` | include/load_obj.h:168-186 | handle_vt (and the identical handle_vp) needs u. It sets v and w exactly when their tokens exist. |
| `ObjLoader.VertexDefaultW` | include/load_obj.h:73-76 | A three-coordinate vertex gets w = 1.0. |
| `ObjLoader.FieldValue` | include/load_obj.h:141-156 | Defines one field's value: the sentinel for an empty or unconvertible field, else the converted number. ParseField computes it. |
| `ObjLoader.Descriptor` | include/load_obj.h:119-160 | Defines a descriptor: slots v, vt, vn from the first three slash fields. DescriptorSlots and DescriptorWithoutSlashes state it. |
| `ObjLoader.FaceOf` | include/load_obj.h:104-163 | A face has at most one descriptor per token. |
| `ObjLoader.ParseField` | include/load_obj.h:141-156 | An empty field, or one std::stof rejects, gives the sentinel; otherwise the converted value. |
| `ObjLoader.ParseDescriptor` | include/load_obj.h:119-160 | The slash loop fills slots v, vt, vn from the first three fields. Slots it never reaches stay unset. |
| `ObjLoader.DescriptorDone` | include/load_obj.h:121-139 | Whether the loop ends at the token's end or after three fields, the slots are those of the whole token. |
| `ObjLoader.SlotsSnoc` | include/load_obj.h:131-139 | Field number cnt fills slot cnt and leaves the other slots alone. |
| `ObjLoader.HandleF` | include/load_obj.h:99-166 | The faces loop returns one descriptor per token of at least three characters, in token order. |
| `ObjLoader.ShortTokenSkipped` | include/load_obj.h:107-109 | Any token shorter than three characters adds nothing to the face. |
| `ObjLoader.ShortDescriptorsDropped` | include/load_obj.h:107-109 | `f 1 2 3` gives an empty face. |
| `ObjLoader.LongDescriptorKept` | include/load_obj.h:107-162 | A token of three or more characters appends its descriptor. |
| `ObjLoader.DescriptorSlots` | include/load_obj.h:119-160 | a/b/c fills v, vt, vn from a, b, c; a//c makes vt the sentinel. |
| `ObjLoader.DescriptorWithoutSlashes` | include/load_obj.h:119-160 | A token without slashes sets only v. |
| `ObjLoader.ResolveNegative` | include/load_obj.h:314-316 | -1 is the last element, and -k names the same element as size-k+1. |
| `ObjLoader.ResolveInRange` | include/load_obj.h:314-318 | The result is in 1..size exactly for 1..size and -size..-1; the sentinel maps to itself. |
| `ObjLoader.NegativeIndexReadsFromEnd` | include/load_obj.h:311-323 | A position index of -k reads the same vertex as size-k+1; -1 reads the last vertex. |
| `ObjLoader.PositionSlotZero` | include/load_obj.h:318-323 | A sentinel position slot gives the zero position. |
| `ObjLoader.TextureSlotZero` | include/load_obj.h:325-330 | A sentinel or unreached texture slot gives the zero texture coordinate. |
| `ObjLoader.NormalSlotZero` | include/load_obj.h:332-337 | A sentinel or unreached normal slot gives the zero normal. |
| `ObjLoader.UnreachedSlotReadAsWritten` | include/load_obj.h:311-316 | As written: a position-only descriptor never stores vt or vn. Memory that held 0 there resolves to an index outside the list, and vt_list[-1] is read. |
| `ObjLoader.PositionOnlyCorner` | include/load_obj.h:311-337 | Corrected reading: a position-only descriptor with an in-range index yields its vertex with zero texture coordinate and normal. |
| `ObjLoader.Resolve` | include/load_obj.h:314-316 | Defines index resolution: a negative index counts back from the end of its list. ResolveNegative and ResolveInRange state its properties. |
| `ObjLoader.VertexOf` | include/load_obj.h:311-337 | Defines the output vertex of one descriptor: each slot resolved, then looked up or the zero vector for the sentinel. The lemmas above state its cases. |
| `ObjLoader.TriangleCount` | include/load_obj.h:285-347 | The sweep emits the least t >= 1 windows with 2t+1 >= n. |
| `ObjLoader.TriangleCountClosedForm` | include/load_obj.h:285-347 | That count is 1 + ceil(max(0, n-3)/2). |
| `ObjLoader.Corner` | include/load_obj.h:292 | Corner k of window t is a descriptor index below n. |
| `ObjLoader.Windows` | include/load_obj.h:287-347 | There is one descriptor triple per emitted window. |
| `ObjLoader.WindowsOfTriangle` | include/load_obj.h:287-347 | A triangle gives (0,1,2). |
| `ObjLoader.WindowsOfQuad` | include/load_obj.h:287-347 | A quad gives (0,1,2) and then (2,3,0), wrapping around. |
| `ObjLoader.WindowsOfPentagon` | include/load_obj.h:287-347 | A pentagon gives (0,1,2) and then (2,3,4). |
| `ObjLoader.WindowsCoverFace` | include/load_obj.h:287-347 | Every descriptor of a face is a corner of some window. |
| `ObjLoader.WindowsOverlap` | include/load_obj.h:346 | The last corner of a window is the first corner of the next. |
| `ObjLoader.FaceVertices` | include/load_obj.h:288-341 | A face contributes three vertices per window. |
| `ObjLoader.FaceVerticesAt` | include/load_obj.h:288-341 | Vertex 3t+k of a face's output is the vertex of corner k of window t. |
| `ObjLoader.Triangulate` | include/load_obj.h:285-347 | The while/for sweep over one face produces exactly the face's windowed vertices. |
| `ObjLoader.Window` | include/load_obj.h:288-341 | The inner loop emits descriptors i, i+1, i+2 modulo n. It flags wrap-around exactly when the window reaches the end. |
| `ObjLoader.WindowStep` | include/load_obj.h:288-341 | Window t is the next three vertices of the face's output. |
| `ObjLoader.ExpandSnoc` | include/load_obj.h:281-348 | One more face appends its vertices after the earlier output; an empty face appends none. |
| `ObjLoader.FaceOutput` | include/load_obj.h:281-347 | Defines one face's contribution: its triangulated vertices, or nothing for a face without descriptors (the corrected reading). |
| `ObjLoader.EmptyFaceAsWritten` | include/load_obj.h:292 | As written: `f 1 2 3` gives a face with no descriptors, which the sweep (index modulo the face length) cannot read. |
| `ObjLoader.EmptyFaceSkipped` | include/load_obj.h:279-348 | Corrected: a face without descriptors adds nothing between the faces around it. |
| `ObjLoader.ExpandConcat` | include/load_obj.h:276-281 | Faces are emitted in input order: the output of two runs of faces is the first run's output, then the second's. |
| `ObjLoader.ExpandLength` | include/load_obj.h:281-348 | The output is three vertices per window of the non-empty faces: whole triangles. |
| `ObjLoader.FlattenConcat` | include/load_obj.h:276-281 | Concatenating per-face blocks distributes over joining the face lists. |
| `ObjLoader.Step` | include/load_obj.h:260-272 | A line without tokens leaves the lists unchanged (the corrected reading; see Findings). An unknown tag leaves the lists unchanged. An f line appends exactly one face. A v line appends exactly one vertex. vt, vn and vp lines change neither vertices nor faces. Only v, vt, vn and vp lines can abort. |
| `ObjLoader.BlankLineAsWritten` | include/load_obj.h:260 | As written: two newlines in a row give a line with no tokens, on which the code calls front() of an empty list. |
| `ObjLoader.BlankLineSkipped` | include/load_obj.h:234-273 | Corrected: a line without tokens leaves the result of the lines before it unchanged. |
| `ObjLoader.ParseLines` | include/load_obj.h:234-273 | Defines the lists after reading lines in order, or the first fatal error. ReadLists computes it. |
| `ObjLoader.LoadObjResult` | include/load_obj.h:219-348 | Defines load_obj's effect: data unchanged for an unreadable file, else data followed by every face's triangles. LoadObjAppends states its shape. |
| `ObjLoader.ParseLinesErrSticks` | include/load_obj.h:234-273 | Once a line has aborted, later lines change nothing. |
| `ObjLoader.ReadLists` | include/load_obj.h:234-273 | The reading loop returns exactly the lists of the lines in order, or the first fatal error. |
| `ObjLoader.AppendFaces` | include/load_obj.h:279-348 | The face loop appends each face's triangles, face after face, after the old contents of data. |
| `ObjLoader.AppendStep` | include/load_obj.h:281-282 | Face k's vertices follow those of the faces before it. |
| `ObjLoader.LoadObj` | include/load_obj.h:219-348 | load_obj's result is exactly LoadObjResult. A file that cannot be opened leaves data unchanged. |
| `ObjLoader.LoadObjAppends` | include/load_obj.h:219-348 | load_obj only appends: the old data stays a prefix and the new part is a whole number of triangles. |
| `ObjLoader.AppendTriangles` | include/load_obj.h:340 | Appending 3n vertices keeps the prefix and adds a multiple of three. |
| `SceneModel.LightOf` | src/Light.cpp:8-10 | Defines one light: position and intensity through parse_vec3, no shadow yet. LightsInOrder states its use. |
| `SceneModel.OrientationOf` | src/Scene.cpp:47-54 | Defines the camera orientation: eye, gaze, top in that order, then fovy, zNear, zFar. ReadOrientation computes it. |
| `SceneModel.MaterialsOf` | src/Scene.cpp:56-59 | Defines the material constants Ia, Kd, Ka, Ks, read in that order. ReadMaterials computes it. |
| `SceneModel.ModelOf` | src/Model.cpp:9-16 | Defines one model: the object and texture checks, then axis, scale and translation. ModelReferencesResolve states it. |
| `SceneModel.Assemble` | src/Scene.cpp:29-132 | Defines the constructor's contents: lights, orientation, materials, tables and models, in that order. AssembleKeepsOrder and Scene.Open state it. |
| `SceneModel.LightCalls` | src/Scene.cpp:197-225 | Defines one light's GL calls. LightCallsBind states it. |
| `SceneModel.Uniforms` | src/Scene.cpp:196-226 | Defines all lights' GL calls in light order. UniformsBindShadows states it. |
| `SceneModel.MapAll` | src/Scene.cpp:35-42 | A list is built exactly when every entry builds. It then has one element per entry, in entry order. |
| `SceneModel.MapAllFirstError` | src/Scene.cpp:35-42 | The error is the first failing entry's. |
| `SceneModel.MapAllSnoc` | src/Scene.cpp:35-41 | One more entry continues the list built so far. |
| `SceneModel.MapAllErrSticks` | src/Scene.cpp:35-42 | After an entry aborts, later entries change nothing. |
| `SceneModel.Table` | src/Scene.cpp:72-79 | An id is in the table exactly when some entry names it. |
| `SceneModel.TableLastWins` | src/Scene.cpp:78 | map[id] = ... overwrites: an id maps to the handle of the last entry naming it. |
| `SceneModel.ModelReferencesResolve` | src/Scene.cpp:112-124 | Object assertion first, then texture assertion. A built model points at its object's entry, and at its texture's entry exactly when tex_id is present. |
| `SceneModel.AssembleKeepsOrder` | src/Scene.cpp:29-131 | A built scene has one light per "lights" entry and one model per "models" entry, in file order. Its tables are those of the arrays. |
| `SceneModel.AssembleParts` | src/Scene.cpp:16-133 | A built scene's lights, models and tables come from the lights loop, the models loop and the two table loops. |
| `SceneModel.LightsInOrder` | src/Scene.cpp:29-43 | Light k is Light(position, intensity) of lights entry k. |
| `SceneModel.ModelsInOrder` | src/Scene.cpp:100-132 | Model k is built from models entry k. |
| `SceneModel.ModelsSeeWholeTables` | src/Scene.cpp:63-131 | Models are built after both tables are complete, so naming an object from any entry never fails the object assertion. |
| `SceneModel.UnitSum` | src/Scene.cpp:217 | The GLuint sum startIndex + i is below 2^32. |
| `SceneModel.AsInt32` | src/Scene.cpp:194 | Storing it in the int texUnitId gives the congruent value in int range. |
| `SceneModel.UniformsBindShadows` | src/Scene.cpp:196-226 | A shadow texture is bound to unit u exactly when it is light i's with u = startIndex + i. Lights without a shadow bind nothing. |
| `SceneModel.LightCallsBind` | src/Scene.cpp:214-225 | Light i binds only its own texture, and only to startIndex + i. |
| `SceneModel.UnitsDistinct` | src/Scene.cpp:217 | Distinct lights (below 2^32 of them) get distinct units. |
| `SceneModel.UnitWithoutWrap` | src/Scene.cpp:217 | Without overflow, light i uses unit startIndex + i. |
| `SceneModel.ShadowPassThenUniforms` | src/Scene.cpp:162-226 | After the shadow pass, every light's texture is bound, light i's to unit startIndex + i. |
| `SceneModel.Scene.constructor` | include/types.hpp:37 | Stores the given contents, the file name and the window size the declared three-argument constructor takes. |
| `SceneModel.Scene.Open` | src/Scene.cpp:16-133 | A file that cannot be opened is CannotOpen. Otherwise construction succeeds exactly when Assemble does, with the same error. The fresh scene holds Assemble's contents. |
| `SceneModel.Scene.ReadOrientation` | src/Scene.cpp:47-54 | eye, gaze, top through parse_vec3 in that order, then fovy, zNear, zFar. |
| `SceneModel.Scene.ReadMaterials` | src/Scene.cpp:56-59 | Ia, Kd, Ka, Ks through parse_vec3 in that order. |
| `SceneModel.Scene.ReadLights` | src/Scene.cpp:29-43 | The lights loop returns MapAll of the entries: all lights in order, or the first error. |
| `SceneModel.Scene.ReadTable` | src/Scene.cpp:63-98 | The objects and textures loops build exactly Table of the entries. |
| `SceneModel.Scene.ReadModels` | src/Scene.cpp:100-132 | The models loop returns all models in order, or the first error. |
| `SceneModel.Scene.NewModel` | src/Model.cpp:9-16 | One model: the two assertions, then the axis, scale and translation through parse_vec3. |
| `SceneModel.Scene.LdShadowMaps` | src/Scene.cpp:162-177 | initShadow runs once per light, in index order. Light i gets its own fresh WIDTH x HEIGHT texture. Nothing else changes. |
| `SceneModel.Scene.LdLightsUniform` | src/Scene.cpp:185-227 | The calls are exactly Uniforms(lights, startIndex): per light, position and intensity; with a shadow, also sampler unit, bind and matrix. |

## Left out

- Float maths:
  - the normalisation of gaze (src/Orientation.cpp:17);
  - the view, perspective and shadow matrices;
  - the model matrix.

  Floats are opaque 32-bit patterns.
- Reading and decoding external data. Each decoded value is a parameter instead:
  - JSON decoding of the scene file (src/Scene.cpp:17-26). The decoded document is a parameter, and a missing key or a wrong JSON type is not modelled.
  - Image decoding by CImg.
  - `glReadPixels` and `glGetTextureSubImage`.
  - `std::ifstream`.
- Writing the TGA file: `fopen`/`fwrite` are not modelled; the file content is the result, and a failed `fopen` is not modelled.
- `new Data(filename)` and `new Texture(filename)`: mesh and texture loading for scene entries is not part of the scene model. A table entry is a handle numbered by its position.
- GL and shader plumbing:
  - uniform-name formatting with snprintf and `glGetUniformLocation`, represented by the uniform's kind and the light index;
  - shader compilation in `ld_shadow_maps`;
  - the shadow render pass inside `initShadow`;
  - the `SCENE_DEBUG` screenshot in `ld_shadow_maps`.

  `LdShadowMaps` records only the per-light texture allocation.
- Failures and memory management:
  - `malloc` failure in the OBJ handlers;
  - the debug printing (`print_vbo`, `printf`);
  - the final `free` loops.
- `ObjLoader.LoadObj`: `std::getline` is modelled as a split on '\n'; '\r' gets no special treatment.
- `ObjLoader.LoadObj`: requires `Loadable`, which rules out behaviour the code leaves undefined:
  - every index in range or the sentinel;
  - every referenced `vt` with its v set.
- `ObjLoader.LoadObj`: a blank line is skipped and a face without descriptors adds nothing, following the corrected readings under "## Findings". As written, the code calls `front()` on an empty list for the first and takes `j % 0` for the second.
- `ObjLoader.LoadObj`: a slot handle_f never stored (the texture and normal of `a`, the normal of `a/b` and `a//`) is read as the sentinel, following the corrected reading under "## Findings". The code reads uninitialised memory there.
- `ObjLoader.HandleVReadsPrefix`: a `v` line with fewer than three coordinates calls `front()` on an exhausted list, which is undefined in C++; the model turns it into `Err(MissingToken)`.
- `ObjLoader.HandleVnReadsPrefix`: likewise for a `vn` line with fewer than three coordinates.
- `ObjLoader.HandleUvwReadsPrefix`: likewise for a `vt` or `vp` line without its u coordinate.
- `SceneModel.Scene.constructor`: follows the three-argument declaration at include/types.hpp:37. The only definition, src/Scene.cpp:16, takes the file name alone and never assigns WIDTH or HEIGHT, which `initShadow` later reads (src/Light.cpp:13). The model takes the size as given, so it does not capture those values being uninitialised.
- `SceneModel.Scene.Open`: takes the window size as a parameter for the same reason.
- `ObjLoader.ParseField`: the float-to-int conversion is the `toInt` parameter of `Numerics`. Its undefined cases (NaN, out of range) are not modelled.
- `Dims.ClampDim`: requires dim < 2^30, since from there on `_dim *= 2` overflows int.
- `TextureRepack.LoadTex`: requires 3*M*N to fit an int (the malloc size and LOC) and at least three channels.
- `SceneModel.Scene.LdLightsUniform`: requires fewer than 2^31 lights (the int loop counter) and a GLuint `startIndex`.
- `Tga.Depth2DScreenshot`: requires width*height to fit an int (`int data_size`).
- `Tga.Depth3DLayerScreenshot`: requires width*height to fit an int, as for the 2D screenshot.
- `Tga.Depth2DScreenshot`: also requires width and height non-negative, while the source takes plain `int`; a negative size makes `int data_size` negative, and that case is not modelled.
- `Tga.Depth2DIgnoresType`: requires the same non-negative size as `Tga.Depth2DScreenshot`.
- `Tga.Depth3DLayerScreenshot`: also requires width and height non-negative, for the same reason.
- `Tga.EncodeHeader`: lays the 16-bit fields out little-endian. save_as_tga writes the packed struct in host byte order (src/screen.cpp:19-32, 55), so this assumes a little-endian host.
- `ObjLoader.FaceOf`: a token counts as short when it has fewer than three characters. `chk.length()` (include/load_obj.h:107) counts bytes, so for a token with non-ASCII characters the two can differ; strings are sequences of characters here.
- `ObjLoader.HandleUvwReadsPrefix`: handle_vp is the same function body as handle_vt and is modelled by the same `HandleUvw`.

## Findings

| source | as written | input that shows it | evidently intended | confidence | as-written member | corrected member |
|---|---|---|---|---|---|---|
| include/load_obj.h:311-313 | The face loop reads `vt` and `vn` of every descriptor. handle_f (include/load_obj.h:119-160) stores only the fields the token has, in a malloc'd `F`. | `f 100 200 300` (or `f 1/1 2/2 3/3` for `vn`): the unstored slots hold whatever the memory held; with 0 there, `vt_list[-1]` is read | a missing field means "not applicable", the sentinel, as an empty field does (include/load_obj.h:153-155), giving a zero texture coordinate and normal | high that the read is uninitialised; not executed | `ObjLoader.UnreachedSlotReadAsWritten` | `ObjLoader.PositionOnlyCorner` |
| include/load_obj.h:260 | `std::string ELEM = chks.front();` runs for every line, including a line with no tokens. | a blank line, e.g. the content `v 0 0 0\n\nv 1 1 1`: its token list is empty and `front()` on it is undefined | a line without tokens is skipped | high that the call is undefined; not executed | `ObjLoader.BlankLineAsWritten` | `ObjLoader.BlankLineSkipped` |
| include/load_obj.h:292 | The sweep takes `j % f.size()` for every face, including one whose tokens were all shorter than three characters (include/load_obj.h:107-109). | `f 1 2 3`: the face has no descriptors, so the first corner index is `0 % 0` | a face without descriptors adds no triangles | high that the division is by zero; not executed | `ObjLoader.EmptyFaceAsWritten` | `ObjLoader.EmptyFaceSkipped` |
