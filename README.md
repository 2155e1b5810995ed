# A verified model of the ray caster's discrete core

This project models, in Dafny, the parts of a small C++ ray caster that are
logic rather than floating-point geometry:

- **The caster** (`Casting`, over `Hits`, `Materials`, `SceneObjects`):
  - it picks the nearest hit of a ray below a cutoff, and tests for shadows;
  - its light loop skips blocked lights when shadowing is on, then adds the ambient term once;
  - it sums the ambient light when a scene is read;
  - it caches the image size and toggles shadowing;
  - its render loop fills a row-major buffer of three clamped bytes per pixel.
  - Shape intersection, normalisation, Phong shading and the primary ray are
    uninterpreted functions in a `Geometry` value.
- **The scene-file reader** (`SceneReader`, `SceneReaderProperties`, over the tokenizer in `Tokens`):
  - the input is a sequence of whitespace-delimited tokens with a cursor and an end-of-file flag;
  - tokens are folded to lower case;
  - number conversion is a partial function given as a parameter;
  - the six block readers share one keyword loop with a keyword table per kind;
  - errors are returned as values.
- **The CPU side of the GPU buffers**:
  - `VertexBuffers` is interleaved attributes with per-attribute write cursors, overflow checks and a static-access lock;
  - `ElementBuffers` is a fixed array of unsigned indexes with a cursor.
- **Containers**:
  - `VertexArrays` holds the draw-mode name table and the getters that delegate to the buffers;
  - `Meshes` holds the parts list.
- **Byte layouts**:
  - `Images` is the binary PGM/PPM file `write_pnm` produces;
  - `Textures` expands pixels to RGBA texels and picks the bytes per pixel when reading a texture back.
- **The controller** (`CasterControl`) keeps a clamped index into a ladder of image widths and resizes the caster to match.

Every loop of the source is a `method` with a `while` or `for` loop. Each such method is proved against a
specification function: `Frame`, `PnmBytes`, `Texels`, `SceneLoop`, `BlockBody`, `Closest`, `LightSum`,
`Write`, `Read`, `Stored` and `Downcase`. The source's promises are proved as lemmas about those functions.

## Model

| member | source | states |
|---|---|---|
| Common.ToUInt32 | element_buffer.cpp:64 | converting an int to GLuint gives back the same number exactly when it lies in 0..2^32-1, and always a number congruent to it modulo 2^32 |
| Common.Clamp | caster.cpp:253-255 | max(min(v, hi), lo) lies in lo..hi, equals v inside the range and the nearer end outside it |
| Common.TruncTowardZero | caster.cpp:249-251 | static_cast<int> of a real is the integer next to it on the side of zero, for negative values as well as non-negative ones |
| Decimal.NatToStringRoundTrip | vertex_array.cpp:153-155 | the decimal text of n is non-empty, made only of digits, without a leading zero, and reads back as n |
| Decimal.NatToStringInjective | vertex_array.cpp:153-155 | two different numbers are never written as the same decimal text |
| Hits.Hit.constructor | hit.cpp:3-7 | a new hit has ray distance -1 |
| Hits.Hit.Set | hit.cpp:9-15 | after set, the hit holds exactly the given position, normal, material and distance, whatever it held before |
| Tokens.DowncaseCharwise | tokenizer.cpp:11-19 | downcase keeps the length, maps each of 'A'..'Z' to the matching small letter and leaves every other character unchanged |
| Tokens.DowncaseIdempotent | tokenizer.cpp:11-19 | downcased text holds no capital, so downcasing it again changes nothing |
| Tokens.DowncaseKeepsLowerCase | tokenizer.cpp:11-19 | text without capitals is its own lower-case copy |
| Tokens.DowncaseString | tokenizer.cpp:11-19 | the character loop builds exactly the lower-case copy |
| Tokens.Extract | tokenizer.cpp:37-38 | reading a token moves the cursor one token on while tokens remain; with none left it yields the empty string and raises end-of-file |
| Tokens.Tokenizer.constructor | tokenizer.cpp:22-33 | a new tokenizer is at the start of the file, with end-of-file not set |
| Tokens.Tokenizer.ReadToken | tokenizer.cpp:37-38 | `stream >> token` returns the next token and advances the stream as Extract says |
| Tokens.Tokenizer.NextString | tokenizer.cpp:36-40 | next_string is the downcased next token and moves one token on; at the end of input it is the empty string and end-of-file is set |
| Tokens.Tokenizer.NextNumber | tokenizer.cpp:72-84 | next_number is the converted raw token, or BadNumber naming the token when it does not convert |
| Tokens.Tokenizer.Match | tokenizer.cpp:62-69 | match passes exactly when the downcased next token equals the pattern, and otherwise fails naming both |
| SceneReader.KindOf | scene_reader.cpp:177-191 | the six kind words are recognised, each as the kind of that name, and every other word as no kind |
| SceneReader.DefaultBlock | scene_reader.cpp:17-22 | each reader starts from an object of its own kind |
| SceneReader.FindNamedMaterial | scene_reader.cpp:104-111 | the lookup fails, with UnknownMaterial naming the name, exactly when no material in the list has that name; a material found has that name and is in the list |
| SceneReader.FindNamedMaterialFirst | scene_reader.cpp:106-108 | when several materials share a name, the earliest in list order is returned |
| SceneReader.Numbers | scene_reader.cpp:143-147 | n numbers read in a row give n values and a cursor no earlier than the start |
| SceneReader.FieldOf | scene_reader.cpp:17-149 | every keyword a reader recognises names one field of its kind, of the argument type the reader reads for it (three numbers, one number, a word, a material, five clip values); every other word names no field |
| SceneReader.SameMaterial | scene_reader.cpp:113-129 | a material is fixed by the fields its keywords set: ambient, diffuse, specular, shininess and name |
| SceneReader.SameCamera | scene_reader.cpp:132-150 | a camera is fixed by the fields its keywords set: eye, lookat, vup, the five clip values and ambient_fraction |
| SceneReader.SameLight | scene_reader.cpp:87-101 | a light is fixed by its position, color and name |
| SceneReader.SameTriangle | scene_reader.cpp:60 | a triangle is fixed by the a, b, c, material and name it is built from |
| SceneReader.SameSphere | scene_reader.cpp:34 | a sphere is fixed by the center, radius, material and name it is built from |
| SceneReader.SameCylinder | scene_reader.cpp:84 | a cylinder is fixed by the center, radius, height, material and name it is built from |
| SceneReader.SetVec | scene_reader.cpp:24-141 | a three-number keyword (center, a, b, c, position, color, ambient, diffuse, specular, eye, lookat, vup) stores its vector in its own field, and no other field changes; for a word that is not such a keyword of the kind, nothing changes |
| SceneReader.SetNum | scene_reader.cpp:26-149 | radius, height, shininess and ambient_fraction store their number in their own field, and no other field changes; for any other word nothing changes |
| SceneReader.SetName | scene_reader.cpp:28-126 | "name" stores the word read in the name field, and no other field changes; a camera, which has no name, is unchanged |
| SceneReader.SetMaterial | scene_reader.cpp:30-80 | "material" stores the material found in a shape's material field, and no other field changes; other blocks are unchanged |
| SceneReader.SetClip | scene_reader.cpp:142-147 | "clip" stores five numbers as left, right, bottom, top and near, and no other field changes; blocks other than the camera are unchanged |
| SceneReader.KeywordStep | scene_reader.cpp:23-32 | one turn of a keyword loop keeps the block's kind and consumes at least one token when tokens remain; it finishes, with the block unchanged, only on "end"; an unknown word leaves the block unchanged; every field other than the one the word names keeps its value |
| SceneReader.KeywordSetsItsField | scene_reader.cpp:23-32 | after a keyword, its field holds exactly the argument read for it: the three numbers, the number, the next word, the material of that name, or the five clip values; an unknown word changes nothing |
| SceneReader.BlockBody | scene_reader.cpp:23-32 | a keyword loop that finishes keeps the block's kind and leaves the cursor past where it started |
| SceneReader.ReadBlockSpec | scene_reader.cpp:17-35 | a block read successfully is of the kind named after "begin" |
| SceneReader.ReadVec3 | scene_reader.cpp:10-15 | read_vec3 reads three numbers in order, or stops at the first that does not convert |
| SceneReader.ReadClip | scene_reader.cpp:142-147 | the clip keyword reads left, right, bottom, top and near in that order, or stops at the first bad number |
| SceneReader.Match | scene_reader.cpp:157-164 | the closing check passes exactly when the next downcased token is the expected kind, and otherwise fails naming both |
| SceneReader.ReadBlock | scene_reader.cpp:17-154 | each block reader gives the block and cursor of ReadBlockSpec, or its error |
| SceneReader.ReadArgument | scene_reader.cpp:24-31 | one keyword of a block: its argument is read and stored in its field, an unknown word is skipped, and a failed argument read stops the block with that error, exactly as one KeywordStep |
| SceneReader.ReadScene | scene_reader.cpp:167-198 | read_scene gives exactly the scene SceneLoop describes from the tokenizer's position, with no materials known at the start |
| SceneReaderProperties.UnknownWordsSkipped | scene_reader.cpp:23-32 | words that are not keywords of the block are skipped one token each, with no argument consumed and the block unchanged |
| SceneReaderProperties.UnknownOnlyBlockKeepsDefaults | scene_reader.cpp:17-22 | a block without any of its keywords yields the reader's default values (the sphere, triangle and cylinder defaults are those at lines 18-20, 38-40 and 64-66) |
| SceneReaderProperties.BodyKeepsUnnamedFields | scene_reader.cpp:23-32 | a field whose keyword is not among the words the loop reads, up to and including "end", keeps the value it had before the loop |
| SceneReaderProperties.BlockKeepsUnnamedDefaults | scene_reader.cpp:17-35 | in a block read successfully, every field whose keyword does not occur before the closing kind word keeps the reader's starting value |
| SceneReaderProperties.RadiusOnlySphere | scene_reader.cpp:17-35 | "radius 2 end sphere" gives the sphere of radius 2 with center (0,0,0), the default material and the name "NO NAME", and ends after the closing "sphere" |
| SceneReaderProperties.RadiusOnlyCylinder | scene_reader.cpp:63-85 | "radius 3 end cylinder" gives the cylinder of radius 3 that keeps height 2, center (0,0,0), the default material and the name "NO NAME" |
| SceneReaderProperties.ClosingKindMustMatch | scene_reader.cpp:33 | after "end", the block is accepted exactly when the next word is its own kind; otherwise the reader fails with MatchFailed naming both words |
| SceneReaderProperties.SceneLoopExpectsBegin | scene_reader.cpp:173-192 | a top-level word other than "begin" is ExpectedBegin naming it, unless it is the last word and nothing follows it |
| SceneReaderProperties.SceneLoopDropsFinalWord | scene_reader.cpp:173-176 | a last word with nothing after it ends read_scene with the scene read so far, whatever the word is |
| SceneReaderProperties.SceneLoopStep | scene_reader.cpp:177-190 | after "begin", an unknown kind after "begin" is skipped with no further token consumed; a block read correctly is added before the rest of the file is read |
| SceneReaderProperties.SceneLoopOnlyAppends | scene_reader.cpp:177-190 | reading only appends: the shapes and lights held before are a prefix of those after |
| SceneReaderProperties.AsWrittenNeverLeavesAtEndOfInput | scene_reader.cpp:23 | as written, a keyword loop that reaches the end of input reads the empty string forever and never leaves |
| SceneReaderProperties.UnclosedSphereExample | scene_reader.cpp:17-33 | for the file "begin sphere", the loop as written never finishes, while the corrected reader reports UnterminatedBlock("sphere") |
| SceneReaderProperties.UnclosedBlockFails | scene_reader.cpp:23-32 | corrected: a block whose remaining input holds no "end" always ends in an error instead of looping |
| SceneReaderProperties.BlockBodyAgreesWithAsWritten | scene_reader.cpp:23-32 | whenever the loop as written does finish, the corrected loop gives the same block and cursor, or the same error |
| Images.PnmHeaderFields | image.cpp:64-76 | the header starts "P5\n" for one channel and "P6\n" otherwise, then the width in decimal, which reads back as the width, then a space |
| Images.PnmHeaderHeight | image.cpp:64-76 | after the width and its space come the height in decimal, which reads back as the height, and "\n255\n", which ends the header |
| Images.SourceIndexIsPixelStart | image.cpp:91-102 | for one, three or four channels, pixel x of source row sy is read from byte (sy*width + x)*depth, where that pixel starts |
| Images.SourceIndexBeyondFour | image.cpp:91-102 | with five channels the source index still moves on four bytes per pixel, so pixel 1 of a row is read from the last byte of pixel 0 |
| Images.SourceInRange | image.cpp:91-103 | for a writable image, every byte write_pnm reads lies inside the pixel vector |
| Images.RowAt | image.cpp:93-103 | a written row has width*(1 or 3) bytes; byte c of pixel x is the byte at SourceIndex + c of the source row (x*depth for one, three and four channels, so grey is kept and alpha dropped) |
| Images.PnmPixel | image.cpp:87-105 | in the file, after the header, byte c of pixel (x, y) counted from the top is the byte at SourceIndex + c of source row height-1-y, which is byte c of pixel x of that row |
| Images.WritePnm | image.cpp:57-110 | write_pnm produces exactly the header followed by the flipped rows (PnmBytes) |
| Images.FillRow | image.cpp:91-103 | the inner loop fills the target row with the row's pixels, one or three bytes each, skipping alpha |
| Images.CopyPixel | image.cpp:93-101 | one pass of the inner loop appends that pixel's one or three bytes to the row and moves the source index past the pixel, alpha included |
| Casting.PixelStepOf | caster.cpp:57-58 | the pixel step is finite exactly when the pixel count is non-zero, and then times the count gives the clip extent |
| Casting.ClosestNoneIff | caster.cpp:157-171 | no hit is kept exactly when no shape reports a hit nearer than 100000 |
| Casting.ClosestBelowCutoff | caster.cpp:158-163 | a kept hit is nearer than 100000 |
| Casting.ClosestIsEarliestMinimum | caster.cpp:160-168 | the kept hit is one a shape reported; its distance is the least of all candidates, and every earlier shape's candidate is strictly farther, so on equal distances the first shape wins |
| Casting.Unblocked | caster.cpp:203-205 | the unblocked lights are exactly the scene's lights whose shadow ray hits nothing |
| Casting.ShadowingSkipsBlocked | caster.cpp:203-207 | with shadowing on, the light loop adds exactly the contributions of the unblocked lights |
| Casting.NoneUnblocked | caster.cpp:203-205 | when every light is blocked, none is left unblocked |
| Casting.AllBlockedLeavesNoLight | caster.cpp:203-208 | when every light is blocked, the light loop adds nothing, so only the ambient term remains |
| Casting.BackgroundWhenNothingLit | caster.cpp:214-220 | a pixel whose ray meets no shape before the cutoff, or first meets a hit without material, has the background colour |
| Casting.ChannelByteScale | caster.cpp:249-255 | a channel at or below 0 gives byte 0, at or above 1 gives 255, and in between the whole part of channel*255 |
| Casting.FramePixel | caster.cpp:243-262 | the frame has width*height*3 bytes, and channel c of pixel (x, y) sits at 3*(y*width + x) + c and is that channel of the pixel's clamped colour |
| Casting.AmbientSumScales | caster.cpp:233-236 | the ambient light is the ambient fraction times the sum of the light colours |
| Casting.Caster.constructor | caster.cpp:27-34 | a new caster has a buffer of the requested size, shadows on, the sand background, the default camera and no scene, with pixel steps set when the size is not 0x0 |
| Casting.Caster.AllocateImage | caster.cpp:36-42 | a fresh buffer of width*height*3 bytes, and the new size; nothing else changes |
| Casting.Caster.UpdateImageDimensions | caster.cpp:54-60 | the buffer is reallocated and the pixel steps recomputed only when the size differs; afterwards the size is the one asked for |
| Casting.Caster.ToggleShadowing | caster.cpp:62-64 | shadowing is negated, so two toggles restore it, and nothing else changes |
| Casting.Caster.HitsSomething | caster.cpp:119-128 | the result is true exactly when some shape reports a hit lying more than 0.001 ahead along the ray |
| Casting.Caster.GetFirstHit | caster.cpp:157-171 | the result says whether a hit was kept; the out-parameter is then the kept hit, and otherwise it is left untouched |
| Casting.Caster.GlossyColor | caster.cpp:200-211 | glossy_color is the background without a material, otherwise the light loop plus the ambient term (Glossy) |
| Casting.Caster.RayColor | caster.cpp:214-220 | ray_color is the shaded first hit, or the background when there is none |
| Casting.Caster.Render | caster.cpp:239-269 | render fills the buffer with the frame, row by row, and returns an image of those bytes, of that size, with depth 3 and the name "Ray cast image" |
| Casting.Caster.FillRow | caster.cpp:245-260 | one row of render appends that row's pixel bytes and keeps the earlier rows |
| Casting.Caster.PaintPixel | caster.cpp:249-259 | one pass of the inner loop appends the three bytes of pixel (x, y)'s ray colour after the pixels before it in the row |
| Casting.Caster.PutPixel | caster.cpp:257-259 | three channel bytes are stored in order at the running index |
| Casting.Caster.ReadScene | caster.cpp:223-237 | the caster takes the shapes, lights and camera read, and sets the ambient light to the sum of light colour times ambient fraction; on an error nothing changes |
| VertexBuffers.AttributeInVertex | vertex_buffer.cpp:231-234 | an attribute's values lie inside its vertex |
| VertexBuffers.SlotInBuffer | vertex_buffer.cpp:276-279 | attribute a of a vertex k below n lies within the first n vertices |
| VertexBuffers.SlotsDisjoint | vertex_buffer.cpp:276-279 | different (attribute, vertex) pairs own disjoint ranges of the array |
| VertexBuffers.ReadAfterWrite | vertex_buffer.cpp:150-162 | reading an attribute back after writing it gives the written components, with z = 0 and w = 1 beyond the dimension |
| VertexBuffers.WriteElsewhere | vertex_buffer.cpp:150-162 | a write leaves everything outside its range as it was |
| VertexBuffers.WriteOneSlot | vertex_buffer.cpp:273-289 | after the k-th add or an update of attribute a of vertex k, get(a, k) returns the values written, and every other attribute of every vertex reads as before |
| VertexBuffers.AsWrittenAgreesFromDimensionTwo | vertex_buffer.cpp:150-162 | from dimension 2 on, the source's write and read are the corrected ones |
| VertexBuffers.DimensionOneAddOverwritesNeighbour | vertex_buffer.cpp:154-155 | with two one-float attributes and errors not fatal, add(1, 5, 6) then add(0, 7, 8) overwrites attribute 1, which then reads 8 instead of 5, where the corrected write keeps 5; with no flag, a buffer built from [5, 7] gives get(0, 0).y == 7, where the corrected read gives 0 |
| VertexBuffers.WholeVertices | vertex_buffer.cpp:47-48 | the values fill whole vertices exactly when their count is a multiple of the total dimension |
| VertexBuffers.TotalDimension | vertex_buffer.cpp:69-77 | get_total_dimension is the sum of the dimensions, and each attribute's start is the sum of the dimensions before it |
| VertexBuffers.VertexBuffer.constructor | vertex_buffer.cpp:7-14 | the default buffer has no attributes, no vertices, the name "NO NAME" and static access |
| VertexBuffers.VertexBuffer.Sized | vertex_buffer.cpp:24-36 | a buffer for n vertices: storage of total*n + 4 floats, largest index total*n - 1, every cursor at its attribute's start |
| VertexBuffers.VertexBuffer.Initialize | vertex_buffer.cpp:79-86 | the largest index is total*n - 1 and a fresh array holds total*n + 4 floats |
| VertexBuffers.VertexBuffer.FromValues | vertex_buffer.cpp:38-67 | the buffer fails with SizeMismatch exactly when the values do not fill whole vertices; otherwise it holds the values verbatim and every cursor is at its attribute's start |
| VertexBuffers.VertexBuffer.CopyIn | vertex_buffer.cpp:59-61 | the values are copied to the start of the array |
| VertexBuffers.VertexBuffer.ResetCursors | vertex_buffer.cpp:62-66 | every cursor is set back to its attribute's offset in the vertex |
| VertexBuffers.VertexBuffer.GetNextIndex | vertex_buffer.cpp:114-124 | BufferOverflow when the attribute's cursor is past the largest index, otherwise the cursor, which then points into a vertex that exists |
| VertexBuffers.VertexBuffer.AddValues | vertex_buffer.cpp:150-162 | overflow changes nothing; otherwise the next vertex's slot of the attribute is written as far as the dimension goes, and only that attribute's cursor moves on by the total dimension |
| VertexBuffers.VertexBuffer.WriteCorrected | vertex_buffer.cpp:154-160 | the components up to the dimension are stored at the start index, and nothing else changes |
| VertexBuffers.VertexBuffer.Add2 | vertex_buffer.cpp:126-132 | a wrong dimension is DimensionMismatch when errors are fatal, and changes nothing; otherwise the values are written, with z = 0 and w = 1, at the attribute's next vertex and only that attribute's cursor moves on by the vertex size, or the add overflows and changes nothing |
| VertexBuffers.VertexBuffer.Add3 | vertex_buffer.cpp:134-140 | the same for three values, with w = 1 |
| VertexBuffers.VertexBuffer.Add4 | vertex_buffer.cpp:142-148 | the same for four values |
| VertexBuffers.VertexBuffer.StartIndex | vertex_buffer.cpp:276-278 | the index loop gives vertex k's first index plus the dimensions of the attributes before a |
| VertexBuffers.VertexBuffer.Get | vertex_buffer.cpp:273-289 | get reads attribute a of vertex k from its slot, with z = 0 and w = 1 beyond the dimension |
| VertexBuffers.VertexBuffer.UpdateValues | vertex_buffer.cpp:223-243 | a static buffer fails with StaticAccess and is unchanged; otherwise only the slot of that vertex's attribute, the one get reads, is overwritten |
| VertexBuffers.VertexBuffer.Update2 | vertex_buffer.cpp:291-296 | a wrong dimension is DimensionMismatch when errors are fatal; otherwise the update with z = 0 and w = 1 |
| VertexBuffers.VertexBuffer.Update3 | vertex_buffer.cpp:298-304 | the same for three values, with w = 1 |
| VertexBuffers.VertexBuffer.Update4 | vertex_buffer.cpp:306-312 | the same for four values |
| ElementBuffers.Stored | element_buffer.cpp:50-51 | each index is stored as its conversion to GLuint |
| ElementBuffers.StoredKeepsUnsigned | element_buffer.cpp:50-51 | indexes already in GLuint range are stored unchanged |
| ElementBuffers.ElementBuffer.constructor | element_buffer.cpp:6-13 | the default buffer has size 0, one word of storage, the name "NO NAME" and static access |
| ElementBuffers.ElementBuffer.Sized | element_buffer.cpp:15-28 | a buffer of n words, empty, with the cursor at 0 |
| ElementBuffers.ElementBuffer.FromValues | element_buffer.cpp:39-54 | the buffer holds every value, in order, and its cursor is at its size, so a later add overflows |
| ElementBuffers.ElementBuffer.Add | element_buffer.cpp:61-66 | a full buffer fails with BufferOverflow and is unchanged; otherwise the index is stored at the cursor and the cursor moves one on |
| ElementBuffers.ElementBuffer.Set | element_buffer.cpp:68-75 | a static buffer fails with StaticAccess, an index outside 0..size-1 fails with IndexOutOfRange; otherwise only that slot changes |
| ElementBuffers.ElementBuffer.Get | element_buffer.cpp:114-116 | get returns the word stored at the index |
| ElementBuffers.AddAll | element_buffer.hpp:17-26 | adding the indexes one by one to a buffer of their size gives the same contents as building the buffer from them |
| VertexArrays.KnownDrawModes | vertex_array.cpp:139-151 | exactly the codes 0 to 6 and 0xA to 0xD have names in the table, and those names start with "GL_" |
| VertexArrays.UnknownDrawModeName | vertex_array.cpp:152-156 | another code's name is its decimal text, which reads back as the code, followed by " (unknown)" |
| VertexArrays.KnownNamesDistinct | vertex_array.cpp:139-151 | the table gives different codes different names |
| VertexArrays.DrawModeNameInjective | vertex_array.cpp:138-160 | draw_mode_name never gives two codes the same name |
| VertexArrays.KnownAndUnknownDiffer | vertex_array.cpp:138-160 | a name from the table is never the name of an unknown code |
| VertexArrays.VertexArray.constructor | vertex_array.cpp:19-34 | the array keeps its vertex buffer, element buffer, draw mode and name |
| VertexArrays.VertexArray.Get | vertex_array.cpp:95-97 | get is the vertex buffer's get |
| VertexArrays.VertexArray.GetElement | vertex_array.cpp:111-113 | get_element is the element buffer's get |
| VertexArrays.VertexArray.NumVertices | vertex_array.cpp:103-105 | num_vertices is the vertex buffer's vertex count |
| VertexArrays.VertexArray.NumElements | vertex_array.cpp:107-109 | num_elements is the element buffer's size |
| Meshes.Mesh.constructor | mesh.cpp:5-12 | a mesh keeps its program and name; it has no part when the first part is null and exactly that part otherwise |
| Meshes.Mesh.Add | mesh.cpp:14-16 | add appends: the part count grows by one, the last part is the one added, and every earlier part keeps its index |
| Meshes.Mesh.NumParts | mesh.cpp:52-54 | num_parts is the number of parts added |
| Meshes.Mesh.GetPart | mesh.cpp:56-58 | get_part(i) is the i-th part added |
| Meshes.Mesh.Get | mesh.cpp:44-46 | get is that part's get |
| Textures.TexelAt | texture.cpp:51-68 | the texel buffer holds width*height*4 bytes; byte c of pixel (x, y) copies byte c of that source pixel, except that the fourth byte is 0xff without alpha; every byte read lies inside the pixels |
| Textures.ExpandTexels | texture.cpp:50-67 | a fresh buffer of width*height*4 bytes ends up holding exactly the texels |
| Textures.ExpandRows | texture.cpp:51-67 | the outer loop, row after row, leaves exactly the texels of every pixel in a buffer of width*height*4 bytes |
| Textures.ExpandRow | texture.cpp:54-66 | one row of the loop appends that row's texels, the source index moving 4 per pixel with alpha and 3 without |
| Textures.ExpandPixel | texture.cpp:55-65 | one pass of the inner loop appends that pixel's texel to those before it and moves both indices past it |
| Textures.PutTexel | texture.cpp:55-65 | one pass of the inner loop writes that pixel's texel |
| Textures.BytesPerPixel | texture.cpp:104-117 | 1, 3 and 4 bytes per pixel for the depth, RGB and RGBA formats, and none for any other format |
| Textures.ReadPixelsAsWrittenIsEmpty | texture.cpp:122-145 | as written, reading back a texture of any size gives an image with no pixels, labelled with the texture's channel count, which write_pnm cannot write unless width*height*depth is 0 |
| Textures.Texture.FromHandle | texture.cpp:4-19 | the texture keeps the handle, size, format, channel count and name given |
| Textures.Texture.FromImage | texture.cpp:21-79 | the texture takes the image's size and channels, the name followed by " texture", the RGBA format, and uploads exactly the texels |
| Textures.Texture.ReadPixels | texture.cpp:100-146 | an unsupported format fails with UnsupportedFormat when errors are fatal; otherwise the image has width*height*bpp bytes from the GPU and bpp channels, defaulting to 1, and can be written |
| CasterControl.StepIndex | caster_controller.cpp:41-44 | the new rung is index + step held to 0..6 |
| CasterControl.WidthsIncreasing | caster_controller.cpp:33 | a higher rung is a wider image |
| CasterControl.StepDirection | caster_controller.cpp:38-45 | stepping up never narrows the image and widens it below the top; stepping down never widens it and narrows it above the bottom |
| CasterControl.StepUndone | caster_controller.cpp:41-44 | away from the ends, a step up is undone by a step down and a step down by a step up |
| CasterControl.Controller.constructor | caster_controller.cpp:33-35 | before init, the rung is 3 and the width is 0 |
| CasterControl.Controller.UpdateResolution | caster_controller.cpp:38-48 | the rung is the clamped step, the width is that rung's width, and the caster is resized to a square of that width |
| CasterControl.Controller.Init | caster_controller.cpp:154-167 | init goes back to rung 3, a 200x200 caster, renders the frame and keeps its image |
| CasterControl.Controller.ResolutionKey | caster_controller.cpp:83-88 | the R key steps one rung up with Shift and one down without |

## Left out

- Floating-point geometry is not modelled. Instead:
  - shape intersection, `normalize`, `local_illumination` and `mirror_direction` are uninterpreted functions of a `Geometry` value;
  - `set_ray`, `camera_did_move` and the camera's `init_basis` are folded into one uninterpreted primary-ray function of the camera and pixel steps.
  - Vectors are exact reals, and float division by zero pixels is an opaque non-finite step.
- The sphere, triangle, cylinder and camera classes are not modelled beyond their fields.
  - The Light constructor's body is not part of this model: its default is taken to be zero vectors and an empty name.
- OpenGL and window calls are not modelled:
  - `install_data`, `define_attributes`, `draw`, `destroy`, `destroy_GPU_objects`;
  - `glGenBuffers` in the constructors and the `glBufferSubData` half of `update_values`;
  - `glTexImage2D`, `glGetTexImage` and texture units.
  - The texture handle and the bytes the GPU returns are parameters.
- File and stream I/O is not modelled:
  - `Tokenizer::open` and `file_position`, the scene file becoming a sequence of tokens;
  - the image file and window constructors;
  - the `ofstream` of `write_pnm`, whose bytes are returned instead.
- The controller's GLFW callbacks, the other keys, mouse handling, `event_loop` and the second render of `rerender` are not modelled.
- `operator<<` printers, logging and `Image::get_aspect_ratio` are not modelled.
- `GL_Error::die_or_continue`: its global `die_on_error` flag is the parameter `dieOnError`. A fatal error is returned as a failure.
- Exceptions are not modelled: every `throw` becomes an `Error` value returned from the operation that throws.
- Uninitialised fields of the source are given fixed values:
  - the default element buffer's cursor is 0;
  - the default vertex buffer's total dimension is 0 and its largest index is -1;
  - a new Hit's position and normal are zero and it has no material;
  - the default camera's ambient fraction is 0;
  - the caster's ambient light is zero until a scene is read.
- 32-bit `int` overflow in sizes and indexes is not modelled (for example `width*height*3`). Integers are unbounded.
- The getters `get_size`, `get_num_vertices`, `get_program`, `get_name`, `get_handle`, `get_draw_mode` and the image getters are the const fields and datatype fields they return.
- The default `Vertex_Array` constructor, which leaves both buffers null, is not modelled.
- Casting.Caster.ReadScene: on a malformed file the source prints the error and calls `exit(1)`; here the error is returned and the caster is unchanged.
- Images.WritePnm: requires `Writable`. For two channels, or none, or a pixel vector shorter than width*height*depth, the source reads past the pixel vector.
- Images.WritePnm: requires one, three or four channels. Beyond four the source still steps four bytes per pixel and writes bytes of the wrong pixels (SourceIndexBeyondFour); no image of the program has more than four channels.
- Textures.Texture.FromImage: requires `Expandable`. For images of one or two channels the source reads three bytes per pixel past the end of the pixel vector.
- Textures.Texture.ReadPixels: requires the GPU bytes to cover width*height*4.
- VertexBuffers.VertexBuffer.FromValues: requires a non-zero total dimension, where the source divides by zero.
- VertexBuffers.VertexBuffer.Get, VertexBuffers.VertexBuffer.UpdateValues and the update overloads: these require a vertex below the vertex count, which the source does not check.
- ElementBuffers.ElementBuffer.Get: requires an index inside the array, which the source does not check. The same holds for VertexArrays.VertexArray.GetElement.
- Meshes.Mesh.Get: requires an existing, non-null part.
- Sizes and counts are `nat` where the source takes `int`. This covers Casting.Caster.constructor, Casting.Caster.UpdateImageDimensions, ElementBuffers.ElementBuffer.Sized and VertexBuffers.VertexBuffer.Sized. A negative size, for which the source's `new[]` fails, is not modelled.
- Tokens.Tokenizer.NextNumber: the conversion is any partial function. In the source `ss >> number` always fails on the empty token, so `convert("") == None` there; the model does not require it, and its lemmas hold for every conversion.
- Meshes.Mesh.GetPart: requires an index below the number of parts, which the source does not check.
- SceneReaderProperties.BodyKeepsUnnamedFields and BlockKeepsUnnamedDefaults: the word must not occur anywhere in the body, not only in keyword position, so a body that uses "radius" only as a name is not covered.
- Textures texels are `vector<char>` in the source and bytes here. 0xff is the same bit pattern.

## Findings

| source | as written | input that shows it | evidently intended | confidence | as-written member | corrected member |
|---|---|---|---|---|---|---|
| scene_reader.cpp:23 | the keyword loops run `while ((token = next_string()) != "end")`; at the end of input `next_string` returns "" forever, so the loop never ends | the file "begin sphere" | input ending inside a block is reported as an error | not executed | SceneReaderProperties.UnclosedSphereExample | SceneReaderProperties.UnclosedBlockFails |
| texture.cpp:122-145 | `read_pixels` only reserves room in the vector, so it stays empty whatever the GPU writes; the image is labelled with the texture's channel count, not the bytes read per pixel | a 1x1 texture made from an RGB image (format RGBA, depth 3) | the image holds width*height*bpp bytes with bpp channels | not executed | Textures.ReadPixelsAsWrittenIsEmpty | Textures.Texture.ReadPixels |
| vertex_buffer.cpp:154-155 | `add_values` and `update_values` always store x and y, and `get` always reads them, whatever the dimension; a one-float attribute writes into the next attribute | dimensions [1, 1], one vertex: built from the values [5, 7], get(0, 0).y is 7; or, with `die_on_error` false, add(1, 5, 6) then add(0, 7, 8), after which get(1, 0).x is 8 | only `dimension` floats are written and read | not executed | VertexBuffers.DimensionOneAddOverwritesNeighbour | VertexBuffers.WriteOneSlot |
