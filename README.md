# ModelViewer OBJ loader, modelled in Dafny

This project models the Wavefront OBJ geometry loader of class `Model` in `model.cpp`.
`loadOBJ` reads a file line by line. It hands each line to at most one parser, picked by
the line's leading tag:
- `v ` lines go to `parseVertex`, which appends a position to `vertices`;
- `vt ` lines go to `parseTexCoord`, which appends a texture coordinate to `texCoords`;
- `vn ` lines go to `parseNormal`, which appends a normal to `normals`;
- `f ` lines go to `parseFace`.

`parseFace` splits the face into whitespace-separated references (`v`, `v/t`, `v//n` or
`v/t/n`). It keeps `v - 1` of each reference, computed on `unsigned int`. It then appends
the triangle, the two triangles of a quad, or the fan of a larger polygon to `indices`.

Modules:
- `StreamText`: what the C++ stream extractions used by the loader read. That is `>>`
  into a `std::string` (`Tokens`) and `>>` into an `unsigned int` under C++11 rules
  (`ExtractUInt`). It also has `unsigned int` decrement with wrap-around (`Decrement`).
- `Triangulation`: how a face's corners become index entries (`Triangulate`, `FanFrom`).
  Every case agrees with one closed form: entry k refers to corner `FanCorner(k)`.
- `ObjModel`: the specification and the class.
  - The specification is a set of functions on the value of the four pools (`Pools`):
    `Classify`, `Step` and `LoadLines`.
  - `class Model` has the four member vectors as `seq` fields. Its methods grow those
    fields in place and are proved against `Step` and `LoadLines`.
- `Wrappers`: `Option`. The file passed to `LoadOBJ` is `None` when it cannot be opened,
  or `Some(lines)` with the lines `std::getline` would deliver.

The payload of a `v`/`vt`/`vn` line is not converted to floats. Each record keeps the text
its numbers are read from: `Vec3From(line[2..])` for `v `, and `Vec2From(line[3..])` or
`Vec3From(line[3..])` for `vt ` and `vn `. What the model captures is how many records are
appended, to which pool, and in which order.

Where the documented design of the loader and the code disagree, the model follows the code:
- Reloading does not clear the pools. `loadOBJ` appends to what is already there
  (`LoadAppends`).
- A face with fewer than 3 references is not an error. It appends nothing.
- A reference's texture and normal fields are read into locals that are never used. They
  are not recorded as absent or present. They never reach `indices`.
- No face index is checked against the pool sizes. A reference whose number is 0, or that
  has no leading digits, wraps around to 4294967295 (`PositionRefWraps`).
- This revision of `model.cpp` synthesizes no normals. `vn` records are stored in
  `normals` as they are read.
- A file that cannot be opened returns false and changes nothing.

## Model

| member | source | states |
|---|---|---|
| `ObjModel.Classify` | model.cpp:22-35 | a line is a vertex line iff it starts with `v `, a texture line iff it starts with `vt `, a normal line iff it starts with `vn `, a face line iff it starts with `f `; otherwise it is ignored, and every line shorter than two characters is ignored |
| `ObjModel.StepChangesOnePool` | model.cpp:22-35 | one line adds exactly one record (the text after its tag) to its own pool, or a face's entries to `indices` only, or nothing; the other pools are unchanged and old contents stay a prefix |
| `ObjModel.VertexLineStep` | model.cpp:23-24 | a `v ` line appends one position read from the text after the two-character tag, and nothing else changes |
| `ObjModel.TexCoordLineStep` | model.cpp:26-27 | a `vt ` line appends one texture coordinate read from the text after the three-character tag |
| `ObjModel.NormalLineStep` | model.cpp:29-30 | a `vn ` line appends one normal read from the text after the three-character tag |
| `ObjModel.FaceLineStep` | model.cpp:32-33 | an `f ` line appends the face entries of the text after the tag to `indices` and changes no other pool |
| `ObjModel.Model.constructor` | model.cpp:6 | a new Model has four empty pools |
| `ObjModel.Model.ParseVertex` | model.cpp:94-99 | `vertices` gains exactly one record, read from `line.substr(2)`; the other three pools are unchanged |
| `ObjModel.Model.ParseTexCoord` | model.cpp:100-105 | `texCoords` gains exactly one record, read from `line.substr(3)`; the other three pools are unchanged |
| `ObjModel.Model.ParseNormal` | model.cpp:106-111 | `normals` gains exactly one record, read from `line.substr(3)`; the other three pools are unchanged |
| `ObjModel.Model.ParseFace` | model.cpp:112-157 | `indices` becomes its old contents followed by `FaceIndices(line.substr(2))`; the other pools are unchanged |
| `ObjModel.ReadPositionRefs` | model.cpp:113-128 | the reference loop yields one position index per whitespace-separated word, in order, each `vIndex - 1` of that word |
| `ObjModel.Model.AppendTriangles` | model.cpp:130-156 | `indices` becomes its old contents followed by the triangle, quad split or fan of the corners (`Triangulate`) |
| `ObjModel.Model.LoadOBJ` | model.cpp:14-42 | returns true iff the file opened; on failure no pool changes; on success the pools are `LoadLines` of their old value and the file's lines |
| `ObjModel.LoadAppends` | model.cpp:21-41 | loading never clears: the result is each old pool followed by what the same lines load into empty pools, so a reload appends |
| `ObjModel.LoadCounts` | model.cpp:22-35 | each attribute pool grows by the number of lines of its kind, `indices` by the face lines' entries, and every old pool stays a prefix |
| `ObjModel.LoadKeepsTriangles` | model.cpp:130-156 | if `indices` holds whole triangles before a load, it does so after |
| `ObjModel.IgnoredLinesChangeNothing` | model.cpp:22-35 | a file of lines with no recognised tag (comments, blank lines, other directives) leaves every pool as it was |
| `ObjModel.PositionRefs` | model.cpp:119-128 | one position index per reference, in the same order, each the reference's `vIndex - 1` |
| `ObjModel.FaceGrowth` | model.cpp:119-156 | a face with N references adds 3·(N−2) entries (none for N < 3), and entry k is the position index of reference `FanCorner(k)` |
| `ObjModel.TextureAndNormalIgnored` | model.cpp:124-127 | for `d/t`, `d/t/n` and `d//n` the position index depends on the digits `d` only; the texture and normal fields never reach `indices` |
| `ObjModel.PositionRefOfNumber` | model.cpp:124-125 | a reference whose leading number is n, 1 ≤ n ≤ 4294967295, gives position index n − 1, whatever follows the digits |
| `ObjModel.PositionRefWraps` | model.cpp:121-125 | a reference without leading digits, or with number 0, gives 4294967295 (unsigned wrap-around of 0 − 1) |
| `ObjModel.FaceOfWords` | model.cpp:113-128 | a face whose references are separated by single spaces yields the triangulation of those references' position indices |
| `ObjModel.FaceWithAllFields` | model.cpp:119-136 | the references `1/1/1 2/2/2 3/3/3` append exactly 0, 1, 2 |
| `StreamText.Tokens` | model.cpp:119 | every word `s >> vertexData` delivers is non-empty and contains no whitespace |
| `StreamText.WordLength` | model.cpp:119 | the word at the front of the text ends at the first whitespace character or at the end |
| `StreamText.SkipSpace` | model.cpp:119 | skipping leading whitespace leaves a suffix that starts with a non-space and has the same words |
| `StreamText.TokensOfJoinWords` | model.cpp:113-119 | extracting the words of space-separated words gives back exactly those words |
| `StreamText.LeadingDigits` | model.cpp:124 | the digits an unsigned extraction accumulates are the longest run of decimal digits at the front of the text |
| `StreamText.ExtractUIntOfDecimal` | model.cpp:124 | a number up to 4294967295 written in decimal and followed by a non-digit or nothing is read back exactly |
| `StreamText.ExtractUIntOnlyDigits` | model.cpp:124 | the value read depends only on the leading digits of the text |
| `StreamText.DecimalRoundTrip` | model.cpp:124 | the decimal value of the canonical decimal spelling of n is n |
| `StreamText.Decrement` | model.cpp:125 | `x - 1` on `unsigned int` is x − 1 for x > 0 and wraps 0 to 4294967295 |
| `Triangulation.Triangulate` | model.cpp:130-156 | a face with N corners yields 3·(N−2) entries, or none for N < 3, so the index stream grows by whole triangles |
| `Triangulation.TriangulateAt` | model.cpp:130-156 | for every N, entry k is corner `FanCorner(k)`: the triangle and quad cases agree with the N-gon fan from corner 0 |
| `Triangulation.FanFrom` | model.cpp:151-155 | the fan loop from triangle i appends 3·(N−1−i) entries |
| `Triangulation.FanFromAt` | model.cpp:151-155 | entry k of the fan loop started at triangle i refers to corner `FanCorner(3(i−1)+k)` |
| `Triangulation.FanTriangle` | model.cpp:149-156 | triangle t of a face with N ≥ 3 corners is (v0, v(t+1), v(t+2)), so every triangle starts with v0 |
| `Triangulation.TriangleKept` | model.cpp:131-136 | a triangle face contributes its three corners in source order, not permuted |
| `Triangulation.QuadIsFan` | model.cpp:138-148 | a quad contributes exactly v0, v1, v2, v0, v2, v3, which is its fan from corner 0 |
| `Triangulation.EntriesAreCorners` | model.cpp:130-156 | every entry a face contributes is one of its corners |

## Left out

- `Model::setupBuffers`, `Model::render` and `~Model` (model.cpp:8-12, 44-92): OpenGL buffer and draw calls. One consequence: the call to `setupBuffers` at the end of a successful `loadOBJ` is not modelled.
- main.cpp as a whole: window and context setup, texture upload, camera and input callbacks, and the timed model swap.
- Opening and reading the file: the file is given as `Option<seq<string>>`. How `std::getline` splits the bytes into lines is not modelled, and neither is the message written to `std::cerr` on failure.
- Float conversion of positions, texture coordinates and normals. A record keeps the text its numbers are read from. So a `v` line with fewer than three numbers, or with extra fields, is a record like any other. Its float contents are not modelled.
- `ObjModel.PositionRef`: a leading `+` or `-` sign on a reference is read as a failed extraction (value 0). C++ libraries accept the sign, and they disagree on what an unsigned read of a negative number stores. OBJ's negative relative indices are therefore not modelled.
- The texture and normal indices `tIndices` and `nIndices` of `parseFace`: filled, never read, and discarded at the end of the call. The model drops them.
- Per-vertex normal synthesis: `generateNormals` is only declared in model.h and has no definition in model.cpp.
- The field list in model.h (`GL_normals`, `normal_count`, `vertexIndices`) belongs to a different revision. The fields are taken from model.cpp: `vertices`, `texCoords`, `normals`, `indices`.
- Bounds checks of face indices against the pool sizes: the code performs none, so neither does the model.
- `size_t` and `std::vector` capacity limits: the pools are unbounded sequences.
