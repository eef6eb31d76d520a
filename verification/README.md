# meowgl scene bookkeeping, Wavefront reader and shader extraction in Dafny

This project models the integer-indexed core of meowgl, a small OpenGL scene
editor, and proves properties of it:

- **Scene tables** (`main.cpp`, `render.hpp`, `state.hpp`): the vertex arena
  with its three attribute streams, which grows by doubling; the model
  table; the entity table with its two role lists (model entities and light
  entities); `add_model` by data and by file name; `add_entity`,
  `add_model_entity` and `add_light_entity`; `index_of`;
  `duplicate_current_entity`; `remove_current_entity` with
  `array_swap_last`; and the pick selection. The pick selection is an argmin
  over a per-entity distance that the model takes as a parameter.
- **Wavefront reader** (`wavefront.cpp`): the `.obj` line loop with its
  capacity limits, face-index parsing (`/` to space, `atoi` minus one) and
  triangle-fan expansion. Also the `.mtl` material-library state machine.
  Each loader is a method over arrays, proved against a fold of a per-line
  step function over the lines of the resource.
- **Shader sections** (`render_utils.cpp`): `#shader <name>` header
  matching and the extraction of one section from the shader resource.
- **Helpers**: `grid` (`utils.hpp`); the `rect_t` geometry (`shape.cpp`,
  `shape.hpp`); `transform_t::identity` and the older entity/model registry
  of `render.cpp`.

Modules:

| module | file | contents |
|---|---|---|
| `Geometry` | geometry.dfy | vectors, symbolic model matrix, `transform_t` |
| `CStrings` | c_strings.dfy | C strings, `strncmp` prefix tests, `atoi`, `snprintf("%s")` |
| `StateUtil` | state_util.dfy | `array_swap_last` and the sequence views of a swap removal |
| `Roles` | roles.dfy | role lists, `index_of` as a function, removal and its well-formedness |
| `Scene` | scene.dfy | vertex/model/entity/role tables and the two state objects |
| `ObjFormat` | obj_format.dfy | `.obj` line semantics as functions, and their invariants |
| `ObjLoader` | obj_loader.dfy | `load_wavefront` as methods over arrays |
| `MaterialLibrary` | mtl.dfy | `load_material_lib`, as functions and as methods |
| `ShaderSource` | shader_source.dfy | `match_shader_line`, `find_shader_string` |
| `Utils` | utils.dfy | `grid` |
| `Shape` | shape.dfy | `rect_t` |
| `LegacyRender` | legacy_render.dfy | the `render.cpp` registry and material mix |

Floats are `real`. Vertex attributes, transforms and material values are
opaque values that are only copied, except that a `vt` line's `v` is stored
as `1 - v`. The C integer width is not modelled
(see Left out).

## Model

| member | source | states |
|---|---|---|
| Geometry.Transform.Update | src/render.cpp:20-30 | the cached matrix is made current for the transform's own position, rotation and scale, which stay as they were |
| Geometry.Identity | src/render.cpp:32-44 | position and rotation are zero, scale is one, and the cached matrix agrees with them |
| CStrings.CStr | src/wavefront.cpp:73 | the C string in a buffer is its longest NUL-free prefix; the character after it, if any, is NUL; a NUL-free sequence is its own C string |
| CStrings.StrNCmpZero | src/wavefront.cpp:29 | reference definition of `strncmp(a, b, n) == 0`; characterised as a prefix test in `StrNCmpPrefix` |
| CStrings.StartsWith | src/wavefront.cpp:27-30 | reference definition of `starts_with`; proved a prefix test on C strings in `StartsWithIsPrefix` |
| CStrings.StartsWithIsPrefix | src/wavefront.cpp:27-30 | `starts_with(line, str)` holds exactly when the C string of `str` is a prefix of the C string of `line` |
| CStrings.StrNCmpPrefix | src/wavefront.cpp:29 | `strncmp(a, b, n) == 0`, for `n` within `b`'s string, holds exactly when the first `n` characters of `b` are a prefix of `a`'s C string |
| CStrings.StartsWithCStr | src/wavefront.cpp:27-30 | the test reads the line only up to its terminator |
| CStrings.CStrTerminated | src/wavefront.cpp:325 | writing NUL at index `i` of the line buffer makes the C string the first `i` characters |
| CStrings.SkipSpaces | src/wavefront.cpp:88 | `atoi` first skips white space: a suffix of the input that does not start with a space |
| CStrings.SkipSpacesOver | src/wavefront.cpp:88 | skipping a run of white space followed by a non-space leaves exactly what follows the run |
| CStrings.LeadingDigits | src/wavefront.cpp:88 | the digits `atoi` converts: the longest prefix of decimal digits |
| CStrings.LeadingDigitsOf | src/wavefront.cpp:88 | a digit run followed by a non-digit or the end is exactly the digits read |
| CStrings.DigitsValue | src/wavefront.cpp:88 | a digit run denotes a non-negative value |
| CStrings.Decimal | src/wavefront.cpp:88 | the decimal rendering of a natural number is a non-empty digit run |
| CStrings.DecimalValue | src/wavefront.cpp:88 | reading back the decimal rendering of `n` gives `n` (round trip) |
| CStrings.AtoiDecimal | src/wavefront.cpp:88 | `atoi` of spaces, the decimal digits of `n` and a non-digit is `n` |
| CStrings.SnprintfS | src/wavefront.cpp:34-38 | `snprintf(out, size, "%s", s)` stores a prefix of `s`'s C string shorter than `size`, all of it when it fits |
| CStrings.Atoi | src/wavefront.cpp:88 | reference definition of `atoi` (white space, optional sign, digits); its round trip with `Decimal` is `AtoiDecimal` |
| StateUtil.SwapLast | src/state.hpp:5-8 | slot `index` receives the last element, every other slot keeps its value, the length is unchanged, and swapping the last slot changes nothing |
| StateUtil.RemoveAt | src/main.cpp:357-358 | a swap followed by dropping the last slot: one element fewer, slot `index` holds the old last element, the rest keep their values |
| StateUtil.RemoveAtMultiset | src/main.cpp:357-358 | the swap removal removes exactly one occurrence of the element at `index` and keeps all others (multiset) |
| StateUtil.ArraySwapLast | src/state.hpp:5-8 | `arr[index]` becomes the old `arr[count-1]`, every other slot of the array is unchanged, `count` is left to the caller, and `index == count-1` changes nothing |
| Roles.FirstIndex | src/main.cpp:307-314 | -1 exactly when the value is absent; otherwise an index holding the value with no earlier occurrence |
| Roles.FirstIndexUnique | src/main.cpp:307-314 | the first occurrence is unique: any index with the value and none before it is the result |
| Roles.RemoveFirst | src/main.cpp:355-366 | reference definition of one role list's removal of `e`: swap-remove its first occurrence, if any; properties in `RemoveAtKeepsDistinct` |
| Roles.RewriteFirst | src/main.cpp:377-387 | reference definition of the renaming: the first occurrence of the old last id, if any, becomes `e`; properties in `SetKeepsDistinct` |
| Roles.AfterRemoval | src/main.cpp:355-389 | reference definition of what `remove_current_entity` does to one role list; well-formedness kept in `RemovalKeepsWellFormed` |
| Roles.RemoveAtKeepsDistinct | src/main.cpp:355-366 | swap-removing from a list without duplicates keeps it duplicate-free and removes exactly the element at that slot |
| Roles.SetKeepsDistinct | src/main.cpp:380-387 | overwriting one slot with an absent id keeps the list duplicate-free; the old id leaves and the new id enters |
| Roles.RemovalKeepsWellFormed | src/main.cpp:355-389 | if a role list holds distinct ids below `entity_count`, after removing entity `e` (remove `e`, rename the old last id to `e`) it holds distinct ids below the new count, and holds each surviving entity exactly when it held that entity's old id |
| Roles.DuplicateIdsBreakRemoval | src/main.cpp:355-389 | without distinctness the removal can leave an id equal to the new count in a list (list `[1, 1]`, remove entity 0 of 2) |
| Roles.AppendFreshKeepsWellFormed | src/main.cpp:275-294 | appending the newly added entity id keeps a role list well-formed for the grown count |
| Scene.DoubledFromHalf | src/main.cpp:179-209 | a capacity reached by doubling from `2*cap` is reached by doubling from `cap` |
| Scene.GrownCapacity | src/main.cpp:179-209 | the capacity after the resize loop covers the need, is reached from the old capacity by repeated doubling, and is the smallest such: it is the old capacity, or half of it would not cover the need |
| Scene.IndexOf | src/main.cpp:307-314 | returns the first index of `value` among the first `count` entries, -1 exactly when it is absent |
| Scene.IntersectScene | src/main.cpp:121-136 | -1 exactly when no distance is below `FLT_MAX`; otherwise an entity whose distance is below `FLT_MAX`, minimal, and strictly smaller than every earlier one (the lowest index among the minima) |
| Scene.Doubled | src/main.cpp:180-199 | a fresh array twice as long that holds the old first `count` elements |
| Scene.GrowArena | src/main.cpp:179-209 | the three streams end with capacity `GrownCapacity(cap, need)` and keep their first `count` entries; either the old arrays are kept or all three are fresh |
| Scene.CopyInto | src/main.cpp:211-227 | after the copy the array starts with its old first `offset` slots followed by the first `n` input elements |
| Scene.VertexTable.constructor | src/render.hpp:29-33 | an empty vertex table with the given capacity |
| Scene.VertexTable.Append | src/main.cpp:178-229 | `vertex_count` grows by `n`; capacity grows to `GrownCapacity`; each stream keeps its old contents and then holds exactly the `n` input attributes |
| Scene.VertexTable.Reserve | src/main.cpp:179-209 | the resize loop: capacity becomes `GrownCapacity(cap, need)` and the contents of all three streams are unchanged |
| Scene.VertexTable.Fill | src/main.cpp:211-229 | the three `memcpy`s and the count update: each stream is its old contents plus the first `n` inputs |
| Scene.ModelTable.constructor | src/render.hpp:35-39 | an empty model table |
| Scene.ModelTable.Add | src/main.cpp:233-240 | id is the old `model_count`; the new record has the given offset and size, texture -1 and zero emission; earlier records are unchanged |
| Scene.EntityTable.constructor | src/render.hpp:41-43 | an empty entity table |
| Scene.EntityTable.Add | src/main.cpp:265-273 | id is the old `entity_count`; the new entity has model -1 and the identity transform; earlier entities are unchanged |
| Scene.EntityTable.CopyEntity | src/main.cpp:338-342 | slot `dst` receives `src`'s model and transform, no other slot changes |
| Scene.EntityTable.RemoveSlot | src/main.cpp:368-389 | the model and transform lists are the swap removal of slot `e`, the count drops by one |
| Scene.RoleTable.constructor | src/render.hpp:45-49 | an empty role list |
| Scene.RoleTable.Find | src/main.cpp:355-362 | the first index of the value in the role list, or -1 |
| Scene.RoleTable.Reserve | src/main.cpp:277-287 | the post-increment of the role count: returns the old count and keeps the existing entries |
| Scene.RoleTable.Remove | src/main.cpp:355-366 | removes the first occurrence of `e` by swap (count drops by one), or changes nothing when `e` is absent |
| Scene.RoleTable.Rewrite | src/main.cpp:373-387 | the first occurrence of the old last id, if any, becomes the new id; nothing else changes |
| Scene.RoleTable.RemoveEntity | src/main.cpp:355-387 | the list after removing entity `e` of `last + 1` entities (remove `e`, rename `last` to `e`) |
| Scene.ModelState.constructor | src/main.cpp:421 | empty vertex and model tables, no model file names |
| Scene.ModelState.AddModel | src/main.cpp:167-241 | vertex count grows by exactly `n` up to `GrownCapacity`; the streams keep their old contents and then hold the inputs; the new model id is the old `model_count` with offset the old vertex count, size `n`, texture -1, zero emission |
| Scene.ModelState.AddModelFile | src/main.cpp:243-263 | a file name already registered returns its first index and changes no table; otherwise the loaded mesh is added as in `AddModel` (vertex count up by `n`, capacity `GrownCapacity(cap, count + n)`, streams extended, a model record with texture -1 and zero emission at the old model count), the file name is recorded at the new id, and `model_file_count` grows by one |
| Scene.EntityState.constructor | src/render.hpp:41-57 | no entities and empty role lists; selection and highlight are entity 0, as the zero-initialised globals leave them |
| Scene.EntityState.InitEntities | src/main.cpp:450-455 | from empty tables, `init` leaves two entities: a model entity showing the given model (role list `[0]`) and a light entity showing the light model (role list `[1]`), both with the identity transform, so the zero selection names a live entity |
| Scene.EntityState.AddEntity | src/main.cpp:265-273 | id is the old `entity_count`, with model -1 and identity transform; role lists stay well-formed |
| Scene.EntityState.AddModelEntity | src/main.cpp:275-283 | as `add_entity`, and the new id is appended once to the model role list; role lists stay well-formed |
| Scene.EntityState.AddLightEntity | src/main.cpp:285-294 | as `add_entity` but with model `light_model`, and the new id is appended once to the light role list; role lists stay well-formed |
| Scene.EntityState.RemoveCurrentEntity | src/main.cpp:348-393 | without a selection nothing changes; otherwise the entity count drops by one, the old last entity's model and transform move into slot `e`, both role lists become `AfterRemoval` (first `e` removed, first old last id renamed to `e`), selection and highlight are cleared, and well-formed role lists stay well-formed |
| Scene.EntityState.RemoveEntity | src/main.cpp:352-389 | the removal of entity `e` from the entity table and both role lists, keeping the role lists well-formed |
| Scene.EntityState.RemoveFromRoles | src/main.cpp:355-387 | both role lists become their `AfterRemoval` for entity `e` with `last` the old last id |
| Scene.EntityState.AddRoleEntities | src/main.cpp:323-336 | in neither role list: nothing changes and the result is -1; in one: one entity is added to that list; in both: two entities are added (the first a model entity, the second a light entity) and the result is the last one |
| Scene.EntityState.DuplicateCurrentEntity | src/main.cpp:316-346 | nothing changes without a selection or when the entity is in no role list; otherwise the new entity (the last one added) copies the source's model and transform, earlier entities are unchanged, each role list gains the entity added for it, and selection and highlight move to the new entity |
| Scene.EntityState.DuplicateEntity | src/main.cpp:320-342 | the duplication of entity `e` without the selection update |
| Scene.EntityState.PickEntity | src/main.cpp:156-164 | selection and highlight are equal; both are -1 exactly when no entity's distance is below `FLT_MAX`; otherwise they are the lowest-index entity of minimal distance |
| ObjFormat.LineEnd | src/wavefront.cpp:312-323 | the line loop stops at the end of the data, at a newline, or at the limit, whichever comes first, and no newline precedes the stop |
| ObjFormat.LineEndUnique | src/wavefront.cpp:312-323 | any position satisfying those stopping conditions is the one the loop reaches |
| ObjFormat.TerminatorIndexAsWritten | src/wavefront.cpp:312-325 | the terminator index of the loop as written can reach 256 |
| ObjFormat.OverlongLineOverrunsAsWritten | src/wavefront.cpp:317-325 | a 300-character line puts the terminator at index 256, one past the line buffer |
| ObjFormat.LineLength | src/wavefront.cpp:312-325 | the corrected loop copies fewer than 256 characters, so the terminator fits the buffer |
| ObjFormat.ExactLineCut | src/wavefront.cpp:312-325 | a line of exactly 256 characters and a newline already puts the terminator at index 256 as written; corrected, its first 255 characters are the line and the cursor stops at the newline, which then reads as an empty line |
| ObjFormat.LineAt | src/wavefront.cpp:312-325 | the line seen by the parsers is NUL-free and shorter than the buffer |
| ObjFormat.NextCursor | src/wavefront.cpp:324 | the cursor strictly advances and stays within the data, so the loop terminates |
| ObjFormat.Lines | src/wavefront.cpp:309-325 | reference definition of the lines the loop reads, cursor by cursor; unfolded by `ObjLoader.NextLine` |
| ObjFormat.Name | src/wavefront.cpp:34-50 | a name copied after a tag is a prefix of the rest of the line, NUL-free and shorter than 64 |
| ObjFormat.StreamAcceptsInBounds | src/wavefront.cpp:340-377 | with the corrected guard every float written lands inside the attribute buffer |
| ObjFormat.StreamGuardOverrunsAsWritten | src/wavefront.cpp:341-369 | the guards as written accept a value whenever at least 100000 values (a full buffer) and fewer than `100000 * width` are stored; its first float goes to index `count * width`, at or past the buffer's `100000 * width` floats (exactly at its end for `count == 100000`); the corrected guard refuses every such value |
| ObjFormat.ScanError | src/wavefront.cpp:52-68 | a parser reports 1 exactly when `sscanf` did not convert the expected number of values, else 0 |
| ObjFormat.StreamAccepts | src/wavefront.cpp:340-377 | the corrected capacity guard of the `v`, `vn` and `vt` branches; in bounds by `StreamAcceptsInBounds` |
| ObjFormat.StreamAcceptsAsWritten | src/wavefront.cpp:341-369 | the guard as written; overruns by `StreamGuardOverrunsAsWritten` |
| ObjFormat.ObjectLine | src/wavefront.cpp:328-337 | reference definition of an `o` line; invariant in `NameLinesKeepInv`, implemented by `ObjLoader.ObjectCommand` |
| ObjFormat.PositionLine | src/wavefront.cpp:340-351 | reference definition of a `v` line; invariant in `AttributeLinesKeepInv`, implemented by `ObjLoader.PositionCommand` |
| ObjFormat.NormalLine | src/wavefront.cpp:354-365 | reference definition of a `vn` line; invariant in `AttributeLinesKeepInv`, implemented by `ObjLoader.NormalCommand` |
| ObjFormat.UvLine | src/wavefront.cpp:368-378 | reference definition of a `vt` line, storing `1 - v`; invariant in `AttributeLinesKeepInv`, implemented by `ObjLoader.UvCommand` |
| ObjFormat.MaterialLibLine | src/wavefront.cpp:395-399 | reference definition of an `mtllib` line; invariant in `NameLinesKeepInv`, implemented by `ObjLoader.MaterialLibCommand` |
| ObjFormat.UseMaterialLine | src/wavefront.cpp:401-413 | reference definition of a `usemtl` line; invariant in `UseMaterialKeepsInv`, implemented by `ObjLoader.UseMaterialCommand` |
| ObjFormat.Unslash | src/wavefront.cpp:76-78 | same length; every `/` becomes a space and every other character is kept |
| ObjFormat.FaceIndices | src/wavefront.cpp:80-90 | one index per space |
| ObjFormat.FaceIndicesSpace | src/wavefront.cpp:80-90 | at a space the next index is `atoi` of the text from that space minus one |
| ObjFormat.FaceIndicesSkip | src/wavefront.cpp:81 | non-space characters contribute no index |
| ObjFormat.FaceIndicesCons | src/wavefront.cpp:80-90 | a space, the digits of `n`, then a space or the end, contribute exactly `n - 1` |
| ObjFormat.FaceIndicesRoundTrip | src/wavefront.cpp:80-90 | parsing space-separated decimal indices gives each index minus one (round trip) |
| ObjFormat.SpacedCons | src/wavefront.cpp:80-90 | a spaced index list is a space, the first index's digits, and the spaced rest, which starts with a space or is empty |
| ObjFormat.Lowered | src/wavefront.cpp:88 | the 1-based indices converted to 0-based, element by element |
| ObjFormat.ParseFace | src/wavefront.cpp:70-95 | no count (nothing stored for the face) exactly when more than 96 indices; otherwise the indices are those of the unslashed line; the error is 0 exactly when the count is known and a multiple of 3 |
| ObjFormat.Fan | src/wavefront.cpp:202-213 | `3n` corner numbers, each at most `n + 1` |
| ObjFormat.FanAt | src/wavefront.cpp:205-212 | triangle `j` of the fan is corners `0, j+1, j+2` |
| ObjFormat.FanStep | src/wavefront.cpp:205-212 | one more loop iteration appends triangle `(0, n+1, n+2)` |
| ObjFormat.FanCorners | src/wavefront.cpp:202-213 | fewer than 3 corners emit nothing; `k` corners emit `3(k-2)` corner numbers, all below `k` |
| ObjFormat.Fetch | src/wavefront.cpp:179-188 | a stored attribute is fetched exactly when the index names a stored value |
| ObjFormat.Picked | src/wavefront.cpp:175-188 | the attribute a corner receives comes from its index triple: slot 0 position, slot 1 uv, slot 2 normal |
| ObjFormat.AddVertex | src/wavefront.cpp:159-191 | reference definition of `append_vertex`; implemented by `ObjLoader.Mesh.AppendVertex`, contents in `AppendCornersContents` |
| ObjFormat.AppendCorners | src/wavefront.cpp:205-213 | reference definition of a run of `append_vertex` calls; counted in `AppendCornersCount`, contents in `AppendCornersContents` |
| ObjFormat.AppendFace | src/wavefront.cpp:193-214 | reference definition of `append_face`; the fan shape in `AppendFaceCorners` and `FaceIsFan`, implemented by `ObjLoader.Mesh.AppendFace` |
| ObjFormat.FaceLine | src/wavefront.cpp:381-393 | reference definition of an `f` line; invariant in `FaceLineKeepsInv`, implemented by `ObjLoader.FaceCommand` |
| ObjFormat.KindOf | src/wavefront.cpp:327-413 | which branch of the loop a line takes, by its tag; the tags exclude each other by `TagsExclusive` |
| ObjFormat.Step | src/wavefront.cpp:327-413 | reference definition of one iteration of the `.obj` line loop; invariant in `StepKeepsInv`, implemented by `ObjLoader.ProcessLine` |
| ObjFormat.Run | src/wavefront.cpp:309-414 | reference definition of the line loop as a fold of `Step`; invariant in `RunKeepsInv` |
| ObjFormat.LoadObj | src/wavefront.cpp:278-428 | reference definition of `load_wavefront`; bounds in `LoadObjBounded`, implemented by `ObjLoader.LoadWavefront` |
| ObjFormat.AppendCornersCount | src/wavefront.cpp:168-190 | the streams grow together by the number of corners, capped at 100000; the mesh is extended and names and groups are unchanged |
| ObjFormat.AppendCornersContents | src/wavefront.cpp:175-190 | below the cap, each stream is its old contents plus the corners' attributes, in order |
| ObjFormat.AppendFaceCorners | src/wavefront.cpp:193-214 | `append_face` with `k` corners appends the fan `Fan(k-2)` |
| ObjFormat.FaceIsFan | src/wavefront.cpp:193-214 | below the cap, `append_face` adds exactly the fan triangles' attributes to each stream |
| ObjFormat.FanTriangles | src/wavefront.cpp:205-212 | triangle `j` of the face takes the attributes of index triples `0`, `j+1` and `j+2` |
| ObjFormat.FanTriangle | src/wavefront.cpp:205-212 | the same, for one triangle |
| ObjFormat.TagsExclusive | src/wavefront.cpp:328-413 | no line starts with two of the `.obj` tags, so at most one branch of the loop acts on a line |
| ObjFormat.AppendFaceKeepsInv | src/wavefront.cpp:193-214 | appending a face keeps the capacity invariant and only extends the mesh |
| ObjFormat.StepKeepsInv | src/wavefront.cpp:327-413 | one line keeps every capacity bound (vertices, objects, groups, attribute streams), only extends the mesh, and never lowers `errors` |
| ObjFormat.NameLinesKeepInv | src/wavefront.cpp:327-413 | `o`, `mtllib` and `usemtl` lines keep the invariant, extend the mesh and add no error |
| ObjFormat.UseMaterialKeepsInv | src/wavefront.cpp:401-413 | a `usemtl` line keeps the invariant: group offsets stay non-decreasing and within the vertex count |
| ObjFormat.AttributeLinesKeepInv | src/wavefront.cpp:340-378 | `v`, `vn`, `vt` lines keep the invariant, leave the mesh unchanged and never lower `errors` |
| ObjFormat.FaceLineKeepsInv | src/wavefront.cpp:381-393 | an `f` line keeps the invariant, extends the mesh and never lowers `errors` |
| ObjFormat.RunKeepsInv | src/wavefront.cpp:309-414 | the whole line loop keeps the invariant, only extends the mesh, and never lowers `errors` |
| ObjFormat.LoadObjBounded | src/wavefront.cpp:278-428 | a loaded mesh has equally long streams of at most 100000 vertices, at most 1000 objects and 64 material groups, group offsets non-decreasing within the vertex count, and a non-negative error count |
| ObjLoader.Mesh.constructor | src/wavefront.cpp:286-299 | an empty output mesh with the fixed-size buffers |
| ObjLoader.Mesh.AddObject | src/wavefront.cpp:333-336 | the object name list gains the name, nothing else changes |
| ObjLoader.Mesh.AddGroup | src/wavefront.cpp:406-412 | the group lists gain the name and the current vertex count, nothing else changes |
| ObjLoader.Mesh.SetMaterialLib | src/wavefront.cpp:396-398 | the material library name is replaced, nothing else changes |
| ObjLoader.Mesh.PushVertex | src/wavefront.cpp:173-190 | the three streams each gain one attribute, nothing else changes |
| ObjLoader.Mesh.AppendVertex | src/wavefront.cpp:159-191 | the mesh after `append_vertex` is `AddVertex` of the old mesh (dropped at the cap) |
| ObjLoader.Mesh.AppendTriangle | src/wavefront.cpp:206-212 | one fan iteration appends corners `0`, `i+1`, `i+2` |
| ObjLoader.Mesh.AppendPair | src/wavefront.cpp:211-212 | the last two vertices of one fan iteration |
| ObjLoader.Mesh.AppendFace | src/wavefront.cpp:193-214 | the mesh after `append_face` is `AppendFace` of the old mesh |
| ObjLoader.AppendCornersSnoc | src/wavefront.cpp:205-213 | appending one more corner is one more `append_vertex` |
| ObjLoader.FanAppend | src/wavefront.cpp:205-213 | one more loop iteration of the fan is three more `append_vertex` calls |
| ObjLoader.AttributeStore.constructor | src/wavefront.cpp:301-307 | empty local attribute storage |
| ObjLoader.AttributeStore.AddPosition | src/wavefront.cpp:347-350 | the positions gain the value, nothing else changes |
| ObjLoader.AttributeStore.AddNormal | src/wavefront.cpp:361-364 | the normals gain the value, nothing else changes |
| ObjLoader.AttributeStore.AddUv | src/wavefront.cpp:375-377 | the uvs gain the value, nothing else changes |
| ObjLoader.ReadLine | src/wavefront.cpp:310-325 | copies `LineLength` characters from the cursor into the buffer, terminates them with NUL, and the buffer's C string is `LineAt` |
| ObjLoader.BufferHoldsLine | src/wavefront.cpp:322-325 | a buffer holding the copied characters and a terminator holds the line |
| ObjLoader.LineAtIs | src/wavefront.cpp:312-325 | the line is the C string of the copied characters |
| ObjLoader.SlashesToSpaces | src/wavefront.cpp:76-78 | the first `len` characters become `Unslash` of themselves in place; the rest are untouched |
| ObjLoader.ReadIndices | src/wavefront.cpp:80-92 | more than 96 indices: no count; otherwise the count and the stored indices are `FaceIndices` of the line |
| ObjLoader.ReadStep | src/wavefront.cpp:80-90 | one iteration of the index loop: a space appends `atoi` minus one, other characters append nothing |
| ObjLoader.FaceIndicesAt | src/wavefront.cpp:80-90 | the indices from position `i` on, by the character at `i` |
| ObjLoader.ParseFaceLine | src/wavefront.cpp:70-95 | the buffer is rewritten `/` to space up to the terminator; error, count and stored indices are those of `ParseFace` |
| ObjLoader.ProcessLine | src/wavefront.cpp:327-413 | the mesh, attributes and error count after one line are `Step` of the old ones |
| ObjLoader.AttributeCommand | src/wavefront.cpp:339-378 | a `v`, `vn` or `vt` line changes the attributes and errors as `Step` says |
| ObjLoader.MeshCommand | src/wavefront.cpp:327-413 | any other line changes the mesh and errors as `Step` says |
| ObjLoader.ObjectCommand | src/wavefront.cpp:328-337 | an `o` line as `ObjectLine`: the name is recorded below 1000 objects |
| ObjLoader.PositionCommand | src/wavefront.cpp:340-351 | a `v` line as `PositionLine` |
| ObjLoader.NormalCommand | src/wavefront.cpp:354-365 | a `vn` line as `NormalLine` |
| ObjLoader.UvCommand | src/wavefront.cpp:368-378 | a `vt` line as `UvLine`, `v` flipped to `1 - v` |
| ObjLoader.FaceCommand | src/wavefront.cpp:381-393 | an `f` line as `FaceLine`: parse, count the error, append the fan |
| ObjLoader.MaterialLibCommand | src/wavefront.cpp:395-399 | an `mtllib` line as `MaterialLibLine` |
| ObjLoader.UseMaterialCommand | src/wavefront.cpp:401-413 | a `usemtl` line as `UseMaterialLine`: a group opens at the current vertex count below 64 groups |
| ObjLoader.LoadLine | src/wavefront.cpp:309-413 | one loop iteration advances the cursor and keeps the fold over the remaining lines equal |
| ObjLoader.NextLine | src/wavefront.cpp:309-325 | folding from the cursor is one step on the current line, then folding from the next cursor |
| ObjLoader.RunLines | src/wavefront.cpp:309-325 | the same, with the line read from the data |
| ObjLoader.LoadWavefront | src/wavefront.cpp:278-428 | the mesh and error count `load_wavefront` produces are those of `LoadObj`, the fold of `Step` over the lines |
| MaterialLibrary.Merge3 | src/wavefront.cpp:109-131 | a full scan stores the three values; a scan that converts nothing leaves the old ones |
| MaterialLibrary.ApplyPropertyFrame | src/wavefront.cpp:480-508 | a property line changes only the field its tag names (`map_Kd` stores the name after the tag); a line with no tag changes nothing |
| MaterialLibrary.Merge1 | src/wavefront.cpp:103-143 | reference definition of a one-float `sscanf` target: stored when converted, kept otherwise |
| MaterialLibrary.MergeInt | src/wavefront.cpp:145-149 | reference definition of the `illum` `sscanf` target: stored when converted, kept otherwise |
| MaterialLibrary.PropertyOf | src/wavefront.cpp:480-508 | which property a line sets, by its tag; decided by `PropertyTagDecides`, apart from `newmtl` by `NewMaterialTagApart` |
| MaterialLibrary.ApplyProperty | src/wavefront.cpp:480-508 | reference definition of the property branches on the current material; frame in `ApplyPropertyFrame` |
| MaterialLibrary.MtlStart | src/wavefront.cpp:437-442 | reference definition of the loader's start state; matched by `MaterialLib.constructor` |
| MaterialLibrary.NewMaterialLine | src/wavefront.cpp:463-472 | reference definition of a `newmtl` line; properties in `NewMaterialStartsZeroed` |
| MaterialLibrary.PropertyLine | src/wavefront.cpp:474-508 | reference definition of a non-`newmtl` line; properties in `PropertyUpdatesCurrent` and `IgnoredBeforeFirstMaterial` |
| MaterialLibrary.MtlStep | src/wavefront.cpp:462-508 | reference definition of one iteration of the `.mtl` line loop; invariant in `MtlStepKeepsInv`, implemented by `MtlLine` |
| MaterialLibrary.MtlRun | src/wavefront.cpp:444-509 | reference definition of the line loop as a fold of `MtlStep`; invariant in `MtlRunKeepsInv` |
| MaterialLibrary.LoadMtl | src/wavefront.cpp:430-523 | reference definition of `load_material_lib`; bounds in `LoadMtlBounded`, implemented by `LoadMaterialLib` |
| MaterialLibrary.PropertyError | src/wavefront.cpp:103-155 | each property line adds 0 or 1 error |
| MaterialLibrary.PropertyTagDecides | src/wavefront.cpp:480-508 | a line starting with a property tag is handled as that property |
| MaterialLibrary.NewMaterialTagApart | src/wavefront.cpp:463-508 | a `newmtl` line is no property line |
| MaterialLibrary.MtlStepKeepsInv | src/wavefront.cpp:444-509 | one line keeps 32 slots, at most 32 names and zero slots past the named ones; it never removes a name, adds at most one; changes only the current slot; adds at most one error |
| MaterialLibrary.NewMaterialStartsZeroed | src/wavefront.cpp:437-472 | below 32 materials a `newmtl` line adds the name, the new current material is still zero, and no error is added |
| MaterialLibrary.NoPropertyLine | src/wavefront.cpp:480-508 | a line with no property tag leaves the state unchanged |
| MaterialLibrary.NoPropertyNoChange | src/wavefront.cpp:480-508 | a line with no property tag leaves the material unchanged |
| MaterialLibrary.NoPropertyNoError | src/wavefront.cpp:480-508 | a line with no property tag adds no error |
| MaterialLibrary.PropertyUpdatesCurrent | src/wavefront.cpp:474-508 | once a material is named, a non-`newmtl` line updates the most recent material only and adds its parser's error |
| MaterialLibrary.MtlRunKeepsInv | src/wavefront.cpp:444-509 | the whole loop keeps the invariant, never removes a name, and adds at most one error per line |
| MaterialLibrary.LoadMtlBounded | src/wavefront.cpp:430-523 | at most 32 materials, 32 slots with the unnamed ones zero, and a non-negative error count |
| MaterialLibrary.IgnoredBeforeFirstMaterial | src/wavefront.cpp:474-475 | before the first `newmtl`, no line changes anything |
| MaterialLibrary.MaterialLib.constructor | src/wavefront.cpp:437-442 | no names and 32 zeroed material slots |
| MaterialLibrary.MaterialLib.AddMaterial | src/wavefront.cpp:468-471 | the name list gains the name, the materials are unchanged |
| MaterialLibrary.MaterialLib.UpdateCurrent | src/wavefront.cpp:477-508 | the library and errors after the property tests are `PropertyLine` of the old ones |
| MaterialLibrary.MtlLine | src/wavefront.cpp:462-508 | one line of the loop changes library and errors as `MtlStep` |
| MaterialLibrary.MtlLoadLine | src/wavefront.cpp:444-509 | one iteration advances the cursor and keeps the fold over the remaining lines equal |
| MaterialLibrary.MtlNextLine | src/wavefront.cpp:444-460 | folding from the cursor is one `MtlStep` on the current line, then folding from the next cursor |
| MaterialLibrary.LoadMaterialLib | src/wavefront.cpp:430-523 | the library and error count are those of `LoadMtl`, the fold of `MtlStep` over the lines |
| ShaderSource.Header | src/render_utils.cpp:19-20 | the header is a NUL-free prefix of `#shader <name>` (cut to 127 characters) that starts with `#shader ` |
| ShaderSource.MatchShaderLine | src/render_utils.cpp:17-23 | reference definition of `match_shader_line`; a prefix test by `MatchShaderLineIsPrefix` |
| ShaderSource.MatchAnyShaderLine | src/render_utils.cpp:25-29 | reference definition of the any-section test; a prefix test by `MatchAnyShaderLineIsPrefix` |
| ShaderSource.Split | src/render_utils.cpp:38-51 | reference definition of the byte-by-byte splitting loop (text after the last newline is never pushed): the completed lines and the pending text; inverse of `Join` by `SplitJoin` and `JoinSplit` |
| ShaderSource.Join | src/render_utils.cpp:76-80 | reference definition of writing each line followed by a newline; inverse of `Split` by `SplitJoin` and `JoinSplit` |
| ShaderSource.ShaderString | src/render_utils.cpp:32-86 | reference definition of `find_shader_string`; properties in `NoHeaderNoShader`, `FirstHeaderWins` and `ShaderStringHasNoHeader`, implemented by `FindShaderString` |
| ShaderSource.MatchShaderLineIsPrefix | src/render_utils.cpp:17-23 | a line matches `name` exactly when the header is a prefix of the line's C string |
| ShaderSource.MatchAnyShaderLineIsPrefix | src/render_utils.cpp:25-29 | a line matches any section exactly when it starts with `#shader` |
| ShaderSource.HeaderIsShaderLine | src/render_utils.cpp:17-29 | a line that matches one section name is a section line |
| ShaderSource.LongerNameMatches | src/render_utils.cpp:17-23 | a header whose name extends `name` also matches `name` (prefix match) |
| ShaderSource.SplitNoNewline | src/render_utils.cpp:41-51 | no line and no pending text contains a newline |
| ShaderSource.SplitJoin | src/render_utils.cpp:41-51 | the lines, each with its newline, followed by the pending text, are the input: only the text after the last newline is dropped |
| ShaderSource.SplitPlain | src/render_utils.cpp:47-49 | newline-free text only extends the pending line |
| ShaderSource.SplitNewline | src/render_utils.cpp:44-46 | a newline closes the pending line |
| ShaderSource.JoinSplit | src/render_utils.cpp:41-80 | splitting joined newline-free lines and a pending text gives them back (round trip) |
| ShaderSource.JoinSplitLines | src/render_utils.cpp:41-80 | splitting joined newline-free lines gives the lines and no pending text |
| ShaderSource.FirstWhere | src/render_utils.cpp:54-60 | -1 exactly when no line satisfies the test; otherwise a satisfying line with none before it |
| ShaderSource.FirstWhereIs | src/render_utils.cpp:54-60 | a satisfying line with none before it is the one found |
| ShaderSource.Until | src/render_utils.cpp:69-74 | a prefix of the lines, none of which stops, followed by a stopping line or the end |
| ShaderSource.UntilIsPrefix | src/render_utils.cpp:69-74 | the body is exactly the lines before the first stopping line |
| ShaderSource.UntilNoNewline | src/render_utils.cpp:69-74 | a body taken from newline-free lines is newline-free |
| ShaderSource.SplitLines | src/render_utils.cpp:38-51 | the vector built by the loop is `Split(data).lines` |
| ShaderSource.FindHeader | src/render_utils.cpp:53-60 | the index found is the first matching header, or -1 |
| ShaderSource.CollectUntil | src/render_utils.cpp:68-74 | the collected lines are those after the header up to the next section line |
| ShaderSource.JoinLines | src/render_utils.cpp:76-80 | the stream holds each line followed by one newline |
| ShaderSource.FindShaderString | src/render_utils.cpp:32-86 | the result is `ShaderString(data, name)` |
| ShaderSource.NoHeaderNoShader | src/render_utils.cpp:62-66 | with no matching header the result is empty |
| ShaderSource.FirstHeaderWins | src/render_utils.cpp:53-80 | with header `i` the first match, the result is the joined lines after it up to the next `#shader` line |
| ShaderSource.ShaderStringHasNoHeader | src/render_utils.cpp:69-80 | the result is empty or ends with a newline (no pending text) and none of its lines is a `#shader` line |
| Utils.Grid | src/utils.hpp:5-12 | -1 exactly when a coordinate is negative or not below its bound; otherwise an index in `[0, w*h)` from which `%` and `/` by `w` recover `x` and `y` |
| Utils.GridInRange | src/utils.hpp:11 | `y*w + x` lies in `[0, w*h)` and decodes to `(x, y)` |
| Utils.DivModUnique | src/utils.hpp:11 | quotient and remainder by `w` are unique |
| Utils.GridInjective | src/utils.hpp:5-12 | two cells with the same in-range index are the same cell |
| Utils.GridOnto | src/utils.hpp:5-12 | every index in `[0, w*h)` is the index of cell `(i % w, i / w)` |
| Shape.Flatten3 | src/shape.cpp:5-30 | three floats per point: `x`, `y`, then `0` |
| Shape.Flatten2 | src/shape.cpp:32-51 | two floats per point: `x`, `y` |
| Shape.ClampToZero | src/shape.cpp:60-61 | the result is non-negative, at least the input, and the input itself when that is non-negative |
| Shape.Rect.constructor | src/shape.hpp:5-9 | the four fields as given |
| Shape.Rect.Corners | src/shape.cpp:5-30 | six points; the two triangles share the corners `(x+w, y)` and `(x, y+h)`; `x`/`x+w` and `y`/`y+h` as in the source |
| Shape.Rect.CenterX | src/shape.cpp:64-67 | equidistant from the left and right edges; inside them when `w >= 0` |
| Shape.Rect.CenterY | src/shape.cpp:69-72 | equidistant from the top and bottom edges; inside them when `h >= 0` |
| Shape.Rect.Contains | src/shape.cpp:74-77 | inclusive on all four edges: within half the width and height of the centre; only a non-negative rect contains points |
| Shape.Rect.Vertices | src/shape.cpp:5-30 | the first 18 floats are the six corners with `z = 0`; the rest of the buffer is untouched |
| Shape.Rect.Vertices2D | src/shape.cpp:32-51 | the first 12 floats are the six corners; the rest of the buffer is untouched |
| Shape.Rect.Margin | src/shape.cpp:53-62 | `x` and `y` shift by `amount` even when the size clamps; `w` and `h` shrink by `2*amount` clamped to 0; the centre stays put when no clamping happens |
| Shape.Rect.Centerize | src/shape.hpp:24-29 | returns the same rect; `x` and `y` move back by half the size, which is unchanged, so the new centre is the old corner |
| Shape.FlattenSix | src/shape.cpp:5-51 | the two buffers written for six points, float by float |
| Shape.CornersContained | src/shape.cpp:5-77 | every emitted vertex of a non-negative rect is contained in it |
| Shape.CornersAreTheFourCorners | src/shape.cpp:5-30 | the six vertices are exactly the rect's four corners |
| Shape.VerticesAgree | src/shape.cpp:5-51 | both buffers hold the same points; the 3D one adds `z = 0` |
| LegacyRender.FileNames | src/render.cpp:210-214 | the file names of the loaded models, in order |
| LegacyRender.MaterialMix | src/render.cpp:139-149 | 1.0 exactly when the texture is -1, 0.0 exactly otherwise |
| LegacyRender.PlacedAt | src/render.cpp:184-194 | position `(x, y, z)`, zero rotation, unit scale, matrix current |
| LegacyRender.Registry.constructor | src/render.cpp:225-231 | both counts zero |
| LegacyRender.Registry.AddEntity | src/render.cpp:196-206 | id is the old `entity_count`, the count grows by one, the new entity has the model and the identity transform; models are unchanged |
| LegacyRender.Registry.AddEntityAt | src/render.cpp:184-194 | as `AddEntity`, with the transform moved to `(x, y, z)` |
| LegacyRender.Registry.AddModel | src/render.cpp:208-223 | a registered file name returns its first index and changes nothing; otherwise the new id is the old `model_count` with that file name, texture -1 (so material mix 1.0), and the count grows by one |

## Left out

- `sscanf` is not modelled: the float and `%d` conversions of `v`, `vn`, `vt` and the `.mtl` property lines are parameters (`Scanners`, `MtlScanners`) giving the conversion count and the values. A partial scan stores the converted values and keeps the rest of the target (`Merge3`); the `.obj` loader stores the whole scanned value.
- Floats are `real`: rounding, `FLT_MAX` as a float, and the trigonometry of `transform_t::update` are not modelled. The model matrix is a symbolic record of what is composed.
- Ray/triangle intersection and unprojection in `pick_entity` are a distance function passed in.
- `compute_bounds`, `print_header`, `print_mtl_header` and the logging macros are output only, and not part of this model.
- GL calls, file and resource I/O (`find_res`, `load_texture`), JSON map reading and writing, ImGui and the platform layers are not part of this model. The resource bytes are the input sequence.
- `rotate_entity`, `tick_current_entity_pos`, camera movement and snapping are per-frame float logic, and not part of this model.
- `ngon_vertices` (trigonometry) and the `intersect_*` stubs of `shape.cpp` are not part of this model.
- `update_vertex_buffers` after `add_model` is a GL upload, and not part of this model.
- The start-up code that allocates the render state's tables and sets `vertex_cap` is not modelled; the constructors start from empty tables with a given capacity.
- The integer width is not modelled. `atoi` and the index arithmetic use unbounded integers, so overflow of a huge face index is not captured.
- The entity limit of 1024, the model limit of 32 and the role-list capacity are never checked by the source. They are preconditions of the adding methods.
- `add_model` loops forever when `vertex_cap` is 0 and vertices are added. `cap > 0 || n == 0` is a precondition.
- `obj_offset_list` is allocated but never written, and is not modelled.
- A face index that names no stored attribute reads memory outside the parsed data. The model records `Undefined` for that attribute.
- A file name is compared with `strcmp`; the model compares whole strings, so names with an embedded NUL are not distinguished as C would.
- `FindShaderString` returns the whole joined text. A caller of `c_str()` would stop at an embedded NUL byte. The leaked `std::string` is not modelled.
- The `.obj` loader receives the attribute lists and the index list as values, not pointers. The loader never aliases them with the output.
- The render state's single struct is split into one class per table group (`VertexTable`, `ModelTable`, `EntityTable`, `RoleTable`), owned by `ModelState` and `EntityState`.
- Scene.ModelState.AddModelFile: the mesh loaded for the file (`find_res` and `load_wavefront`) is given as parameters (`pos`, `norm`, `uv`, `n`). It is not tied to `ObjLoader.LoadWavefront`'s output, whose attributes may be `Undefined`, so `add_model(filename)` composed with the loader is not modelled.
- Scene.EntityState.constructor: the selection starts at entity 0 as the zero-initialised globals do; only `InitEntities` (two entities added by `init`) makes it live. `read_map` (not part of this model) empties the tables without clearing `current_entity`, so after a map with no entities the selection is stale.
- Scene.EntityState.RemoveCurrentEntity: requires the selection to be -1 or a live entity. With a stale selection (entity 0 of 0 after an empty map) the source swaps with `arr[-1]` and drives `entity_count` to -1; that case is not modelled.
- Scene.EntityState.DuplicateCurrentEntity: requires the selection to be -1 or a live entity. A stale selection left by `read_map`, whose model and transform the source would read past the entity count, is not modelled.
- Scene.EntityState.RemoveCurrentEntity: the source removes from the model list, then the light list, then swaps the entity slot, renames in the light list, renames in the model list, and clears the selection last. The model clears the selection first, then removes and renames per list, then swaps the slot. These tables share no storage, so the final state is the same; the intermediate order is not captured.
- Scene.RoleTable.RemoveEntity: states only the resulting list. That well-formedness is kept is proved one level up, in `EntityState.RemoveEntity`, with `Roles.RemovalKeepsWellFormed`.
- ObjLoader.Mesh.AppendPair: not a function of the source. It is the last two `append_vertex` calls of a fan iteration, split out for the proof.
- MaterialLibrary.MaterialLib.constructor: the `memset` to zero is the construction of 32 zero materials.
- MaterialLibrary.PropertyLine has a guard for a current slot beyond the 32 slots; `MtlInv` shows that this guard never fires.

## Findings

| source | as written | input that shows it | evidently intended | confidence | as-written member | corrected member |
|---|---|---|---|---|---|---|
| src/wavefront.cpp:317-325 | the copy loop gives up only once `i >= MAX_LINE_LENGTH`, then writes `line[i] = '\0'`, so an over-long line writes `line[256]`, one past the 256-character buffer; the same loop is in `load_material_lib` (452-460) | a line of 300 characters without a newline; a line of exactly 256 characters already puts the terminator at index 256 | stop copying at 255 characters so the terminator fits; a line of 256 or more characters is then cut to its first 255, the 256th is skipped as the loop skips the character it stops at, and the rest is read as the next line (for exactly 256 characters and a newline, an empty line that no tag matches; `ExactLineCut`) | not executed | ObjFormat.OverlongLineOverrunsAsWritten | ObjLoader.ReadLine |
| src/wavefront.cpp:340-378 | the `v`, `vn` and `vt` guards compare the value count with `MAX_VERTEX_COUNT * 3` (or `* 2`), but the buffers hold `MAX_VERTEX_COUNT` values of 3 (or 2) floats | a file with 100001 `v` lines: the last is stored at floats 300000-300002 of a 300000-float buffer | refuse a value once `MAX_VERTEX_COUNT` values of its kind are stored | not executed | ObjFormat.StreamGuardOverrunsAsWritten | ObjFormat.StreamAcceptsInBounds |
