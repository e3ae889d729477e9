# MiniGl rendering core, modelled in Dafny

`gradient-animation.js` defines a small WebGL layer, `MiniGl`, under its
animated gradient. The layer has six parts:

- `Uniform`: typed shader values, which can form arrays and structs. Each one
  knows how to declare itself in GLSL and how to upload its value.
- `Material`: builds the vertex and fragment sources, compiles and links them,
  and flattens every uniform into a list of (uniform, location) entries.
- `PlaneGeometry`: a grid of `segX` by `segY` cells. It fills typed arrays with
  uv, uvNorm, index and position data.
- `Attribute`: a GPU buffer together with its vertex-attribute layout.
- `Mesh`: pairs a geometry with a material, registers itself with its owner,
  and can draw itself.
- `MiniGl`: holds the common uniforms and the canvas size, and its `render`
  draws every registered mesh in order.

This project models those parts. WebGL is represented by a trace: each call
the code makes is appended to `Gl.Context.log`. Buffer, shader and program
handles come from a counter. The locations a linked program reports
(`getUniformLocation`, `getAttribLocation`) are oracle functions fixed when the
context is created. Each operation's contract states the exact calls it
appends and the state it leaves.

The modules follow the source's structure:

| module | models |
|---|---|
| `Text` | the JavaScript string operations the code relies on: `join`, `${n}`, `indexOf`, `replace`, `toUpperCase`, `\s` |
| `Gl` | the WebGL context as a trace, with its handle counter and location oracles |
| `Uniforms` | `Uniform`: leaf uniforms are objects whose `value` is replaced in place; arrays and structs form a tree; covers the `typeFn` table, `update` and `getDeclaration` |
| `Flatten` | the depth-first expansion that `attachUniforms` performs |
| `Materials` | the shader sources, program creation and `Material` |
| `Grid` | the numbers `PlaneGeometry` writes, as functions of its parameters |
| `Buffers` | `Attribute` |
| `Geometry` | `PlaneGeometry`, with its typed arrays as Dafny arrays filled by the source's nested loops |
| `Engine` | `Mesh` and the `MiniGl` object itself |

Where the code departs from a plain reading of its description, the model
follows the code:

- `render` only sets the clear colour and the clear depth. It never calls
  `gl.clear`.
- The fragment source is stored in a property called `Source`, not
  `fragmentSource` (line 72).
- A `Uint16Array` keeps each index modulo 2^16.
- An orientation letter outside `"xyz"` moves a store one slot earlier.

## Model

| member | source | states |
|---|---|---|
| `Text.JoinTwo` | gradient-animation.js:142 | joining two member lines puts exactly one separator between them |
| `Text.NatToString` | gradient-animation.js:94 | `${i}`: a non-empty string of decimal digits with no leading zero (`Text.NatToStringRoundTrip` reads it back) |
| `Text.NatToStringRoundTrip` | gradient-animation.js:94 | the decimal text `${i}` used in `name[i]` reads back as `i` |
| `Text.NatToStringInjective` | gradient-animation.js:94 | different element indices give different `[i]` texts |
| `Text.LeadingSpaces` | gradient-animation.js:141 | the whitespace run that `\s+` consumes: all of it is whitespace, and the character after it is not |
| `Text.StripUniformKeyword` | gradient-animation.js:141 | `replace(/^uniform\s+/, "")` only removes a prefix: when it changes the text, that prefix is `uniform` followed by at least one whitespace character, all of it whitespace after the keyword, and what is left does not start with whitespace |
| `Text.StripUniformKeywordOf` | gradient-animation.js:141 | `replace(/^uniform\s+/, "")` drops the keyword and the space in front of a type name |
| `Text.StripUniformKeywordKeeps` | gradient-animation.js:141 | text that does not start with `uniform` (an empty declaration, for example) is left unchanged |
| `Text.IndexOf` | gradient-animation.js:200-201 | `indexOf` returns the first position where the pattern occurs, or no position if it does not occur |
| `Text.UpperFirst` | gradient-animation.js:139 | `charAt(0).toUpperCase() + slice(1)`: same length, the rest kept, a lower-case first letter made upper-case and any other first character kept |
| `Uniforms.LeafUniform.constructor` | gradient-animation.js:111-113 | the type defaults to `float`; the configuration's value, exclusion and transpose flag are kept |
| `Uniforms.Dispatch` | gradient-animation.js:114-116 | each table key has its own function, in both directions: `Matrix4fv` (the only matrix function) iff `mat4`, `1i` iff `int`, `2fv` iff `vec2`, `3fv` iff `vec3`, `4fv` iff `vec4`; `1f` iff the type is none of those five (so `float` and every unlisted name) |
| `Uniforms.UploadCalls` | gradient-animation.js:118-127 | an upload happens iff there is a value and the location is neither `null` nor -1; it is one call through the dispatched function with that location and value; a transpose flag is passed iff the type is `mat4`, and it equals the uniform's flag |
| `Uniforms.LeafUniform.Update` | gradient-animation.js:118-127 | `update(location)` appends exactly the calls of `UploadCalls` for the current value |
| `Uniforms.Declaration` | gradient-animation.js:128-146 | `getDeclaration(name, stage, length)`: a leaf or struct that is not excluded declares text that starts with `uniform ` (the keyword that member lines strip); `Uniforms.DeclarationEmptyIff` and the lemmas below give the rest |
| `Uniforms.StructTypeName` | gradient-animation.js:138-139 | the struct type name loses exactly the two characters of the first `u_`, if the name has one, and keeps its length otherwise |
| `Uniforms.MemberLines` | gradient-animation.js:140-142 | one member line per struct field |
| `Uniforms.MemberLine` | gradient-animation.js:141 | a member line starts with a tab and ends with `;` |
| `Uniforms.MemberLineAt` | gradient-animation.js:140-142 | member line `i` of a struct comes from field `i` |
| `Uniforms.DeclarationEmptyIff` | gradient-animation.js:130-132 | a declaration is empty iff the uniform is excluded from that shader stage |
| `Uniforms.LeafDeclarationNonEmpty` | gradient-animation.js:145 | a leaf that is not excluded declares something |
| `Uniforms.ArrayDeclarationNonEmpty` | gradient-animation.js:133-136 | an array that is not excluded declares something, even with no elements |
| `Uniforms.StructDeclarationNonEmpty` | gradient-animation.js:137-144 | a struct that is not excluded declares something |
| `Uniforms.LengthOnlyAppends` | gradient-animation.js:143-145 | a positive `length` only appends `[length]` to a leaf or struct declaration |
| `Uniforms.LeafMemberLine` | gradient-animation.js:141 | a leaf field's member line is a tab, the type, the key and a semicolon, without the `uniform` keyword |
| `Uniforms.ExcludedMemberLine` | gradient-animation.js:141 | a field excluded from the stage still leaves the line `\t;` |
| `Uniforms.StructTypeNameOfPrefixed` | gradient-animation.js:138-139 | the struct type name of `u_rest` is `rest` with its first letter upper-cased |
| `Uniforms.StructTypeNameKeepsLaterPrefix` | gradient-animation.js:138-139 | only the first `u_` is removed, wherever it occurs; a later one is kept |
| `Uniforms.GlobalTypeName` | gradient-animation.js:138-139 | `u_global` declares struct type `Global` |
| `Uniforms.ArrayDeclaredByFirstElement` | gradient-animation.js:135 | an array's declaration depends only on its first element and its length, not on the other elements |
| `Uniforms.ArrayLengthConstant` | gradient-animation.js:135 | an array declares its first element with the array length, then a `_length` constant whose digits read back as the element count |
| `Uniforms.StageIndependent` | gradient-animation.js:128-146 | with no exclusions anywhere in the tree, the vertex and fragment stages get the same declaration |
| `Uniforms.StageIndependentFields` | gradient-animation.js:140-142 | with no exclusions, a struct's member lines are the same for both stages |
| `Uniforms.StageIndependentField` | gradient-animation.js:141 | with no exclusions, one member line is the same for both stages |
| `Uniforms.GlobalMembers` | gradient-animation.js:140-142 | the two fields of a `{noiseFreq: vec2, noiseSpeed: float}` struct give the two expected member lines |
| `Uniforms.GlobalStructDeclaration` | gradient-animation.js:137-144 | such a struct named `u_global` declares `uniform struct Global { ... } u_global` |
| `Uniforms.ArrayOfThreeStructs` | gradient-animation.js:133-145 | an array of three structs declares the first struct with `[3]`, then `const int name_length = 3;` |
| `Flatten.FieldIndex` | gradient-animation.js:96 | finds the first field with a given key, or shows that no field has it |
| `Flatten.Leaves` | gradient-animation.js:89-105 | the leaf entries `attachUniforms` expands a uniform into: a leaf is its own single entry with an empty path; an array or struct with no members gives none (`Flatten.LeavesSound`, `LeavesComplete` and `LeavesDistinct` state the general case) |
| `Flatten.Locate` | gradient-animation.js:97-103 | one instance per leaf entry (the location of each entry's path name) |
| `Flatten.LeafMapInstances` | gradient-animation.js:86-87 | a map of plain uniforms (such as the common uniforms) gives one instance per uniform, in map order, at the location of its own name |
| `Flatten.LocatePrefixed` | gradient-animation.js:94-96 | descending one step below `name` is the same as using the extended name `name[i]` or `name.key` |
| `Flatten.ElementLeavesStep` | gradient-animation.js:94 | element `k` is flattened under `name[k]`, before elements `k+1..` |
| `Flatten.FieldLeavesStep` | gradient-animation.js:96 | field `k` is flattened under `name.key`, before the later fields |
| `Flatten.PathNameOfSteps` | gradient-animation.js:94-96 | an element step, then a field step, builds the name `root[i].key` |
| `Flatten.LeavesSound` | gradient-animation.js:89-105 | each entry of the expansion names a leaf of the tree, reached by following the entry's path; arrays and structs get no entry |
| `Flatten.LeavesComplete` | gradient-animation.js:89-105 | every leaf that a path reaches has an entry with that path |
| `Flatten.LeavesDistinct` | gradient-animation.js:89-105 | no two entries share a path, so each leaf is attached once |
| `Materials.DeclarationList` | gradient-animation.js:59-61 | one declaration per uniform entry |
| `Materials.Declarations` | gradient-animation.js:59-61 | `getUniformVariableDeclarations`: no entries give the empty text, and one entry gives its declaration with no separator |
| `Materials.ExcludedLine` | gradient-animation.js:59-61 | the line for entry `i` is empty iff that uniform is excluded from the stage |
| `Materials.SameDeclarations` | gradient-animation.js:59-61 | with no exclusions, both stages get the same declaration block |
| `Materials.VertexFrame` | gradient-animation.js:64-71 | the vertex source starts with the precision prefix, then the three attribute lines, and ends with the vertex body |
| `Materials.FragmentFrame` | gradient-animation.js:72-75 | the fragment source starts with the precision prefix and ends with the fragment body |
| `Materials.VertexIsFragmentWithAttributes` | gradient-animation.js:64-75 | with no exclusions and equal bodies, the vertex source is the fragment source with the attribute lines inserted after the prefix |
| `Materials.CompileCalls` | gradient-animation.js:45-58 | compiling one stage is three calls; `Materials.BuildOrder` gives them in order |
| `Materials.LinkCalls` | gradient-animation.js:78-85 | linking is five calls; `Materials.BuildOrder` gives them in order |
| `Materials.BuildOrder` | gradient-animation.js:45-85 | the eleven calls of building a program, in order: create, set the source of and compile the vertex shader, then the fragment shader; create the program, attach the vertex shader, then the fragment shader, link, make the program current |
| `Materials.CompileStage` | gradient-animation.js:45-58 | `getShaderByType` takes a new handle and appends the compile calls for it |
| `Materials.BuildProgram` | gradient-animation.js:76-85 | the vertex shader, fragment shader and program take three consecutive new handles; the calls are compile vertex, compile fragment, then link |
| `Materials.Material.constructor` | gradient-animation.js:43-88 | both sources are built from the common uniforms, the material's own uniforms and the bodies; the program is compiled and linked; the instance list is the common uniforms' expansion followed by the material's own |
| `Materials.Material.AttachAll` | gradient-animation.js:86-87 | the common uniforms are attached before the material's own |
| `Materials.Material.AttachEntries` | gradient-animation.js:91-92 | each named uniform of a map is attached, in entry order |
| `Materials.Material.AttachUniform` | gradient-animation.js:89-105 | `attachUniforms(name, u)` appends one entry per leaf of `u`, in depth-first order, each with the location of its path name |
| `Materials.Material.AttachElements` | gradient-animation.js:93-94 | an array attaches its elements under `name[i]`, in order |
| `Materials.Material.AttachFields` | gradient-animation.js:95-96 | a struct attaches its fields under `name.key`, in order |
| `Materials.Material.AttachField` | gradient-animation.js:96 | one field is attached under `name.key` |
| `Materials.InstanceOfLeaf` | gradient-animation.js:89-105 | every instance belongs to a leaf of some named uniform and carries the location of that leaf's path name |
| `Materials.LeafHasInstance` | gradient-animation.js:89-105 | every leaf of every named uniform has its instance |
| `Materials.InstanceCount` | gradient-animation.js:89-105 | the instance list has exactly as many entries as the map has leaves |
| `Materials.Snapshot` | gradient-animation.js:222 | pairs each entry with the value its uniform holds at draw time; `Engine.Mesh.Draw` uploads exactly these pairs and `Engine.MiniGl.ResolutionUpload` uses them |
| `Materials.UniformCalls` | gradient-animation.js:222 | the uniform pass makes at most one call per entry |
| `Materials.UniformCallsInclude` | gradient-animation.js:222 | every call of one entry's upload is among the calls of the uniform pass |
| `Materials.UniformCallsUpload` | gradient-animation.js:222 | the uniform pass issues uniform uploads and nothing else |
| `Materials.UniformCallsEmpty` | gradient-animation.js:222 | the uniform pass uploads nothing iff no entry has both a value and a usable location |
| `Grid.GridCounts` | gradient-animation.js:165-166 | the loops visit `(segY+1)(segX+1)` vertices and `segY*segX` quads, which are the counts the code stores |
| `Grid.VertexAt` | gradient-animation.js:172 | vertex number `y*(segX+1)+x` is below the vertex count and lies in column `x`, row `y` |
| `Grid.ToUint16` | gradient-animation.js:169 | a `Uint16Array` store keeps a value modulo 2^16, so in-range values are kept as they are |
| `Grid.IndexBuffer` | gradient-animation.js:169-181 | the index array has six slots per quad; slot `k` holds `IndexAt(k)`; what the slots mean is proved by `Grid.CellWinding`, `Grid.IndicesInRange` and `Grid.EveryVertexIndexed` |
| `Grid.IndexAt` | gradient-animation.js:178-181 | slot `k` of the index array, the corner `k % 6` of quad `k / 6` as a `Uint16Array` keeps it: always in [0, 2^16) |
| `Grid.CellSlot` | gradient-animation.js:178-181 | slot `j` of cell `(x, y)`, at offset `6(y*segX + x) + j`, holds the `j`-th of v1, v3, v2, v2, v3, v4 (`CellCorners`), modulo 2^16 |
| `Grid.QuadSlots` | gradient-animation.js:178-181 | the six slots at `quadIdx` hold the quad's corners as the loop stores them |
| `Grid.CellWinding` | gradient-animation.js:178-181 | with at most 2^16 vertices, the six slots of cell `(x, y)` are exactly `CellCorners`: triangles (v1, v3, v2) and (v2, v3, v4), with v1 = `y*(segX+1) + x`, v2 = v1 + 1, v3 = v1 + segX + 1, v4 = v1 + segX + 2 |
| `Grid.CellCorner` | gradient-animation.js:178-181 | one slot of that winding |
| `Grid.CornerBelow` | gradient-animation.js:170-181 | each of the six corners of every quad is a vertex of the grid (below the vertex count) |
| `Grid.IndicesInRange` | gradient-animation.js:169-181 | with at most 2^16 vertices, every stored index names a vertex of the grid |
| `Grid.EveryVertexIndexed` | gradient-animation.js:170-184 | with at most 2^16 vertices, every vertex is a corner of some triangle |
| `Grid.VertexIndexed` | gradient-animation.js:170-184 | the vertex in column `col`, row `row` appears in the index buffer |
| `Grid.CellSlotIndexed` | gradient-animation.js:178-181 | with at most 2^16 vertices, each corner of each cell appears in the index buffer |
| `Grid.IndexWrapsBeyondUint16` | gradient-animation.js:169-181 | in a 1 by 32768 grid (65538 vertices) the last corner of the last cell is vertex 65537, but the slot stores 1: the buffer wraps once the vertex count passes 2^16 |
| `Grid.UvBuffer` | gradient-animation.js:167-176 | the uv array has two slots per vertex, filled as `UvAt`; `Grid.UvSlots`, `Grid.UvInRange` and `Grid.UvCorners` state their values |
| `Grid.UvNormBuffer` | gradient-animation.js:168-176 | the uvNorm array has two slots per vertex, filled as `UvNormAt`; `Grid.UvInRange` relates them to the uv values |
| `Grid.UvSlots` | gradient-animation.js:173-176 | vertex `(x, y)` gets u = x/segX and v = 1 - y/segY, and both values stretched to `*2 - 1` |
| `Grid.UvInRange` | gradient-animation.js:173-176 | every uv value lies in [0, 1]; every uvNorm value lies in [-1, 1] and equals its uv value times 2, minus 1 |
| `Grid.UvCorners` | gradient-animation.js:173-174 | the first vertex maps to uv (0, 1) and the last to (1, 0) |
| `Grid.Axis` | gradient-animation.js:200-201 | `"xyz".indexOf(orientation[i])` is 0, 1 or 2 iff letter `i` is x, y or z, and -1 otherwise, including when the letter is missing |
| `Grid.Store` | gradient-animation.js:199-201 | a typed-array store changes only its slot, and an index outside the array changes nothing |
| `Grid.Zeros` | gradient-animation.js:191 | a new `Float32Array` holds zeros; `Grid.ReuseMatchesFresh` shows that reusing an array gives the same result as this fresh one |
| `Grid.WriteVertex` | gradient-animation.js:199-201 | one vertex's stores keep the array length |
| `Grid.PositionsAfter` | gradient-animation.js:195-203 | the array after the first `n` vertices keeps its length |
| `Grid.Positions` | gradient-animation.js:191-203 | a freshly filled position array has three slots per vertex |
| `Grid.PositionsPlaced` | gradient-animation.js:195-203 | with two axis letters, each handled vertex holds x on the first axis, -y on the second and 0 on the third; when both letters name the same axis the second store wins; the slots of later vertices are untouched |
| `Grid.PlacedSlot` | gradient-animation.js:199-201 | in an array where vertex `idx` is placed, its slot `c` holds the vertex's coordinate on axis `c` |
| `Grid.PositionsOfValidOrientation` | gradient-animation.js:195-203 | closed form of every slot of the position array for a valid orientation |
| `Grid.BadSecondAxisOverwritesPreviousVertex` | gradient-animation.js:201 | when the second letter is not in `"xyz"`, vertex 1's -y is written into vertex 0's third slot |
| `Grid.StoreAgrees` | gradient-animation.js:199-201 | two arrays that agree below `m` still agree there after the same store |
| `Grid.PositionsForget` | gradient-animation.js:195-203 | after `n` vertices, the first `3n` slots do not depend on the array's earlier contents |
| `Grid.ReuseMatchesFresh` | gradient-animation.js:190-192 | reusing a position array of the right length gives the same contents as allocating a new one |
| `Buffers.Attribute.constructor` | gradient-animation.js:234-237 | the component type defaults to `FLOAT` and `normalized` to false; one buffer is created with a new handle; the closing `update()` issues nothing |
| `Buffers.Attribute.UpdateCalls` | gradient-animation.js:238-243 | `update` issues nothing iff there are no values; otherwise it binds and uploads them |
| `Buffers.Attribute.Update` | gradient-animation.js:238-243 | `update()` appends exactly those calls |
| `Buffers.Attribute.AttachCalls` | gradient-animation.js:244-253 | `attach` issues nothing iff the location is -1; otherwise it issues what `use` would issue at that location |
| `Buffers.Attribute.Attach` | gradient-animation.js:244-253 | `attach` returns the program's location for the name and appends those calls |
| `Buffers.Attribute.UseCalls` | gradient-animation.js:254-261 | `use` always binds the buffer first; it enables and sets the pointer, with the attribute's layout, iff this is a vertex buffer and the location is not -1 |
| `Buffers.Attribute.Use` | gradient-animation.js:254-261 | `use(location)` appends exactly those calls |
| `Geometry.NewAttributes` | gradient-animation.js:153-158 | creates four attributes with consecutive buffer handles: position (size 3), uv and uvNorm (size 2), and index (element buffer, unsigned short) |
| `Geometry.PlaneGeometry.constructor` | gradient-animation.js:152-161 | after construction, the uv, uvNorm, index and position arrays hold exactly the grid's buffers for the given segments, size and orientation; the four attributes take four consecutive new buffer handles; the calls are the four `createBuffer`s, then the uv, uvNorm and index uploads of `setTopology`, then the position upload of `setSize` |
| `Geometry.PlaneGeometry.SetTopology` | gradient-animation.js:162-187 | sets the counts; makes new uv, uvNorm and index arrays that equal the reference buffers; writes each index slot exactly once, in order; uploads the three arrays in order |
| `Geometry.PlaneGeometry.AdoptTopology` | gradient-animation.js:164-169 | the field writes of `setTopology` |
| `Geometry.BuildTopology` | gradient-animation.js:167-184 | three new arrays filled as the reference uv, uvNorm and index buffers |
| `Geometry.FillTopology` | gradient-animation.js:170-184 | the nested loops fill every uv and uvNorm slot and every index slot with its reference value |
| `Geometry.WriteUv` | gradient-animation.js:172-176 | one vertex's four stores set its two uv and uvNorm slots and touch nothing else |
| `Geometry.WriteQuad` | gradient-animation.js:178-181 | one quad's six stores set its six index slots and touch nothing else |
| `Geometry.PlaneGeometry.SetSize` | gradient-animation.js:188-206 | keeps the position array iff its length is three slots per vertex, otherwise allocates a new one; the array then holds `Positions(layout)`; it is uploaded once |
| `Geometry.PlaneGeometry.AdoptSize` | gradient-animation.js:189-191 | the field writes of `setSize` |
| `Geometry.FillPositions` | gradient-animation.js:193-203 | the nested loops leave the array equal to the reference position buffer, whatever it held before |
| `Geometry.FillRow` | gradient-animation.js:197-202 | one row of the inner loop handles the next `segX + 1` vertices |
| `Geometry.WriteColumn` | gradient-animation.js:197-201 | one pass of the inner loop: vertex `(xIdx, yIdx)` is the next vertex placed, at its column's x and its row's -y |
| `Geometry.WritePosition` | gradient-animation.js:198-201 | one vertex's five stores, where a store outside the array is ignored |
| `Geometry.ColumnPosition` | gradient-animation.js:198 | the running `xPos` is the column's x |
| `Geometry.RowPosition` | gradient-animation.js:196 | the running `yPos` is the row's y |
| `Engine.AttachAttributes` | gradient-animation.js:214-216 | one instance per attribute, in entry order, each holding the location that `attach` returned; the calls are each attach's calls, in order |
| `Engine.AttachNext` | gradient-animation.js:214-216 | one step of the `forEach`: entry `k` gets its program's location for its name, and its calls come next, before those of entries `k+1..` |
| `Engine.UseAllCalls` | gradient-animation.js:223 | the attribute pass makes at least one call per attribute |
| `Engine.UseAllCallsBind` | gradient-animation.js:223 | the attribute pass only binds, enables and sets pointers; it never draws |
| `Engine.UploadUniforms` | gradient-animation.js:222 | the uniform pass appends each entry's upload for its uniform's current value, in list order |
| `Engine.UseAttributes` | gradient-animation.js:223 | the attribute pass appends each attribute's `use` calls, in list order |
| `Engine.DrawCalls` | gradient-animation.js:219-226 | the calls of `draw()`: at least one per attribute plus one, the first making the program current |
| `Engine.Mesh.State` | gradient-animation.js:219-226 | what a draw reads off the mesh now: its program, its attribute instances, its mode, its index count, and each uniform entry paired with its current value |
| `Engine.Mesh.constructor` | gradient-animation.js:212-217 | for a material built on the owner's context and common uniforms, the mesh starts not in wireframe mode; it attaches position, uv, uvNorm and index to the material's program, in that order; it is appended to its owner's mesh list |
| `Engine.Mesh.Draw` | gradient-animation.js:219-227 | `draw()` appends: use the program, the uniform pass, the attribute pass, and an indexed draw iff the index array is not empty |
| `Engine.StateIs` | gradient-animation.js:219-225 | the parts a draw reads from a mesh determine the mesh's draw state |
| `Engine.DrawShape` | gradient-animation.js:219-226 | a draw first makes its program current; its only `drawElements` is its last call, present iff indices exist, in lines or triangles mode as the wireframe flag says, over the whole index array |
| `Engine.DrawCoversEveryQuad` | gradient-animation.js:224-225 | on a plane whose topology is set, a draw covers all six indices of every quad |
| `Engine.Without` | gradient-animation.js:228 | the filtered list keeps exactly the other meshes and is never longer |
| `Engine.WithoutAbsent` | gradient-animation.js:228 | removing a mesh that is not in the list changes nothing |
| `Engine.WithoutAppend` | gradient-animation.js:228 | filtering works piecewise, so the other meshes keep their order |
| `Engine.RegisterThenRemove` | gradient-animation.js:228 | removing a mesh right after it registered restores the previous list |
| `Engine.Mesh.Remove` | gradient-animation.js:228 | `remove()` leaves the owner's list without this mesh |
| `Engine.States` | gradient-animation.js:332 | one draw state per mesh, in list order |
| `Engine.SweepCalls` | gradient-animation.js:331-332 | the calls of the `forEach` over the meshes: at least one per mesh, and none iff there are no meshes |
| `Engine.DrawFirst` | gradient-animation.js:332 | drawing the first `n` meshes appends their draws in list order |
| `Engine.SweepAppend` | gradient-animation.js:332 | the calls for a list of meshes are the calls for each mesh, concatenated in list order |
| `Engine.RemovedMeshNotDrawn` | gradient-animation.js:228 | after `remove()`, the next render draws the meshes before and after the removed one, in order, and never the removed one |
| `Engine.NewCommonUniforms` | gradient-animation.js:277-283 | the four common uniforms: identity `mat4` projection and model-view, `vec2` resolution (1, 1), `float` aspect ratio 1 |
| `Engine.MiniGl.constructor` | gradient-animation.js:276-294 | starts with no meshes and the common uniforms; takes the size from the arguments when both are given, else from the canvas when it is non-zero, else 640 by 480; applies that size |
| `Engine.MiniGl.SetSize` | gradient-animation.js:297-307 | sets the size and the canvas size, sets the viewport, and stores `[w, h]` in `resolution` and `w / h` in `aspectRatio` for the next uploads |
| `Engine.MiniGl.ResolutionUpload` | gradient-animation.js:219-222 | once `setSize(w, h)` has stored `[w, h]` in `resolution` (lines 302-305), the calls of drawing any mesh of this object whose material still holds its constructor's entry list include `uniform2fv` of `[w, h]` at the location the program gives `resolution`, when that location is usable |
| `Engine.MiniGl.Register` | gradient-animation.js:217 | `meshes.push(mesh)` |
| `Engine.MiniGl.Render` | gradient-animation.js:328-333 | `render()` appends clear colour (0, 0, 0, 0) and clear depth 1, then one draw per mesh, in list order, each in the state the mesh had when `render` began |

## Left out

- The failed-context branches are not modelled: `MiniGl` without a WebGL
  context (lines 29-32), and the `!this.gl` / `!context` guards of `setSize`,
  `render` and `use`. The model always has a context.
- The guard `!this.material || !this.material.program` in `draw` is not
  modelled. A material always has a program once it is constructed.
- Compile and link status checks only log to the console, so the model does
  not read them. The `debug` function and all logging are left out.
- Floating point is not modelled. Positions, uv values and uniform values are
  reals, with no float32 rounding. `width / height` is passed through
  unevaluated (`Value.Quotient`), so a zero height (NaN or Infinity) is not
  modelled. Canvas sizes are stored as given, without the canvas's integer
  truncation.
- `Geometry.PlaneGeometry.SetTopology`, `Geometry.PlaneGeometry.constructor`:
  require `segX, segY >= 1`. With 0 segments the source divides by zero and
  stores NaN uv values, which the model does not represent.
- `Engine.MiniGl.SetSize`: requires the common uniforms to have the types the
  constructor gives them. The `commonUniforms.resolution` existence check is
  always true after construction.
- `Engine.Mesh.Draw`: takes the mesh's draw state as a ghost argument, whose
  parts the caller must match. `Engine.StateIs` shows that those parts
  determine the state.
- `setOrthographicCamera` (lines 309-326) is not modelled. It only computes
  floating-point matrix entries.
- The `Gradient` class, colour normalisation, and the GLSL shader bodies are
  not part of this model. Shader bodies are opaque strings.
- The `typeFn` lookup on a plain object literal would also match inherited
  keys such as `toString`. The model treats every type name outside the six
  table keys as `1f`.
- `Object.assign(this, config)` can copy any property. The model keeps the
  properties the code reads. The index attribute's unused `size: 3` is kept
  as a constant.
- `getDeclaration` on an array with no `value` at all (`!uniform.value`) is
  not modelled. Arrays always carry an element sequence, which may be empty.
- `Text.UpperFirst` upper-cases only the ASCII letters a to z. JavaScript's
  `toUpperCase` maps all of Unicode and can change the length (`"ß"` becomes
  `"SS"`). GLSL identifiers are ASCII, so struct names are unaffected.
- `Engine.Mesh.constructor`: requires the material to use the owner's context
  and common uniforms. The source has one context and one `_miniGl`, so every
  material is built that way (lines 69, 73 and 86).
- Vertex-attribute pointers use the attribute's own component type. Their
  numeric GL enum values are not modelled.
