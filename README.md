# nanort GUI example: OBJ loading, row rendering and the render configuration

This project models three pieces of the nanort examples in Dafny and proves properties about them.

- **`ObjMesh` (obj_mesh.dfy)**: `LoadObj` from `examples/gui/render.cc`.
  - It takes the shapes an OBJ reader produced and merges them into one global mesh. Vertices are scaled. Face indices are shifted by the running vertex offset and stored as 32-bit unsigned ints. Material ids are copied per face.
  - Face-varying normals are copied from the shape's vertex normals. A shape with no normals gets one geometric normal (`CalcNormal`) on all three corners of each face.
  - Face-varying UVs are copied when the shape has texcoords. Otherwise that slot keeps what the resized buffer held.
  - The `Material` constructor's defaults are modelled as well.
  - The merge is imperative, as in the source. Each copy loop is a method over the mesh's sequences (one per `std::vector`). The shape loop keeps a `MergedUpTo` invariant. `LoadObj` updates a `Mesh` object in place.
  - The result is tied to the specification functions `MergedVertices`, `MergedFaces`, `MergedMaterials`, `MergedNormals` and `MergedUvs`. Lemmas state where every element of each merged array comes from.
- **`Vec` (vec.dfy)**: the `float3` operations `CalcNormal` needs (`vcross`, subtraction), over reals.
- **`Renderer` (renderer.dfy)**: the body of `Renderer::Render`.
  - The accelerator check comes first, then the row loop. For each row: draw a progress dash into the aux buffer, cast one ray per pixel, scatter a hit into the colour, position, barycentric, normal and texcoord images, then clear the dash.
  - The six buffers are arrays of a `Framebuffers` object.
  - Traversal and `vnormalize` are parameters of the `Scene`, so the model treats them as oracles.
  - The rows that run are those before the first cancelled row (`RowsDone`).
  - `Render` is proved to leave every buffer equal to `RenderedImage` / `RenderedAux` of its old contents. Lemmas say what each pixel and channel ends up holding.
- **`RenderConfigLoader` (render_config.dfy)**: `LoadRenderConfig` from `examples/face-sorter/render-config.cc`.
  - The input is an already-parsed JSON value. Each of the eleven blocks first stores its default, then the value read from its key.
  - picojson's `get<double>()` on a value of the wrong type throws. The model keeps this as an `Outcome` of `Raised(key)`. When that happens, the blocks that already ran keep their effects, and a vector block keeps the components it had already overwritten.
  - The fov block tests `o["width"].is<double>()` rather than the type of `"fov"`. The model follows the code:
    - fov is read only when `"width"` holds a number;
    - a non-numeric `"fov"` with a numeric `"width"` throws;
    - `operator[]` on a missing `"width"` inserts a null. This is proved harmless for the later blocks (`NullWidthHarmless`).
  - `RenderConfig.LoadRenderConfig` runs block by block on the object's fields. It is proved equal to a block-wise specification (`LoadSteps`). That specification is proved equal to a field-wise description (`LoadOutcome`, `LoadResult`, `Loaded`, `Interrupted`), and the property lemmas are stated over that description.

`render-config.h` and `render.h` are not part of this model. The field types are taken from their uses in the two `.cc` files.

## Model

| member | source | states |
|---|---|---|
| `Vec.CrossIsOrthogonal` | examples/gui/render.cc:69-76 | the cross product `CalcNormal` takes is perpendicular to both operands |
| `Vec.CrossAntiCommutes` | examples/gui/render.cc:69-76 | swapping the operands of `vcross` negates the result, so operand order fixes the normal's direction |
| `ObjMesh.Wrap32` | examples/gui/render.cc:252-263 | a value stored in an `unsigned int` is below 2^32 and unchanged when already in range |
| `ObjMesh.Material.constructor` | examples/gui/render.cc:43-63 | ambient, reflection and refraction start at 0, diffuse at 0.5, and the id and every texture id at -1 |
| `ObjMesh.Mesh.constructor` | examples/gui/render.cc:17-28 | a fresh mesh has zero counts and empty arrays |
| `ObjMesh.CountsGrow` | examples/gui/render.cc:381-382 | the running vertex and face offsets never decrease from one shape to the next |
| `ObjMesh.Corner` | examples/gui/render.cc:276-281 | corner c of face f is index 3f+c; it addresses a normal the shape has when the shape has normals, otherwise a position, and a texcoord when the shape has texcoords |
| `ObjMesh.CalcNormal` | examples/gui/render.cc:69-76 | the geometric normal is `vnormalize` of −((v1−v0)×(v2−v0)), since the source takes vcross(v2−v0, v1−v0) |
| `ObjMesh.CalcNormalOrientation` | examples/gui/render.cc:69-76 | before normalisation the geometric normal is perpendicular to both edges from v0 and is the negation of (v1-v0)×(v2-v0) |
| `ObjMesh.Corners3At` | examples/gui/render.cc:297-307 | element 3i+k of a face's nine normal floats is component k of corner i |
| `ObjMesh.Pairs3At` | examples/gui/render.cc:370-377 | element 2i+k of a face's six UV floats is component k of corner i |
| `ObjMesh.StoreCorners` | examples/gui/render.cc:297-307 | the nine single-float stores of one face append that face's normals to the written prefix |
| `ObjMesh.StorePairs` | examples/gui/render.cc:370-377 | the six single-float stores of one face append that face's UVs to the written prefix |
| `ObjMesh.VertexNormalsOfFaceLayout` | examples/gui/render.cc:283-307 | a face's normals are the normals of its three corner vertices, in corner order |
| `ObjMesh.GeometricNormalsOfFaceLayout` | examples/gui/render.cc:318-345 | a face without vertex normals carries its geometric normal on all three corners |
| `ObjMesh.UvsOfFaceLayout` | examples/gui/render.cc:359-377 | a face's UVs are the texcoords of its three corner vertices, in corner order |
| `ObjMesh.VertexNormalsAt` | examples/gui/render.cc:276-308 | float 9f+3c+k of a shape's normals is component k of the normal of corner c of face f |
| `ObjMesh.GeometricNormalsAt` | examples/gui/render.cc:311-347 | float 9f+3c+k of a normal-less shape is component k of face f's `CalcNormal` |
| `ObjMesh.UvsAt` | examples/gui/render.cc:352-378 | float 6f+2c+k of a shape's UVs is component k of the texcoord of corner c of face f |
| `ObjMesh.MergedFacesAt` | examples/gui/render.cc:251-262 | merged index 3·(faces before shape i)+j is the shape's index j plus the vertices before shape i, wrapped to 32 bits |
| `ObjMesh.MergedFacesInRange` | examples/gui/render.cc:251-262 | when shapes index their own vertices and the total fits in 32 bits, every merged index addresses a merged vertex |
| `ObjMesh.MergedVerticesAt` | examples/gui/render.cc:266-273 | merged vertex float 3·(vertices before shape i)+j is `scale` times the shape's position float j |
| `ObjMesh.MergedMaterialsAt` | examples/gui/render.cc:263 | merged material id of face f of shape i, at the face offset, is the shape's id of face f |
| `ObjMesh.MergedNormalsBlock` | examples/gui/render.cc:275-349 | shape i's normals sit in the merged normals at 9 × (faces before shape i) |
| `ObjMesh.MergedNormalCorner` | examples/gui/render.cc:275-349 | each merged normal float is the shape's vertex normal at that corner, or the face's geometric normal when the shape has no normals |
| `ObjMesh.MergedUvsStep` | examples/gui/render.cc:351-379 | one shape overwrites its UV slot when it has texcoords and leaves the UVs untouched otherwise |
| `ObjMesh.MergedUvsSlot` | examples/gui/render.cc:351-379 | shape i's UV slot sits in the merged UVs at 6 × (faces before shape i) |
| `ObjMesh.MergedUvsAt` | examples/gui/render.cc:351-379 | each merged UV float is the corner's texcoord, or the old buffer's value when the shape has no texcoords |
| `ObjMesh.CopyFaces` | examples/gui/render.cc:251-264 | the face loop writes the shape's shifted indices and material ids into its slot and nothing else |
| `ObjMesh.CopyPositions` | examples/gui/render.cc:266-273 | the position loop writes the scaled positions into the shape's vertex slot and nothing else |
| `ObjMesh.CopyVertexNormals` | examples/gui/render.cc:275-308 | the vertex-normal loop writes the shape's corner normals into its slot and nothing else |
| `ObjMesh.FillGeometricNormals` | examples/gui/render.cc:309-349 | the geometric-normal loop writes each face's `CalcNormal` three times into the shape's slot and nothing else |
| `ObjMesh.CopyTexcoords` | examples/gui/render.cc:351-379 | the texcoord loop writes the shape's corner texcoords into its slot and nothing else |
| `ObjMesh.MergeShape` | examples/gui/render.cc:250-382 | one pass of the shape loop extends the merged prefix of all five arrays from i shapes to i+1 |
| `ObjMesh.CountShapes` | examples/gui/render.cc:215-228 | the counting loop yields the total vertex and face counts of all shapes |
| `ObjMesh.MergeShapes` | examples/gui/render.cc:247-383 | the shape loop turns correctly sized arrays into the merged mesh arrays |
| `ObjMesh.MergeIntoResized` | examples/gui/render.cc:215-383 | counting, resizing and merging give the totals and the merged arrays; UVs keep the resized old contents where no shape has texcoords |
| `ObjMesh.LoadObj` | examples/gui/render.cc:201-386 | returns false and leaves the mesh unchanged exactly when the reader reported an error; otherwise the mesh holds the counts and merged arrays, and tangents, binormals and colours are untouched |
| `Renderer.RowStartIsProduct` | examples/gui/render.cc:465 | row y of a buffer starts at 4·(y·width) |
| `Renderer.BufferSizeIsProduct` | examples/gui/render.cc:497 | the buffers hold 4·height·width floats |
| `Renderer.RowsOrdered` | examples/gui/render.cc:465 | rows occupy disjoint, increasing ranges of each buffer |
| `Renderer.RowFits` | examples/gui/render.cc:497 | every row of the image lies inside the buffer |
| `Renderer.PixelDir` | examples/gui/render.cc:480-487 | the ray of pixel (x, y) points along (x/width−0.5, y/height−0.5, −1) before `vnormalize` (`RayDir`); its x and y components lie in [−0.5, 0.5) and column 0 gives −0.5 |
| `Renderer.Shaded` | examples/gui/render.cc:495-533 | a channel keeps its old value on a miss, in the normal image when the mesh has no normals, and in texcoord channels 2-3 or when the mesh has no UVs; a hit stores alpha 1 in the colour, position, barycentric and normal images |
| `Renderer.RowsDone` | examples/gui/render.cc:450-460 | rendering reaches exactly the rows before the first cancelled row, and stops at the height |
| `Renderer.NoCancelRendersAll` | examples/gui/render.cc:450-460 | without cancellation every row is rendered |
| `Renderer.RenderedImageBeyond` | examples/gui/render.cc:450-542 | pixels of rows that were not rendered keep their old values |
| `Renderer.RenderedImageRow` | examples/gui/render.cc:450-542 | every channel of a rendered row holds what shading its pixel gives |
| `Renderer.RenderedAuxBeyond` | examples/gui/render.cc:450-542 | the aux buffer keeps its old values beyond the rendered rows |
| `Renderer.RenderedAuxCleared` | examples/gui/render.cc:536-541 | the aux buffer is zero over every rendered row, since the dash is drawn and then cleared |
| `Renderer.PixelLayout` | examples/gui/render.cc:496-533 | shading a pixel changes only its four channels at 4·(y·width+x) |
| `Renderer.PixelKept` | examples/gui/render.cc:495-533 | a miss writes nothing, and the normal and texcoord images are not written when the mesh lacks normals or UVs |
| `Renderer.HitRgba` | examples/gui/render.cc:497-500 | a hit stores x/width, y/height, pass/max_passes and 1 in the colour buffer |
| `Renderer.HitPosition` | examples/gui/render.cc:502-510 | a hit stores eye + t·dir and 1 in the position image |
| `Renderer.HitVarycoord` | examples/gui/render.cc:512-515 | a hit stores u, v, 0 and 1 in the barycentric image |
| `Renderer.HitNormal` | examples/gui/render.cc:517-525 | a hit stores 0.5·n+0.5 of the first corner normal of the hit face, and 1, in the normal image |
| `Renderer.HitTexcoord` | examples/gui/render.cc:527-532 | a hit stores the first corner UV of the hit face in texcoord channels 0 and 1 only |
| `Renderer.ShadedRowStep` | examples/gui/render.cc:473-534 | shading a row is shading its pixels left to right |
| `Renderer.DashedStep` | examples/gui/render.cc:462-469 | the dash writes (x/8)%2 into channels 0-2 and 0 into channel 3 of each pixel of the row |
| `Renderer.ClearedStep` | examples/gui/render.cc:536-541 | the clear writes 0 into the four channels of each pixel of the row |
| `Renderer.Framebuffers.DrawProgressRow` | examples/gui/render.cc:462-469 | the dash loop leaves the aux buffer as `Dashed` describes |
| `Renderer.Framebuffers.ScatterPixel` | examples/gui/render.cc:475-533 | one pixel's trace updates the five images as shading describes and touches no other pixel |
| `Renderer.Framebuffers.StoreColour` | examples/gui/render.cc:497-500 | the colour stores of a hit |
| `Renderer.Framebuffers.StorePosition` | examples/gui/render.cc:502-510 | the position stores of a hit |
| `Renderer.Framebuffers.StoreVarycoord` | examples/gui/render.cc:512-515 | the barycentric stores of a hit |
| `Renderer.Framebuffers.StoreNormal` | examples/gui/render.cc:517-525 | the normal stores of a hit, only when the mesh has normals |
| `Renderer.Framebuffers.StoreTexcoord` | examples/gui/render.cc:527-532 | the texcoord stores of a hit, only when the mesh has UVs |
| `Renderer.Framebuffers.ShadeRow` | examples/gui/render.cc:473-534 | the pixel loop leaves each image as `ShadedRow` of its old contents |
| `Renderer.Framebuffers.ClearProgressRow` | examples/gui/render.cc:536-541 | the clear loop leaves the aux buffer as `Cleared` describes |
| `Renderer.Framebuffers.RenderRow` | examples/gui/render.cc:462-541 | one row dashes, shades and clears, in that order |
| `Renderer.Framebuffers.Render` | examples/gui/render.cc:431-552 | returns false with every buffer unchanged exactly when the accelerator is invalid; otherwise every buffer holds its rendered contents for the rows before the first cancelled row |
| `RenderConfigLoader.TruncToInt` | examples/face-sorter/render-config.cc:97 | `static_cast<int>` truncates toward zero |
| `RenderConfigLoader.LoadStepsMatchFields` | examples/face-sorter/render-config.cc:10-144 | running the blocks in order gives the outcome and configuration of the field-wise description |
| `RenderConfigLoader.FirstHalfRun` | examples/face-sorter/render-config.cc:30-92 | with no throw up to the fov block, the blocks up to fov store their fields' loaded values |
| `RenderConfigLoader.SecondHalfRun` | examples/face-sorter/render-config.cc:94-143 | with no throw in the ray blocks, the blocks from width on store their loaded values and return true |
| `RenderConfigLoader.SecondHalfInterrupted` | examples/face-sorter/render-config.cc:115-141 | a throw in `ray_org` or `ray_dir` raises and leaves later fields untouched, with the throwing vector partly written |
| `RenderConfigLoader.CompletedRun` | examples/face-sorter/render-config.cc:30-143 | without a throw the load returns true with every field loaded |
| `RenderConfigLoader.EarlyInterruptedRun` | examples/face-sorter/render-config.cc:45-92 | a first throw at or before fov raises that key and leaves the interrupted configuration |
| `RenderConfigLoader.EarlyRun` | examples/face-sorter/render-config.cc:45-92 | running from the eye block with a first throw at or before fov |
| `RenderConfigLoader.EarlyInterruption` | examples/face-sorter/render-config.cc:45-92 | the interrupted configuration for an early throw is the first two blocks followed by the early stop |
| `RenderConfigLoader.PrefixRun` | examples/face-sorter/render-config.cc:30-43 | the name and scale blocks never throw and store their loaded values |
| `RenderConfigLoader.LateInterruptedRun` | examples/face-sorter/render-config.cc:115-141 | a first throw in a ray block raises that key and leaves the interrupted configuration |
| `RenderConfigLoader.LateInterruption` | examples/face-sorter/render-config.cc:115-141 | the interrupted configuration for a late throw is the first half loaded, then width, height, shape_id and the partial ray vectors |
| `RenderConfigLoader.RenderConfig.LoadRenderConfig` | examples/face-sorter/render-config.cc:10-144 | the outcome and the fields after the call are those of running the blocks in order on the old fields |
| `RenderConfigLoader.RenderConfig.LoadBlock` | examples/face-sorter/render-config.cc:32-43 | a type-checked block (obj_filename, scene_scale, width, height, shape_id) stores its field and never throws |
| `RenderConfigLoader.RenderConfig.LoadVector` | examples/face-sorter/render-config.cc:45-57 | a vector block stores its default and then the components read, and throws on the first non-number of a three-element array |
| `RenderConfigLoader.RenderConfig.LoadFov` | examples/face-sorter/render-config.cc:87-92 | the fov block stores 45 and then the truncated fov when width is a number; it may insert a null width |
| `RenderConfigLoader.ReadInt` | examples/face-sorter/render-config.cc:94-99 | an integer field is its key's number truncated, or the default |
| `RenderConfigLoader.ReadVector` | examples/face-sorter/render-config.cc:45-57 | reading a vector throws exactly on a three-element array holding a non-number, leaving the components read so far |
| `RenderConfigLoader.NullWidthHarmless` | examples/face-sorter/render-config.cc:89 | the null `"width"` that `operator[]` inserts does not change any later block |
| `RenderConfigLoader.FirstThrowIsFirst` | examples/face-sorter/render-config.cc:45-141 | the load stops at the earliest block that throws |
| `RenderConfigLoader.FailsExactlyWhen` | examples/face-sorter/render-config.cc:11-28 | false is returned exactly when the file cannot be opened or the value is not an object |
| `RenderConfigLoader.ParseErrorIgnored` | examples/face-sorter/render-config.cc:21-23 | a parse error message changes neither the outcome nor the configuration |
| `RenderConfigLoader.EmptyObjectGivesDefaults` | examples/face-sorter/render-config.cc:38-141 | `{}` yields true and every default, keeping the old file name |
| `RenderConfigLoader.RaisesExactlyWhen` | examples/face-sorter/render-config.cc:25-143 | on an object the load raises exactly when some block throws, and never returns false |
| `RenderConfigLoader.FovGuardedByWidth` | examples/face-sorter/render-config.cc:87-92 | fov is 45 unless width is a number, is the truncated fov when both are numbers, and throws when width is a number and fov is not |
| `RenderConfigLoader.FovAloneIsIgnored` | examples/face-sorter/render-config.cc:87-92 | `{"fov": 60}` leaves fov at 45 |
| `RenderConfigLoader.ScalarFields` | examples/face-sorter/render-config.cc:38-113 | scene_scale, width, height and shape_id are their keys' numbers, truncated for the ints, or 1, 512, 512, 512 |
| `RenderConfigLoader.FieldsIndependent` | examples/face-sorter/render-config.cc:30-141 | for loads in which no block throws, changing one key changes only its own field, except that width also governs fov |
| `RenderConfigLoader.VectorAndNameFields` | examples/face-sorter/render-config.cc:32-57 | a numeric triple sets the vector and anything else leaves the default; a string sets the file name and anything else keeps the old one |

## Left out

- Parsing is left out. The OBJ text reader (`tinyobj::LoadObj`) and the JSON parser (`picojson::parse`) are outside the model. Their results are inputs: the shape list with the reader's error string, and a parsed `Source`.
- Console output (`std::cout`, `std::cerr`, `printf`) is not modelled.
- The materials list the reader returns is not modelled; `LoadObj` itself does not use it.
- `BuildCameraFrame`, `GenerateRay` and `Renderer::LoadObjMesh` (which builds the BVH) lie outside the modelled core. `GenerateRay` has a defect that this leaves unmodelled: it copies only `dir[0]` into `ray.dir` (render.cc:195), leaving `ray.dir[1]` and `ray.dir[2]` unset.
- BVH traversal (`gAccel.Traverse`) and `vnormalize` are oracle functions of the scene. `Renderer.PrimsInMesh` assumes that every hit's primitive lies in the mesh arrays, which the BVH build guarantees in the source.
- Renderer.Framebuffers.Render: models one worker instead of `hardware_concurrency` threads sharing an atomic row counter. The 300 ms clock test and the cancel flag become a predicate `cancelled(y)`. With several threads, rows after a cancelled one may still be rendered by other threads.
- Renderer.Framebuffers.Render: assumes the six buffers are disjoint (`Distinct`). The source takes the buffers as plain `float*` arguments and does not forbid aliasing; with aliased buffers a later store overwrites an earlier one and the per-buffer results no longer hold. The `int` index `4*(y*width+x)` is unbounded in the model, so its overflow for very large images is not modelled.
- Float arithmetic is modelled as reals, with no rounding. This covers the scaled vertices, the normal and UV values, `x / (float)width`, the `scene_scale` double-to-float cast and the double-to-float vector stores.
- Renderer.HitRgba: when `max_passes` is 0 the source divides by zero in floating point (infinity or NaN). The model stores 0 (`PassFraction`).
- RenderConfigLoader.TruncToInt: does not model the undefined result of `static_cast<int>` on values outside the `int` range.
- Renderer.HitNormal: `prim_id` is the oracle's face index as a natural number; the `unsigned int` conversion of a hit's primitive id is not modelled.
- ObjMesh.LoadObj: requires every shape to be well formed when the reader reports no error. Index, position and normal counts must be multiples of 3, which is what the asserts at render.cc:220-224 check; in a build without asserts the loops divide by 3 and ignore trailing elements, which the model does not cover. Every index must also address a normal when the shape has normals, otherwise a position, and a texcoord when it has texcoords, and each face needs a material id; only for these does the source read out of bounds otherwise, and that undefined behaviour is not modelled.
- ObjMesh.LoadObj: index and offset arithmetic in `size_t` is unbounded. Only the stores into `unsigned int` faces and material ids wrap (`Wrap32`).
- RenderConfigLoader.RenderConfig.LoadRenderConfig: the thrown exception is modelled as the outcome `Raised(key)`. The exception type and message of picojson's type-check failure are not modelled.
- RenderConfigLoader.RenderConfig: covers only the fields the loader writes. The header that declares them is not part of this model.
