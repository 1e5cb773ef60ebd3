# A verified model of the LightBaking lightmap baker

`THREE.LightBaking` bakes static lighting of a three.js scene into one
lightmap texture per mesh. For every mesh it lays out one UV cell per face,
scans each face's rectangle of texels row by row, and asks the
renderer for a colour at every texel inside the triangle. The renderer is
either direct light plus a second pass, or a path tracer that averages
random paths. The result is written into an RGBA byte buffer, which may be
run through a 3x3 box filter. Meshes are baked pass by pass on the
main thread. Alternatively, a pool of web workers bakes one mesh per task,
and each worker runs its own single-threaded baker.

The model covers the bookkeeping and the exact arithmetic around that
renderer:

- `Config`: the configuration record, `parse`, and the constructor's checks.
- `BakingSetup`: the per-mesh flag and face-range rules of `bakingSetup`, and
  the lists it fills. `Mesh` and `Setup` are classes, because the traversal
  updates `userData.baking` and the lists in place.
- `PassBarrier`: the closure `applyGItoScene` registers to sequence bake passes.
- `WorkerPool`: `cachedWorkerThreadPool`, with its hand-linked FIFO of
  pending tasks, its stack of free worker ids and its `running` counter.
- `Worker`: the protocol of `LightBakingWorker.js` — `onMessage`, `sceneSetup`,
  `meshTask`, `setListener` and the messages posted back.
- `Geometry`: colours, vectors, barycentric coordinates and the in-triangle
  test, bounding boxes, and the closest-hit reduction. `real` stands for the
  JavaScript doubles.
- `UvLayout`: the UV grid of `layoutMeshUV`, `calcFaceOffset` /
  `calcYOffset`, and the re-sort and placement in `layoutMeshUVPacked`.
- `Texels`: `calcTextureOffset`, `setLumelColor` / `getLumelColor` on a
  `Uint8Array`, and the scanline loops of `lightMapGenerationPerLumel`.
  The in-triangle test and the renderer's colour are parameters.
- `Filter`: the box-kernel branch of `applyPostProcessing` on arrays.
- `PathTrace`: the recursion of `rendererCalculateLumelColor` and the sample
  loop of `calculateLumelColor`. An oracle stands for ray casting, shading
  and random directions.

Callbacks and messages become method calls. JavaScript runs one event at a
time, so the pool and the worker are sequential state machines.
`undefined` is `None`, and a `TypeError` the code would throw is an `ok ==
false` / `None` result. The environment's feature tests (`typeof Worker`,
`THREE.Octree`, `GrowingPacker`) and `navigator.hardwareConcurrency` are
parameters.

Where the code and its description disagree, the model follows the code:

- The constructor rejects TWOPASS combined with MULTITHREADED. Path tracing
  in parallel is accepted (`Config.PathTracingMultiThreadedAccepted`).
- `parse` never copies `workerTaskMode` or `workerTaskId`.
  - So the main thread never shrinks the pool to the number of meshes.
  - A worker never registers its mesh-result listener.
  - A worker's result messages come only from the post-processing filter
    listener (`Worker.Context.SetListener`).
- `bakingSetup` resets `__onMeshBaked` and `__afterExecuted`, but not
  `__onFilterOnMeshApplied`, and building a new baker in a later Setup does
  not reset it either. The k-th Mesh job of a worker with a filter posts k
  result messages per baked mesh (`Worker.Context.SceneSetup`,
  `Worker.FilterResults`).
- A mesh on which the setup throws is not rolled back: it keeps the
  assignments made before the throw (`BakingSetup.AbortedRecord`).
- `setLumelColor` writes only when `0 < ai`, so texel 0 of every lightmap
  is never written (`Texels.ScanFacesKeepTexelZero`).
- The box filter visits `1 <= tx < tw - 2` and `1 <= ty < th - 2`. The first
  row and column and the last two rows and columns are left as holes of
  `new Array(n)` (`Filter.ApplyBoxFilter`).
- In PACKED mode `calcFaceOffset` scales the y extent by the texture width as
  well (`UvLayout.PackedRectWithinTexture`).
- Line 2525 reads `(bakeMe && Basic) || Phong || Lambert`. Phong and Lambert
  meshes therefore always get face-range defaults (`BakingSetup.FaceRangeDefaults`).
- A pool that is never given a task never calls `onTasksFinished`: only a
  worker message runs that check (`WorkerPool.Pool.OnMessage`).

## Model

| member | source | states |
|---|---|---|
| Config.IncTaskCounter | js/LightBaking.js:3184-3188 | `workerTaskId++` adds one to a numeric counter; a missing or NaN counter stays non-numeric (`undefined++` is NaN) |
| Config.Parse | js/LightBaking.js:376-442 | the parsed record never carries `workerTaskMode` or `workerTaskId`; `importanceValue` is 1 whenever it is supplied and the default otherwise |
| Config.ParseEmptyIsDefault | js/LightBaking.js:284-442 | parsing an empty parameter object gives the default configuration without its two worker-task fields |
| Config.ParseAsInputRoundTrip | js/LightBaking.js:365-442 | parsing the JSON form of a parsed record gives the record back, except that `importanceValue` becomes 1 |
| Config.ParseTwice | js/LightBaking.js:376-442 | parsing is idempotent up to `importanceValue`: a second parse changes only that field, to 1, whatever defaults it uses |
| Config.Validate | js/LightBaking.js:41-84 | the constructor accepts exactly when none of its six checks fails (missing Worker, Octree or GrowingPacker; TWOPASS with MULTITHREADED; pass count outside 0..2); the missing-Worker error is reported exactly when MULTITHREADED lacks workers; an accepted record has a pass count in 0..2 and is the input with the path-tracing pass count fixed |
| Config.PassCountFixed | js/LightBaking.js:80-84 | path tracing sets the pass count to 1, TWOPASS leaves the record alone, and no other field changes |
| Config.Construct | js/LightBaking.js:36-84 | a constructed baker never has a worker-task mode or a worker task id |
| Config.PathTracingMultiThreadedAccepted | js/LightBaking.js:41-84 | path tracing with MULTITHREADED is accepted whenever workers and the needed libraries exist |
| Config.DefaultsNeedWorkerAndPacker | js/LightBaking.js:41-84 | with the default settings the constructor succeeds exactly when `Worker` and `GrowingPacker` exist |
| BakingSetup.ApplySpecific | js/LightBaking.js:2461-2492 | the `specificMeshBaking` switch always leaves the flag defined |
| BakingSetup.ApplySpecificTwice | js/LightBaking.js:2461-2492 | INVERTED applied twice restores a defined flag; DISABLED and ENABLED are idempotent |
| BakingSetup.ApplySpecificTable | js/LightBaking.js:2461-2492 | the flag ends true exactly under DISABLED, under ENABLED when it was true, and under INVERTED when it was false or unset |
| BakingSetup.SetupFailsOnlyInMeshTasks | js/LightBaking.js:2543-2549 | the per-mesh setup throws only inside a worker's Mesh task (`workerId > -1`, `workerTaskMode` Mesh) |
| BakingSetup.ParsedConfigNeverFails | js/LightBaking.js:376-442 | with a record produced by `parse` the per-mesh setup never throws |
| BakingSetup.BakeMeRule | js/LightBaking.js:2461-2570 | after setup `bakeMe` is true exactly when the geometry has faces, the material is Basic, Phong or Lambert, and the `specificMeshBaking` table gives true |
| BakingSetup.SetupDefinesRecord | js/LightBaking.js:2495-2507 | after setup `bakeMe` is defined, `intersectMe` follows the `specificRayCasting` table, and the texture sizes default to the configuration's |
| BakingSetup.FaceRangeDefaults | js/LightBaking.js:2524-2570 | Phong and Lambert meshes always get a begin offset (default 0) and an end offset; other materials keep their range; a Basic mesh not to bake keeps its begin offset |
| BakingSetup.FaceEndOffsetRule | js/LightBaking.js:2536-2561 | an unset end offset becomes the lightmap-UV face count, or -1 without lightmap UVs; on the main thread a set one is clamped to that count |
| BakingSetup.LightmapUvRule | js/LightBaking.js:2509-2522 | existing lightmap UVs are kept; missing ones are created, one per face, exactly when the geometry has faces and the mode and flags ask for them |
| BakingSetup.EnabledKeepsChoice | js/LightBaking.js:2468-2476 | under ENABLED in a worker, a bakeable mesh keeps the `bakeMe` a Mesh task gave it |
| BakingSetup.Mesh.Setup | js/LightBaking.js:2413-2611 | the mesh's record becomes the setup's result; when the setup throws the mesh keeps what was written before the throw, as `Aborted` gives it |
| BakingSetup.AbortedRecord | js/LightBaking.js:2461-2549 | a mesh the setup throws on is left with `bakeMe` true, its texture size and range start defaulted, its range end -1, `intersectMe` not switched and no lightmap UV layer |
| BakingSetup.BakeListMembers | js/LightBaking.js:2613-2618 | a mesh is on the bake list exactly when it is a mesh node of the scene whose final `bakeMe` is true |
| BakingSetup.BakeListIndex | js/LightBaking.js:2613-2618 | every member of the bake list comes from a scene node with `bakeMe` true |
| BakingSetup.IntersectListMembers | js/LightBaking.js:2620-2625 | a mesh is on the ray-casting list exactly when it is a mesh node of the scene whose `intersectMe` is true |
| BakingSetup.Setup.constructor | js/LightBaking.js:2391-2396 | the lists start empty |
| BakingSetup.Setup.Collect | js/LightBaking.js:2409-2625 | after node k the lists hold exactly what the first k+1 nodes contribute |
| BakingSetup.Setup.Visit | js/LightBaking.js:2404-2627 | visiting node k extends both the updated meshes and the lists by that node, and fails exactly when its setup throws, leaving that mesh half set up and the others as they were |
| BakingSetup.Setup.BakingSetup | js/LightBaking.js:2387-2635 | the traversal succeeds exactly when no mesh's setup throws; then every mesh holds its setup's result and the bake list, the ray-casting list and the lights are the scene's, in scene order; on a throw the traversal stops at that mesh, with the meshes before it set up, that mesh half set up and the meshes after it untouched |
| PassBarrier.Rounds | js/LightBaking.js:2706-2725 | the passes run are `twoPassPassCount`, but at least one |
| PassBarrier.FinishesExactlyAtTheEnd | js/LightBaking.js:2690-2744 | `onFinished` has run once exactly when meshCount * passes notifications are in, and never more than once |
| PassBarrier.NoStall | js/LightBaking.js:2690-2744 | before `onFinished` some issued bake has not reported yet; after it every issued bake has |
| PassBarrier.EveryPassRuns | js/LightBaking.js:2706-2725 | the whole bake issues every pass and finishes; a pass count of 0 or 1 takes one notification per mesh |
| PassBarrier.NextNotification | js/LightBaking.js:2703-2709 | one notification moves the counter on, or wraps it to 0 and advances the pass |
| PassBarrier.CurrentRound | js/LightBaking.js:2703-2727 | while notifications are outstanding the current pass is not past the last |
| PassBarrier.WithinRound | js/LightBaking.js:2703-2706 | a notification that does not complete the pass only moves the counter |
| PassBarrier.EndOfRound | js/LightBaking.js:2706-2725 | the notification that completes a pass issues the next pass, or after the last pass calls `onFinished` |
| PassBarrier.Barrier.ApplyGItoScene | js/LightBaking.js:2690-2744 | an empty bake list finishes at once and issues nothing; otherwise pass 1 is issued and nothing has finished |
| PassBarrier.Barrier.OnMeshBaked | js/LightBaking.js:2696-2731 | a next pass is issued or `onFinished` runs exactly on the notification that brings the counter to meshCount, which resets it and advances the pass; `onFinished` runs exactly on the last notification of all |
| WorkerPool.Ids | js/LightBaking.js:517-524 | the free ids are 0..n-1 in order |
| WorkerPool.Pool.Setup | js/LightBaking.js:467-526 | after setup every worker is free, in id order, nothing is pending and nothing is running |
| WorkerPool.Pool.Enqueue | js/LightBaking.js:553-575 | relinking appends the task at the end of the pending list and keeps the list invariant |
| WorkerPool.Pool.GetNextTask | js/LightBaking.js:581-600 | the first pending task is returned and removed (FIFO); `null` exactly when nothing is pending |
| WorkerPool.Pool.AnyNextTasks | js/LightBaking.js:602-606 | true exactly when some task is pending |
| WorkerPool.Pool.ExecuteNextTask | js/LightBaking.js:608-632 | a message is posted exactly when a worker is free and a task pending: the top free id takes the first task and `running` grows by one; otherwise nothing changes; all free ids stay distinct and `running + free == workerLimit` |
| WorkerPool.Pool.AppendTask | js/LightBaking.js:553-579 | the task joins the queue; exactly when a worker was free, the worker on top of the free stack takes the first queued task, leaves the stack and joins the busy set, and `running` grows by one; otherwise only the queue changes |
| WorkerPool.Pool.OnMessage | js/LightBaking.js:634-668 | a Finished reply with a task pending hands that task straight back to the replying worker, so the free stack, the busy set and `running` are as before; with nothing pending that worker is pushed back on the stack and `running` drops by one; any other reply dispatches the first pending task to the top of the stack when both exist; `onTasksFinished` runs exactly when nothing is pending and `running` is 0, and then every appended task has been dispatched and every worker is free |
| Worker.SceneSetupOverrides | js/LightBakingWorker.js:86-116 | the worker's record is the parsed one with appMode SINGLETHREADED, specificMeshBaking ENABLED and the message's workerId, and nothing else changed; it is accepted exactly when the remaining constructor checks pass |
| Worker.Repeat | js/LightBakingWorker.js:118-131 | n copies of a message |
| Worker.FilterResultsShape | js/LightBakingWorker.js:147-162 | each baked mesh yields one result message per registered filter listener, carrying the worker id, the current intent and that mesh's uuid |
| Worker.SelectMesh | js/LightBakingWorker.js:71-79 | a mesh's `bakeMe` becomes whether its uuid is the task's; it throws, changing nothing, when the mesh has no baking record |
| Worker.OnlyTaskMeshBaked | js/LightBakingWorker.js:71-79 | after selection and setup under ENABLED, every mesh on the bake list has the task's uuid |
| Worker.TaskMeshBaked | js/LightBakingWorker.js:71-79 | after selection and setup under ENABLED, a mesh with the task's uuid that has faces and a Basic, Phong or Lambert material is on the bake list |
| Worker.Context.constructor | js/LightBakingWorker.js:16-21 | a worker starts with no baker, no scene and nothing posted |
| Worker.Context.SceneSetup | js/LightBakingWorker.js:86-116 | the worker keeps the received scene and a baker built from the overridden record, or none when the constructor refuses; nothing is posted and the listener registrations of earlier bakers are kept |
| Worker.Context.MeshTask | js/LightBakingWorker.js:68-79 | the traversal selects the task's mesh in every mesh node, and throws exactly when some mesh has no baking record |
| Worker.Context.PostFinished | js/LightBakingWorker.js:122-131 | every registered after-executed listener posts one Finished carrying the worker id |
| Worker.Context.PostFilterResults | js/LightBakingWorker.js:147-162 | the filter listeners post one result per baked mesh and listener |
| Worker.Context.SetListener | js/LightBakingWorker.js:118-145 | one after-executed listener is registered, and a filter listener exactly when a filter is set; the mesh listener never is |
| Worker.Context.Executed | js/LightBaking.js:3134-3181 | `executed` posts the filter results first, then one Finished per after-executed listener |
| Worker.Context.Run | js/LightBakingWorker.js:81-83 | `run` succeeds exactly when no mesh's setup throws; then the meshes and bake list are the setup's, and the job posts the filter results and exactly one Finished |
| Worker.Context.Bake | js/LightBaking.js:2986-3003 | after a successful setup the job registers its listeners and posts the filter results and exactly one Finished |
| Worker.Context.MeshJob | js/LightBakingWorker.js:37-44 | a Mesh job sets the worker id and increments the task id; on success it posts the filter results and exactly one Finished, every baked mesh is the task's, and the task's mesh is baked whenever it has faces and a Basic, Phong or Lambert material |
| Worker.Context.OnMessage | js/LightBakingWorker.js:23-62 | Setup and Face post nothing, Setup keeps the filter registrations and Face changes no mesh; Mesh and Face update the worker id and task counter; a Mesh job posts exactly one Finished for its worker, or nothing when it fails, and bakes exactly the task's mesh when that mesh can be baked |
| Geometry.Clip | js/LightBaking.js:1288-1290 | `clip` keeps a value inside [lo, hi], returns it unchanged when inside, and gives the bound it crosses otherwise |
| Geometry.ColorClip | js/LightBaking.js:247-255 | every channel ends in [lo, hi], and a colour already inside is unchanged |
| Geometry.DivideScalar | js/LightBaking.js:257-278 | dividing by 0 gives black; otherwise scaling the result back gives the colour |
| Geometry.Cross | js/LightBaking.js:1382-1394 | the cross product is orthogonal to both factors |
| Geometry.CrossAntiCommutes | js/LightBaking.js:1382-1394 | a x b + b x a is the zero vector |
| Geometry.ScaleMatrix | js/LightBaking.js:1453-1457 | the matrix scales x and y by s and keeps z |
| Geometry.ScaleFace | js/LightBaking.js:1553-1558 | every vertex is multiplied by the matrix, and the count is kept |
| Geometry.ScaledPoint | js/LightBaking.js:1553-1558 | scaling a face scales each vertex's x and y |
| Geometry.ScaleFaceInverse | js/LightBaking.js:1453-1558 | scaling by 1/s undoes scaling by s |
| Geometry.CalcLocalPoint | js/LightBaking.js:1244-1252 | the unit coordinates give the three vertices |
| Geometry.CalcLocalPointTranslates | js/LightBaking.js:1244-1252 | moving the triangle moves the point by the same vector |
| Geometry.BarycentricCoordinates | js/LightBaking.js:1107-1115 | defined exactly for a non-degenerate triangle; the coordinates sum to 1 and give the point back |
| Geometry.BarycentricOfLocalPoint | js/LightBaking.js:1107-1252 | the coordinates of the point built from given coordinates are those coordinates |
| Geometry.BarycentricAtVerticesAndCentroid | js/LightBaking.js:1107-1115 | A, B and C get the unit coordinates, and the centroid gets (1/3, 1/3, 1/3) |
| Geometry.PointInTriangleCharacterised | js/LightBaking.js:1126-1137 | accepted exactly when the triangle is non-degenerate and the point's coordinates all lie in [-O, 1+O] |
| Geometry.PointInTriangleMonotone | js/LightBaking.js:1126-1137 | a larger smoothing band accepts every point a smaller one does |
| Geometry.CoordinatesAlongRow | js/LightBaking.js:1107-1115 | along a texel row each coordinate changes at a fixed rate |
| Geometry.AcceptedTexelsAreContiguous | js/LightBaking.js:1126-1137 | a point between two accepted points of a row is accepted |
| Geometry.WhereInBary | js/LightBaking.js:1161-1175 | the result is -1, 0 or 1; non-negative exactly inside the band; 1 exactly inside the triangle |
| Geometry.WhereInBaryAgreesWithTest | js/LightBaking.js:1126-1175 | every point the in-triangle test accepts is inside the band |
| Geometry.BoxOfIsTight | js/LightBaking.js:1931-1970 | the box encloses every vertex and each bound is attained by one |
| Geometry.GetMaxima | js/LightBaking.js:1931-1970 | the min/max loop computes the tight box of the vertices |
| Geometry.Widen | js/LightBaking.js:1977-2021 | on each axis the wider of the two extents is kept, with its bounds |
| Geometry.MeshBoxIsWidest | js/LightBaking.js:1977-2021 | on each axis no face is wider than the mesh box |
| Geometry.MeshBoxIsFirst | js/LightBaking.js:1977-2021 | on each axis the mesh box is the box of the first face of largest extent |
| Geometry.MeshBoxOfIsFirstWidest | js/LightBaking.js:1977-2021 | on each axis the mesh box is at least as wide as every face and is the box of the first face of largest extent |
| Geometry.FindMeshMaxima | js/LightBaking.js:1977-2021 | the loop over the faces computes the mesh box |
| Geometry.ReducePrefix | js/LightBaking.js:1858-1862 | the reduction returns a hit of the list no farther than any |
| Geometry.ReducePrefixKeepsLastMinimum | js/LightBaking.js:1858-1862 | on ties the later hit wins |
| Geometry.ClosestIntersection | js/LightBaking.js:1858-1862 | none exactly for no hits; otherwise a member at least as close as every hit and closer than every later one |
| Geometry.ClosestOfSingleton | js/LightBaking.js:1858-1862 | a one-element list gives that hit |
| Geometry.AnyIntersectionBeforeLight | js/LightBaking.js:1870-1874 | true exactly when some hit is strictly nearer than the light |
| Geometry.BlockedIffClosestBeforeLight | js/LightBaking.js:1858-1874 | a light is blocked exactly when the closest hit is nearer than it |
| UvLayout.GridSizeFrom | js/LightBaking.js:2078 | the search returns the least g with g * g >= n |
| UvLayout.GridSize | js/LightBaking.js:2078 | `ceil(sqrt(n))` is the least g with g * g >= n, and positive for a non-empty mesh |
| UvLayout.GridSizeIsLeast | js/LightBaking.js:2078 | no smaller square holds n cells |
| UvLayout.RowInGrid | js/LightBaking.js:2116-2117 | the row `floor(i / g)` of a face lies in the grid |
| UvLayout.CellsAreDistinct | js/LightBaking.js:2116-2117 | each face gets a cell of the grid, and different faces get different cells |
| UvLayout.Params | js/LightBaking.js:2077-2089 | the grid has at least one cell per row |
| UvLayout.CellsTileUnitSquare | js/LightBaking.js:2088-2089 | the cells of a row exactly span [0, 1] |
| UvLayout.Shift | js/LightBaking.js:2097-2101 | every vertex moves by (dx, dy) |
| UvLayout.MovedFace | js/LightBaking.js:2105-2109 | scaling and moving keeps the vertex count |
| UvLayout.ShiftAndClip | js/LightBaking.js:2115-2125 | every placed vertex lies in the unit square |
| UvLayout.ShiftAndClipInside | js/LightBaking.js:2115-2125 | a vertex that lands inside the unit square is not clipped |
| UvLayout.CentreAt | js/LightBaking.js:2111-2125 | the placed face lies in the unit square and keeps its count |
| UvLayout.PlaceFace | js/LightBaking.js:2105-2125 | the placed face lies in the unit square and keeps its count |
| UvLayout.PlaceFaceInSquare | js/LightBaking.js:2105-2125 | a face no wider than the bounding box is placed inside its cell |
| UvLayout.GridCovers | js/LightBaking.js:2078 | every face index has a cell |
| UvLayout.LayoutMeshUV | js/LightBaking.js:2075-2128 | one triangle per face, each vertex in the unit square, and with a non-negative margin each face inside its own grid cell |
| UvLayout.CalcYOffset | js/LightBaking.js:883-913 | the uncentered mode keeps y, the others mirror it at the texture height |
| UvLayout.CalcYOffsetInvolution | js/LightBaking.js:883-913 | mirroring twice gives y back, and keeps a row inside the texture |
| UvLayout.Get2dVecs | js/LightBaking.js:1566-1579 | UVs are scaled to texels with y flipped |
| UvLayout.UncenteredRectIsTight | js/LightBaking.js:1014-1069 | the uncentered rectangle encloses the face's texels, meeting them at its left and bottom |
| UvLayout.CenteredRectInTexture | js/LightBaking.js:1014-1069 | the centred rectangle of a face is one cell wide and high and lies inside the texture |
| UvLayout.CellRectsDisjoint | js/LightBaking.js:1014-1069 | distinct cells have disjoint rectangles |
| UvLayout.CenteredRectsDisjoint | js/LightBaking.js:1014-1069 | distinct faces get disjoint centred rectangles |
| UvLayout.PackedRectWithinTexture | js/LightBaking.js:1014-1069 | a packed rectangle lies in the texture and has the face's packed size, both axes scaled by the width |
| UvLayout.Insert | js/LightBaking.js:2182-2184 | insertion keeps the order by face index and adds exactly the element |
| UvLayout.SortByFaceIndex | js/LightBaking.js:2182-2184 | the result is sorted by face index and a permutation of the input |
| UvLayout.SortedPermutationUnique | js/LightBaking.js:2182-2184 | a sorted permutation of a list with increasing face indices is that list |
| UvLayout.ReSortRestoresFaceOrder | js/LightBaking.js:2143-2184 | however the packer reorders the faces, the re-sort gives them back in face order, one entry per face |
| UvLayout.PackedPoints | js/LightBaking.js:2188-2203 | defined exactly when the target scale is non-zero in both axes, one point per vertex |
| UvLayout.PackedPointsInsideInfo | js/LightBaking.js:2170-2211 | a face the packer placed inside the root, with a margin smaller than its texel size, keeps every point inside its info rectangle, at least half the margin from its edges, and that rectangle lies in the unit square |
| UvLayout.PackedLayout | js/LightBaking.js:2140-2215 | one UV list and one info record per face, in face order |
| Texels.Ceil | js/LightBaking.js:3309-3314 | `Math.ceil` is the least integer not below x |
| Texels.LumelOffset | js/LightBaking.js:3510-3514 | a lumel's byte offset is a multiple of 4 |
| Texels.LumelOffsetIsTexelOffset | js/LightBaking.js:3510-3562 | the offset is `(tw * floor(y) + floor(x)) * 4`, the same as `calcTextureOffset` |
| Texels.ToUint8 | js/LightBaking.js:3566-3568 | a `Uint8Array` store keeps bytes and otherwise wraps modulo 256 |
| Texels.ChannelToByte | js/LightBaking.js:3485 | a channel in [0, 1] times 255, rounded up, is a byte the store keeps; 0 and 1 map to 0 and 255 |
| Texels.SetLumel | js/LightBaking.js:3560-3573 | in range, only bytes ai..ai+3 change and they become (r, g, b, 255); otherwise nothing changes |
| Texels.SetLumelColor | js/LightBaking.js:3560-3573 | the buffer becomes SetLumel of the old buffer at the lumel's offset |
| Texels.GetLumelColor | js/LightBaking.js:3575-3588 | the stored colour in range, black otherwise |
| Texels.SetLumelFrame | js/LightBaking.js:3560-3573 | bytes outside the lumel are unchanged |
| Texels.SetLumelOutOfRange | js/LightBaking.js:3560-3588 | at offset 0 or past the end nothing is written and the read gives black |
| Texels.ReadAfterWrite | js/LightBaking.js:3560-3588 | reading a written lumel gives the stored colour, with alpha 255 |
| Texels.SetLumelOverwrites | js/LightBaking.js:3560-3573 | the second write to a lumel wins |
| Texels.SetLumelCommutes | js/LightBaking.js:3560-3573 | writes to different lumels commute |
| Texels.PaintLumel | js/LightBaking.js:3412-3486 | painting a texel keeps the buffer size |
| Texels.ScanRow | js/LightBaking.js:3389-3487 | scanning a row keeps the buffer size |
| Texels.ScanRows | js/LightBaking.js:3387-3489 | scanning the rows keeps the buffer size |
| Texels.ScanFace | js/LightBaking.js:3387-3489 | the nested loops compute the row-by-row scan of the face's rectangle |
| Texels.ScanRowPaintsFirstRun | js/LightBaking.js:3389-3410 | a row paints exactly its first run of accepted texels and stops at the first rejected texel after it |
| Texels.FirstRunHoldsEveryInsideTexel | js/LightBaking.js:3398-3410 | for the triangle test, no accepted texel of the row lies past the first run, so the `acc` break skips nothing |
| Texels.PaintRunFrame | js/LightBaking.js:3389-3487 | painting a run leaves every byte outside it unchanged |
| Texels.PaintRunStores | js/LightBaking.js:3412-3487 | each texel of a run holds the colour the renderer gave for it |
| Texels.ScanFaces | js/LightBaking.js:3345-3497 | scanning the faces keeps the buffer size |
| Texels.BakeFace | js/LightBaking.js:3347-3489 | one face's loop computes the scan of that face's rectangle |
| Texels.LightMapGenerationPerLumel | js/LightBaking.js:3285-3500 | nothing is baked for a pass below 1; otherwise a fresh zeroed buffer of tw*th*4 bytes is scanned face by face over the face range |
| Texels.ScanRowKeepsTexelZero | js/LightBaking.js:3564 | a row scan never writes texel 0 |
| Texels.ScanRowsKeepTexelZero | js/LightBaking.js:3564 | a face scan never writes texel 0 |
| Texels.ScanFacesKeepTexelZero | js/LightBaking.js:3564 | the bake never writes texel 0 |
| Filter.Neighbourhood | js/LightBaking.js:2836-2845 | nine taps, in loop order |
| Filter.ToInt32 | js/LightBaking.js:2854-2856 | `x or 0` gives a signed 32-bit integer, the floor of a non-negative value in range |
| Filter.ClampByte | js/LightBaking.js:2862-2879 | the clamps keep a byte |
| Filter.KernelIsAverage | js/LightBaking.js:2791-2797 | the box kernel's weights are non-negative and sum to 1 |
| Filter.BoxChannelIsFlooredMean | js/LightBaking.js:2836-2879 | on byte data the weighted sum lies in [0, 255] and the filtered channel is its floor |
| Filter.BoxFilterKeepsFlatRegions | js/LightBaking.js:2836-2879 | a texel whose neighbourhood has one value keeps it |
| Filter.KernelRow | js/LightBaking.js:2837-2847 | one kernel row adds its three taps to the channel sums |
| Filter.Convolve | js/LightBaking.js:2831-2848 | the kernel loops compute the weighted sums of the three channels |
| Filter.FilterTexel | js/LightBaking.js:2831-2884 | only the texel's four entries are set: the filtered colour and the copied alpha |
| Filter.FilterRow | js/LightBaking.js:2829-2886 | after a row every texel before the next row's first is final |
| Filter.ApplyBoxFilter | js/LightBaking.js:2807-2900 | the new array holds exactly the filtered entries: interior texels filtered, alpha copied, all others unassigned |
| Filter.FilledEverything | js/LightBaking.js:2827-2887 | once no later texel is ever assigned, the whole array is final |
| Filter.EntriesOfTexel | js/LightBaking.js:2850-2884 | the entries of texel t are 4t..4t+3 |
| PathTrace.WeightIndirect | js/LightBaking.js:3804-3812 | positive indirect light is scaled and clipped to [0, 1]; otherwise it passes unchanged |
| PathTrace.BeyondLimitIsBlack | js/LightBaking.js:3746-3750 | past the recursion limit a segment is black and traces no ray |
| PathTrace.RaysTracedBounded | js/LightBaking.js:3746-3801 | a path traces at least one ray and no more than the levels left; recursion happens only below the limit |
| PathTrace.LimitZeroIsDirect | js/LightBaking.js:3746-3814 | with limit 0 the colour is the direct light |
| PathTrace.FirstSegmentAddsIndirect | js/LightBaking.js:3765-3814 | the first segment is direct light plus the weighted indirect light of the bounce, untinted |
| PathTrace.RenderDependsOnPathOnly | js/LightBaking.js:3737-3815 | the colour depends only on the oracle's answers along the path |
| PathTrace.CalculateLumelColor | js/LightBaking.js:3706-3722 | the sample loop adds the paths to the existing colour and divides by `samples` |
| PathTrace.MeanOfEqualPaths | js/LightBaking.js:3706-3722 | the mean of equal paths is that path's colour |
| PathTrace.LumelIsMeanOfPaths | js/LightBaking.js:3706-3722 | from black, equal paths give their colour, and 0 samples give black |

## Left out

- `zipFun` (import and export of baked scenes): JSZip, Blob and file downloads are I/O.
- Canvas and debug output (`previewLightmaps`, `getCanvas`, `paintGrid`, `paintBBx`, `debugLightMaps`, `visDebugThisFun`, `previewLightmapsExtension`): DOM drawing.
- `colorizeFace`, the FLATFAST canvas fill: DOM drawing.
- `debugColorizeUVOffset` in the two-pass branch: a debug colour.
- `debugText` logging: no model effect.
- `updateLightMapTextureOnMesh`: it builds a three.js `DataTexture`.
- The worker transport (`new Worker`, `postMessage`, `importScripts`, `importScene`, `sceneToJSON`, `toJSON`, `JSON.parse`) is modelled as calls:
  - a message is the call it triggers;
  - a posted message is an entry of `Worker.Context.outbox`.
- The Setup messages of `initializeWorker` and the `terminateAll` call: they are transport.
- Main-thread `run` in MULTITHREADED mode is not modelled:
  - the `onTaskMessage` callback that copies a result into the mesh (js/LightBaking.js:3037-3070);
  - the loop that appends one task per mesh or face.
  The pool's own operations are modelled.
- `raycasterFunCtor` (`THREE.Raycaster`, `THREE.Octree`) and `GrowingPacker` are foreign code:
  - hit lists and the packer's placements are inputs;
  - the scene's ray casting and shading are an oracle of `PathTrace`.
- Code built on trigonometry, square roots, `Math.random`, `Math.exp` or `Math.pow` is left out:
  - `flattenFace`, `getRotationMatrix`, `vNormalize`;
  - the normalisation in `getLambert`;
  - `generateRayDirection` and the random light points;
  - `calcLightAttenuation`;
  - the Gaussian kernel.
  Faces arrive flattened, and sample rays are a parameter.
- The two-pass renderer (`getDirectColor`, `secondPassRT`) and the surface colour lookups are the scan's colour parameter.
- Asynchronous texture loading in `bakingSetup`, `setTimeout`, `Date.now` and `log`: no bearing on the modelled state.
- The ASYNC mode's `setTimeout` is modelled as an immediate call.
- The unused `sort` helper and the UI files (js/Sidebar.LightBaking.js, js/LightBakingDemo.js): not part of the baker.
- Floating point: `real` is exact arithmetic, so there is no rounding, no NaN and no Infinity; a division by zero is a `None` result instead.
- `__onFaceBaked` is never registered, and `texBuf` is always undefined where `lightMapGenerationPerLumel` is called, so that branch is left out.
- `WorkerPool.Pool.OnMessage`: each call states when `onTasksFinished` runs. "Exactly once over a run" depends on the order of worker replies and is not stated as a lemma over message sequences.
- `PassBarrier.Barrier.OnMeshBaked` requires that a notification comes from an issued bake. That `_bakeMesh` notifies once per mesh of the bake list (those meshes have faces, `BakingSetup.BakeMeRule`) is not proved inside one member.
- `Worker.FilterResultsShape`: a result message carries the worker id, the intent and the mesh uuid. `uvInfo` is left out; the pixel data come from a parameter, because they are the renderer's output; the lightmap UVs are represented by their count.
- `Filter.ApplyBoxFilter`: only the BOX kernel is modelled. The GAUSS kernel needs `Math.exp` and skips the `or 0` truncation.
- `UvLayout.PackedRectWithinTexture` and `UvLayout.CenteredRectInTexture`: these state calcFaceOffset's rectangles for given UVs. The rendering mode that selects them is a parameter.
- TWOPASS passes above 2 are rejected by the constructor, so the `default` branch of the pass switch is left out.
- Callbacks a user registers with `setOnMeshBaked` run beside the barrier's. The model has only the barrier's closure, because the others are caller code.
