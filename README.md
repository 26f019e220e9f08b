# bevy_basic_portals, modelled in Dafny

bevy_basic_portals is a Bevy plugin that renders portals. A portal is a mesh
whose material shows the image a *portal camera* renders. Each frame the plugin
places that camera where the main camera would be if it stood behind the
destination of the portal. Every portal is made of four entities: the main
camera, the portal, the destination and the portal camera. A `PortalParts`
record names all four, and the portal, the destination and the portal camera
each carry a `PortalPart` back reference to that record.

This project models the four phases of the plugin and proves properties of
each:

- **Creation** (`Create`, from `src/portals/create.rs`). The main camera is
  chosen. An image of the main camera's viewport size (or 100 by 100) and a
  portal material are added. The destination is used, spawned, or spawned as a
  mirror. Then the portal camera and the record are spawned and wired up.
- **The per-frame update** (`Update`, from `src/portals/update.rs`):
  - `update_portal_cameras` resizes each portal image and moves each portal
    camera when something it depends on moved;
  - `update_portal_camera_frusta` replaces the near plane of each portal
    camera's frustum as its portal mode says.
- **Teardown** (`Despawn`, from `src/portals/despawn.rs`): the per-part
  despawn strategies, the fixed order in which a portal's parts are torn down,
  the entity command, and the sweep over parts whose record is gone.
- **Configuration** (`Api`, from `src/portals/api.rs`): the strategy presets,
  the defaults and the plugin setup.
- **The debug texture** (`Textures`, from `helpers/textures.rs`): the 8 by 8
  RGBA test pattern, filled in place into an array.

The data model works as follows:

- **The world** (`Ecs`) is a `World` object whose fields are the component
  tables (maps keyed by entity), the asset stores and the window sizes.
  Spawning takes the next id from a counter, so a spawned entity is always new.
- **Each system's command buffer** is a `Commands` object holding the log of
  actions queued into it: `Warn`, `DespawnChildren(e)`, `Despawn(e)`, or
  `Abort` for a panic. Nothing is queued after an `Abort`.
- **Each system loop** is a method whose loop invariant ties the state to a
  value-level fold over the records (`SweepActions`, `UpdateFold`,
  `FrustaFold`). The lemmas about those folds state what the loop as a whole
  guarantees.
- **Arithmetic** is glam's vector, matrix and affine algebra over the reals
  (`Geometry`). The floating-point algorithms of the engine (reciprocal,
  reciprocal length, scale/rotation decomposition, `look_to`, frustum
  extraction) are the fields of a `Numerics` record the caller supplies.
  `Sound(num)` states the only laws of them the proofs rely on: `recip(x) * x
  == 1` for non-zero `x`, and that the reciprocal length is the positive root
  of `1 / |v|^2`.

Where the documentation and the code disagree, the model follows the code:

- The doc comment on the plugin's `despawn_strategy` field (`src/portals/api.rs:24`)
  says the default despawns "all entities and children". `DESPAWN_AND_WARN`
  (`src/portals/api.rs:80-85`) uses `WarnThenDespawnEntity`, which despawns
  the entity without an explicit despawn of its children. The model,
  `TeardownDespawnAndWarn` and `StrategyDefaults` follow the calls the code
  makes: they record a `Despawn` and no `DespawnChildren`. In the engine
  version these files are written against, despawning an entity also
  despawns its children, so the doc comment may well describe the effect.
- The source files come from slightly different versions of the engine API:
  - `create.rs` reads the render target as its own component, and `update.rs`
    reads it as `main_camera.target`;
  - `material.rs` declares the portal material without the `mirror_u` and
    `mirror_v` fields that `create.rs` sets.

  The model has one `Camera` with a `target`, and a `PortalMaterial` with both
  flags, as `create.rs` and `update.rs` use them.

## Model

| member | source | states |
|---|---|---|
| Api.DestinationFromTransform | src/portals/api.rs:211-218 | the destination built from a transform is the default destination with exactly that transform |
| Api.StrategyTrichotomy | src/portals/api.rs:127-143 | a strategy panics iff it is Panic, despawns iff it is one of the four despawn variants, and does nothing else iff it is Leave; panicking and despawning exclude each other |
| Api.WarnAndChildrenImplyDespawn | src/portals/api.rs:127-143 | only despawning strategies warn or despawn children; Panic and Leave do neither |
| Api.DespawnVariantsDetermined | src/portals/api.rs:109-143 | two despawning strategies are equal iff they agree on warning and on despawning children |
| Api.PresetsLeaveMainCamera | src/portals/api.rs:79-107 | every preset leaves the main camera alone |
| Api.PresetsUniform | src/portals/api.rs:79-107 | each preset gives the portal, destination and portal camera one strategy: warn-then-despawn, panic, despawn, despawn with children |
| Api.StrategyDefaults | src/portals/api.rs:73-77 | the default parts strategy is DESPAWN_AND_WARN; the default part strategy warns and does not despawn children |
| Api.PluginDefaults | src/portals/api.rs:29-43 | the default plugin checks back references with no strategy given; MINIMAL does not check and uses PANIC |
| Api.MirrorAndModeDefaults | src/portals/api.rs:237-297 | the default mirror is the plane through the origin with normal X, mirroring u only; the default mode is the half-space frustum with no half-space and no switch |
| Api.CreatePortalDefaults | src/portals/api.rs:173-184 | a default CreatePortal creates an unparented, unmirrored destination at the identity, culls back faces, has layer 0, no main camera and no debug |
| Api.DebugDefaults | src/portals/api.rs:323-334 | debug elements are all shown by default, gray, unnamed |
| Ecs.Commands.constructor | src/portals/despawn.rs:40-41 | a new command buffer is empty |
| Ecs.Commands.Push | src/portals/despawn.rs:139-146 | queuing appends exactly that action to the buffer |
| Despawn.PartActions | src/portals/despawn.rs:130-150 | a part's actions: a panic alone with Panic; a despawn of exactly that entity iff the strategy despawns and the entity is addressable; at most three actions, all about that entity |
| Despawn.PartActionsTable | src/portals/despawn.rs:130-150 | the actions of each of the six strategies, one by one, and nothing but a panic for a gone entity |
| Despawn.PartActionsShape | src/portals/despawn.rs:137-146 | a despawn warns first iff the strategy warns, despawns children iff it says so, and ends with the despawn |
| Despawn.DespawnPortalPart | src/portals/despawn.rs:130-150 | appends exactly the part's actions to the buffer |
| Despawn.TeardownOrder | src/portals/despawn.rs:94-128 | without a panic the teardown is portal camera, destination, portal, main camera, in that order |
| Despawn.TeardownPanics | src/portals/despawn.rs:94-128 | the teardown panics iff one of the four strategies is Panic, and nothing after the panicking part runs |
| Despawn.TeardownDespawnAndWarn | src/portals/despawn.rs:94-128 | under DESPAWN_AND_WARN a live portal warns and despawns its camera, destination and portal, and leaves the main camera |
| Despawn.PresetsSpareMainCamera | src/portals/despawn.rs:94-128 | no preset despawns a main camera, or its children, unless it is also another part |
| Despawn.DespawnPortalParts | src/portals/despawn.rs:81-128 | appends exactly the teardown of the record |
| Despawn.DealWithPartQueryError | src/portals/despawn.rs:194-228 | whatever the query error and part, the whole portal is torn down under the strategy |
| Despawn.ApplyDespawnPortalPartsCommand | src/portals/despawn.rs:38-47 | a fresh buffer receives exactly the teardown of the record |
| Despawn.ResolveParts | src/portals/despawn.rs:61-64 | an entity with a PortalPart resolves to its referenced record, or to nothing when that is gone; otherwise it resolves to its own record |
| Despawn.ResolveNoFallback | src/portals/despawn.rs:61-64 | a part whose record is gone does not fall back to a record of its own |
| Despawn.EntityCommandUnresolved | src/portals/despawn.rs:66-73 | an unresolved entity only gets a warning and nothing is despawned |
| Despawn.EntityCommandSamePortal | src/portals/despawn.rs:61-67 | the entity command on any two parts of one live portal tears down that portal, the same way |
| Despawn.ApplyEntityCommand | src/portals/despawn.rs:53-78 | appends exactly the teardown of the resolved record, or one warning |
| Despawn.SweepOne | src/portals/despawn.rs:162-188 | a part whose record exists queues nothing; an orphan that is none of the three parts queues one warning; any despawn is of that part and only when it is an orphan |
| Despawn.SweepAbortStable | src/portals/despawn.rs:162-189 | once the sweep has panicked the remaining parts add nothing |
| Despawn.SweepTargetsOnlyOrphans | src/portals/despawn.rs:162-189 | the whole sweep despawns only visited parts whose record is gone |
| Despawn.SweepDespawnsOrphans | src/portals/despawn.rs:162-189 | a sweep that does not panic despawns every live orphan whose strategy despawns |
| Despawn.SweepPanics | src/portals/despawn.rs:162-189 | an orphan whose strategy is Panic makes the sweep panic |
| Despawn.SweepPart | src/portals/despawn.rs:163-188 | appends exactly the part's sweep actions and reports whether they panicked |
| Despawn.CheckPortalPartsBackReferences | src/portals/despawn.rs:153-190 | visiting each part once, appends exactly the sweep over the parts in query order, stopping at a panic |
| Despawn.SweepDespawnAndWarnNeverPanics | src/portals/despawn.rs:162-189 | under the default strategy the sweep never panics |
| Despawn.BuildDespawn | src/portals/despawn.rs:14-30 | the resource is the given strategy or the default one; the sweep runs iff back references are checked |
| Despawn.BuildDespawnPlugins | src/portals/despawn.rs:14-30 | the default plugin installs DESPAWN_AND_WARN with the sweep; MINIMAL installs PANIC without it |
| Geometry.AffineToTransform | src/portals/update.rs:158 | converting a global transform back keeps its translation |
| Geometry.MatMulAdjugate | src/portals/update.rs:372 | a matrix times its adjugate is its determinant times the identity |
| Geometry.MatMulInverse3 | src/portals/update.rs:372 | the inverse of an invertible matrix is a right inverse |
| Geometry.ComposeApplies | src/portals/update.rs:371-373 | applying a product of affine maps applies the right one first |
| Geometry.ComposeAffineInverse | src/portals/update.rs:372 | an invertible affine map composed with its inverse is the identity |
| Geometry.InverseCancels | src/portals/update.rs:371-373 | (p * p^-1) * m == m for invertible p |
| Geometry.TransformToAffineIdentity | src/portals/create.rs:255 | the identity transform gives the identity global transform |
| Geometry.NormalizeIsUnit | src/portals/update.rs:307 | a normalized non-zero vector has unit length |
| Geometry.NormalizeUnit | src/portals/update.rs:307 | normalizing a unit vector leaves it unchanged |
| Geometry.NewHalfSpaceDistance | src/portals/update.rs:310-311 | the signed distance to a new half-space is the plane equation scaled by the reciprocal normal length |
| Geometry.NewHalfSpaceNormal | src/portals/update.rs:310-311 | a new half-space keeps the direction of its normal |
| Update.MirrorVecNormal | src/portals/update.rs:391-394 | mirroring negates the component along the normal |
| Update.MirrorVecOrthogonal | src/portals/update.rs:391-394 | mirroring keeps every component orthogonal to the normal |
| Update.MirrorVecInvolution | src/portals/update.rs:391-394 | mirroring twice gives the vector back |
| Update.MirrorPointDistance | src/portals/update.rs:397-398 | a mirrored point is as far behind the plane as it was in front |
| Update.MirrorPointInvolution | src/portals/update.rs:397-398 | mirroring a point twice gives it back |
| Update.MirrorPointOnPlane | src/portals/update.rs:397-398 | points of the mirror plane stay put |
| Update.MirrorTransform | src/portals/update.rs:396-403 | mirroring a transform keeps its scale |
| Update.MirrorTransformReflects | src/portals/update.rs:396-403 | the mirrored transform sits at the reflected position, mirroring again restores it, and the forward and up passed to look_to are the reflected ones |
| Update.PortalCameraTransform | src/portals/update.rs:365-388 | without a mirror the portal camera is destination * portal^-1 * main camera |
| Update.PortalCameraMapsThroughPortal | src/portals/update.rs:371-374 | a point seen by the portal camera is the main camera's point taken from portal space into destination space |
| Update.PortalCameraSelfDestination | src/portals/update.rs:371-374 | a portal leading to itself puts its camera exactly on the main camera |
| Update.PortalCameraMirrored | src/portals/update.rs:376-385 | with a mirror the camera position is the unmirrored one reflected in the world-space mirror plane |
| Update.ViewportSize | src/portals/update.rs:330-353 | an explicit viewport wins; otherwise the size of the targeted image, window or texture view, if known; for the primary window, a size exactly when one marked entity is a window, and then that window's size |
| Update.ResizeImage | src/portals/update.rs:226-262 | the resize panics iff the portal image is missing |
| Update.ResizeImageSpec | src/portals/update.rs:233-261 | it reports a resize iff the viewport size is known and differs; the image takes that size iff the material exists; no other image changes |
| Update.ResizeIdempotent | src/portals/update.rs:240-255 | after a resize the next frame does not resize again |
| Update.ResizeWithoutMaterial | src/portals/update.rs:248-261 | without its material, whenever the viewport size is known and differs from the image's, the image keeps its size and the mismatch is reported again |
| Update.ViewportSizeIgnoresOtherImages | src/portals/update.rs:330-353 | resizing an image that a camera does not target leaves that camera's viewport size unchanged |
| Update.ResizeImageIfNeeded | src/portals/update.rs:226-262 | changes the images exactly as the resize says and returns its report, or panics |
| Update.HalfSpaceNormal | src/portals/update.rs:284-293 | without a half-space the near normal is the destination's forward with offset 0; with one, its offset comes from it |
| Update.SwitchNormal | src/portals/update.rs:295-303 | the normal is kept or negated, kept without switch, and with switch never points towards the camera |
| Update.GetFrustum | src/portals/update.rs:266-327 | only the near half-space may differ from the projection's frustum, and only when the mode has a frustum |
| Update.HalfSpaceNearBehindDestination | src/portals/update.rs:305-311 | in half-space mode the destination lies d + 0.00001 outside the near plane |
| Update.DefaultModeNearPlane | src/portals/update.rs:283-311 | in the default mode the near plane faces along the destination's forward with the destination 0.00001 outside it |
| Update.SwitchedNearFacesAway | src/portals/update.rs:295-311 | with switch the near normal points away from the portal camera |
| Update.SphereNearThroughTangent | src/portals/update.rs:313-321 | in sphere mode the near plane passes through the tangent point |
| Update.SphereNearCentre | src/portals/update.rs:313-321 | in sphere mode the sphere's centre is at the given distance inside the near plane |
| Update.PortalCameraPassFrame | src/portals/update.rs:60-165 | one record touches only its portal camera and that camera's image; commands are only appended |
| Update.PortalCameraPassMissingPart | src/portals/update.rs:62-131 | a record with a missing part only appends the teardown of its portal |
| Update.PortalCameraPassMoves | src/portals/update.rs:133-164 | with all parts found, the camera takes the new pose iff something moved, and its projection is marked changed iff the image was resized |
| Update.PortalCameraPassSelfDestination | src/portals/update.rs:146-164 | a self-destination portal camera lands on the main camera once it moves |
| Update.UpdateFoldAbortStable | src/portals/update.rs:60-165 | once a record has panicked, the remaining records change nothing |
| Update.UpdateFoldOnlyPortalCameras | src/portals/update.rs:60-165 | over the loop, entities that are no visited record's portal camera keep their transforms and change flags |
| Update.UpdatePortalCamera | src/portals/update.rs:62-164 | one iteration changes the frame exactly as the value-level pass does |
| Update.MovePortalCamera | src/portals/update.rs:133-164 | the resize and move step changes the frame exactly as the value-level pass does |
| Update.UpdatePortalCameras | src/portals/update.rs:37-166 | visiting each record once, the system changes the frame exactly as the fold over the records does |
| Update.FrustumPass | src/portals/update.rs:191-221 | only the record's own portal camera frustum may change, and not at all unless it moved or its projection changed; commands are only appended |
| Update.FrustumPassRecomputes | src/portals/update.rs:191-221 | a portal camera that moved or whose projection changed gets get_frustum of its destination with nothing logged, or its portal is torn down when the destination is missing |
| Update.FrustaFoldAbortStable | src/portals/update.rs:191-222 | once a record has panicked, the remaining records change nothing |
| Update.FrustaFoldOnlyChanged | src/portals/update.rs:181-221 | a frustum of a camera that neither moved nor changed projection is left as it was |
| Update.UpdatePortalCameraFrustum | src/portals/update.rs:193-221 | one iteration changes the frusta and log exactly as the value-level pass does |
| Update.UpdatePortalCameraFrusta | src/portals/update.rs:177-223 | visiting each record once, the system changes the frusta and log exactly as the fold over the records does, and nothing else |
| Update.RecomputeFrusta | src/portals/update.rs:191-222 | the loop over the listed records changes the frusta and log exactly as the fold does, and nothing else |
| Create.MainCameraChoice | src/portals/create.rs:191-195 | a given entity is the main camera if it is a camera and a panic otherwise; with none given, the query's first camera, or a panic when there is no camera |
| Create.ImageSize | src/portals/create.rs:197-201 | the image takes the viewport size, or 100 by 100 when it is unknown |
| Create.ImageSizeCases | src/portals/create.rs:197-201 | an explicit viewport wins; a missing target image or no single primary window gives 100 by 100 |
| Create.DestinationMirror | src/portals/create.rs:232-273 | Use gives no mirror; Create gives its configured mirror and flags; CreateMirror mirrors in the X plane through the origin, flipping u only |
| Create.MaterialFlag | src/portals/create.rs:279-280 | a flag is 0 or 1, and 1 iff it is set |
| Create.MaterialFlagRoundTrip | src/portals/create.rs:279-280 | a 0/1 flag reads back as the boolean it came from |
| Create.PortalMaterialFor | src/portals/create.rs:276-281 | the material shows the portal image, has the cull mode, and sets each flag iff the destination mirrors that axis |
| Create.MaterialFlagsNeedMirror | src/portals/create.rs:232-281 | only a mirrored destination sets a material flag; a used destination sets none |
| Create.CreateMirrorIsDefaultMirror | src/portals/create.rs:263-272 | CreateMirror sets up the same mirror as Create with the default mirror configuration |
| Create.HalfTurnYIsRotation | src/portals/create.rs:265 | the mirror's half turn about Y is an orthonormal rotation of determinant 1, its own inverse, turning forward to +Z and keeping up |
| Create.PortalCameraCamera | src/portals/create.rs:289-293 | the portal camera renders to the portal image with order -1 and no viewport |
| Create.SettingsOf | src/portals/create.rs:286-308 | each copied setting is the main camera's own, or the default when it has none |
| Create.CreatedPartsResolve | src/portals/create.rs:325-348 | after creation the portal, portal camera and destination resolve to the new record, so the sweep leaves all three alone |
| Create.CreatedPortalCamera | src/portals/create.rs:284-322 | the portal camera has everything it is spawned with and the main camera's settings |
| Create.CreatedDestination | src/portals/create.rs:232-273 | the destination gets its PortalDestination with the source's mirror; a used one keeps its transforms |
| Create.CreatedDestinationParent | src/portals/create.rs:258-269 | a created destination gets its configured parent, a mirror the portal, and a used one keeps its own |
| Create.CreatedSpawnedDestination | src/portals/create.rs:253-257 | a created destination gets its transform and the matching global transform |
| Create.CreatedMirrorDestination | src/portals/create.rs:264-270 | a mirror destination gets the half turn about Y |
| Create.CreatedPortal | src/portals/create.rs:325-340 | the portal loses CreatePortal and gains Portal and the material; the record names the four parts; meshes and other portals are untouched |
| Create.CreatedKeepsMainCamera | src/portals/create.rs:284-322 | the main camera and its settings are untouched |
| Create.AddImage | src/portals/create.rs:229 | a new image handle of the given size; nothing else changes |
| Create.AddMaterial | src/portals/create.rs:276-281 | a new material handle for the material; nothing else changes |
| Create.PlannedEntitiesFresh | src/portals/create.rs:232-332 | the spawned entities are new and distinct from each other and from the main camera; only a used destination may already exist |
| Create.PlannedEntitiesBelow | src/portals/create.rs:253-332 | spawning them keeps every id below the entity counter |
| Create.ApplyCreation | src/portals/create.rs:232-348 | the queued spawns and inserts, applied in queue order, produce exactly the created components and motion |
| Create.CreateParts | src/portals/create.rs:209-348 | the image, the material and the queued spawns and inserts, with the handles and ids taken in source order |
| Create.CreatePortalWith | src/portals/create.rs:164-348 | panics iff no main camera is found or a used destination does not exist; a missing main camera leaves the world unchanged; a missing destination panics after only the image and the material are added; otherwise creates the portal of the chosen camera with an image of its viewport size |
| Create.CreatePortalOnAdd | src/portals/create.rs:140-158 | returns without effect iff the entity lacks CreatePortal, Transform or mesh; otherwise has the whole effect of create_portal with its CreatePortal: panics iff that panics, nothing changed without a main camera, only the image and material with a missing destination, the whole new state when created |
| Create.ApplyCreatePortalCommand | src/portals/create.rs:103-132 | panics without effect when Transform or mesh is missing, or with no configuration anywhere; otherwise has the whole effect of create_portal with the command's configuration, or else the entity's |
| Textures.ScaledPalette | helpers/textures.rs:19 | every palette byte divided by the darkness; none exactly when the division by zero panics |
| Textures.RotateRight | helpers/textures.rs:25 | rotating right by k moves the last k elements to the front in order |
| Textures.RotatedIndex | helpers/textures.rs:22-26 | after n rotations by one pixel, byte i is byte (i - 4n) mod 32 of the palette |
| Textures.RowsRow | helpers/textures.rs:22-26 | row y of the fill is the palette rotated by y pixels |
| Textures.TexturePattern | helpers/textures.rs:11-39 | the texture holds 8 * 8 * 4 bytes, row y is the scaled palette rotated by y pixels, row 0 is the scaled palette |
| Textures.RowSlicesPartition | helpers/textures.rs:22-24 | the row slices cover the texture exactly once |
| Textures.PixelsIntact | helpers/textures.rs:22-26 | every row keeps whole pixels: pixel x of row y is palette pixel (x - y) mod 8 |
| Textures.ScaledPaletteBounds | helpers/textures.rs:19 | darkness 1 keeps the palette and a darker factor never brightens a byte |
| Textures.CopyIntoSlice | helpers/textures.rs:24 | the slice takes the source bytes and the rest of the array is unchanged |
| Textures.RotateRightInPlace | helpers/textures.rs:25 | the array becomes its right rotation |
| Textures.FillTexture | helpers/textures.rs:21-26 | the filled array is the pattern's rows |
| Textures.UvDebugTexture | helpers/textures.rs:11-39 | panics iff the darkness is 0; otherwise a fresh 256-byte array holding the pattern |

## Left out

- `src/portals/process.rs`, `src/portals/projection.rs`, `src/portals/material.rs`, `src/picking/mod.rs`, the helpers' camera controllers and the examples are not part of this model.
- Floating point: all arithmetic is over exact reals. The engine's numerical routines are `Numerics` parameters: reciprocal, reciprocal length, scale/rotation decomposition, `look_to` and frustum extraction from a clip matrix. Only the laws in `Sound` are assumed of them. Rotations are kept as rotation matrices, not quaternions.
- Scheduling: system sets, ordering against transform propagation, and registration in `build_create`, `build_update` and `build_material` are left out. Bevy's change detection is modelled by the sets `changedGlobals` and `changedProjections`, which the caller sets up.
- The command buffer is a log of `Warn`, `DespawnChildren`, `Despawn` and `Abort`. Warning and panic texts are not modelled. Applying despawns to the world is not modelled.
- A panic is the `Abort` action, or a `Panicked`/`None` result. Nothing after it runs.
- `Despawn(e)` records the despawn call only. What it does to e's descendants is not modelled; the engine despawns them recursively, so once applied `DespawnChildren(e)` adds nothing to `Despawn(e)`.
- `Update.MirrorTransformReflects`: the orientation of the mirrored transform is not proved, because `look_to` is an abstract `Numerics` field. The lemma states only that the directions handed to it are the reflected ones.
- `Warn` is logged only where the despawn code warns. The other warnings and errors do not appear in the model.
- `Update.ResizeImage`: the warnings for an unknown viewport size (`src/portals/update.rs:236`) and for a missing image or material (`src/portals/update.rs:257`) are not logged.
- `Update.ResizeImageIfNeeded`: has the same two missing warnings. The asset-modified events that `get_mut` raises on the image and the material (`src/portals/update.rs:248-253`) are not modelled: the model has no asset events.
- `Create.ImageSize`: the error logged on the 100 by 100 fallback (`src/portals/create.rs:199`) is not modelled.
- `Create.CreatePortalOnAdd`: the error logged on the early return (`src/portals/create.rs:147`) is not modelled.
- `Create.CreatePortalWith`, `Create.CreateParts`, `Create.ApplyCreation`: the command buffer of `create_portal` is modelled as applied in queue order right away. Deferral is not modelled: neither what another system would see before the flush, nor a spawned entity that is despawned before the flush.
- `Create.CreatePortalWith`: a `Use` destination that does not exist is modelled as a panic of the command that inserts into it. The image and the material are added before that panic, and no entity is spawned.
- The debug elements of `create_portal` (`src/portals/create.rs:350-496`) are left out: debug window, debug camera, spheres, portal copy and UI.
- `Image::new_fill` and `debug_material` (`helpers/textures.rs:28-38`, `42-52`) are left out. The model stops at the 256 filled bytes.
- `Geometry.Inverse3`: the inverse is the scaled adjugate, glam's formula. A singular matrix yields whatever `recip` gives for zero. The inverse laws are proved only for a non-zero determinant.
- Entity ids, image handles and material handles are natural-number counters. Entity generations are not modelled.
- `Update.ViewportSize`: the primary-window query's `single()` succeeds only when exactly one entity carries the marker and is a window. Several such windows give no size.
- Spawned entities count as changed: a new GlobalTransform or Projection sets its change flag.
- `Create.CreatedMirrorDestination`: the mirror destination's GlobalTransform is the identity until transform propagation runs, which is not modelled. Its rotation by pi about Y is the exact matrix, not the float quaternion.
- `Ecs.World.Valid` states only that ids and handles lie below their counters.
- `Update.UpdatePortalCamera`: the query error an absent part reports (missing entity or missing components) only decides the warning text, so every error tears the portal down the same way.
