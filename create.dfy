/**
  Portal creation (`create_portal`, its observer and its entity command): the
  main camera is chosen, an image of the main camera's viewport size is added,
  the destination is used or spawned, a portal material is added, the portal
  camera is spawned with the main camera's settings, and one `PortalParts`
  record is spawned with a `PortalPart` back reference on the portal, the portal
  camera and the destination.

  The command buffer of the source is modelled as applied: each spawn takes the
  next entity id, each asset `add` the next handle, in the order the source
  issues them.
*/
module Create {
  import opened Wrappers
  import opened Geometry
  import opened Api
  import opened Ecs
  import opened Update
  import opened Despawn

  // ---------------------------------------------------------------- choices

  /**
    The main camera. A given entity is looked up and must be a camera; with no
    entity given, the first camera of the query's iteration order `order` is
    taken. `None` is the panic of either `unwrap`: the given entity is not a
    camera, or there is no camera at all.
  */
  function MainCameraChoice(explicit: Option<Entity>, order: seq<Entity>, cameras: map<Entity, Camera>): (r: Option<Entity>)
    requires forall i :: 0 <= i < |order| ==> order[i] in cameras
    requires forall e :: e in cameras ==> e in order
    ensures r.Some? ==> r.value in cameras
    ensures explicit.Some? ==> (r.Some? <==> explicit.value in cameras)
    ensures explicit.Some? && r.Some? ==> r.value == explicit.value
    ensures explicit.None? ==> (r.None? <==> cameras == map[])
    ensures explicit.None? && r.Some? ==> r.value == order[0]
  {
    match explicit
    case Some(e) => if e in cameras then Some(e) else None
    case None =>
      if |order| == 0 then None
      else Some(order[0])
  }

  /** The fallback size of the portal image when the viewport size is unknown. */
  const FallbackSize: UVec2 := UVec2(100, 100)

  /** The size of the portal image: the main camera's viewport size, or 100 by 100. */
  function ImageSize(camera: Camera, sizes: SizeParams): (r: UVec2)
    ensures ViewportSize(camera, sizes).Some? ==> r == ViewportSize(camera, sizes).value
    ensures ViewportSize(camera, sizes).None? ==> r == FallbackSize
  {
    match ViewportSize(camera, sizes)
    case Some(size) => size
    case None => FallbackSize
  }

  /** What a destination source gives: the destination's mirror plane and the two mirror flags. */
  datatype DestinationSetup = DestinationSetup(mirror: Option<(Vec3, Dir3)>, mirrorU: bool, mirrorV: bool)

  /** The destination's mirror and flags for each kind of destination source. */
  function DestinationMirror(src: PortalDestinationSource): (r: DestinationSetup)
    ensures r.mirror.None? ==> !r.mirrorU && !r.mirrorV
    ensures src.Use? ==> r.mirror.None?
    ensures src.Create? && src.config.mirror.None? ==> r.mirror.None?
    ensures src.Create? && src.config.mirror.Some? ==>
      var m := src.config.mirror.value;
      r.mirror == Some((m.origin, m.normal)) && r.mirrorU == m.mirrorU && r.mirrorV == m.mirrorV
    ensures src.CreateMirror? ==> r.mirror == Some((Zero, UnitX)) && r.mirrorU && !r.mirrorV
  {
    match src
    case Use(_) => DestinationSetup(None, false, false)
    case Create(config) =>
      (match config.mirror
       case Some(m) => DestinationSetup(Some((m.origin, m.normal)), m.mirrorU, m.mirrorV)
       case None => DestinationSetup(None, false, false))
    case CreateMirror => DestinationSetup(Some((Zero, UnitX)), true, false)
  }

  /** A mirror flag as the material stores it. */
  function MaterialFlag(b: bool): (n: nat)
    ensures n <= 1
    ensures n == 1 <==> b
  {
    if b then 1 else 0
  }

  /** The portal material for an image, a cull mode and a destination setup. */
  function PortalMaterialFor(image: ImageHandle, cullMode: Option<Face>, setup: DestinationSetup): (m: PortalMaterial)
    ensures m.colorTexture == Some(image) && m.cullMode == cullMode
    ensures m.mirrorU <= 1 && m.mirrorV <= 1
    ensures m.mirrorU == 1 <==> setup.mirrorU
    ensures m.mirrorV == 1 <==> setup.mirrorV
  {
    PortalMaterial(Some(image), cullMode, MaterialFlag(setup.mirrorU), MaterialFlag(setup.mirrorV))
  }

  /** The rotation by pi about the Y axis given to a created mirror destination. */
  const HalfTurnY: Mat3 := Mat3(Vec3(-1.0, 0.0, 0.0), UnitY, Vec3(0.0, 0.0, -1.0))

  /** The transform of a created mirror destination. */
  const MirrorDestinationTransform: Transform := Transform(Zero, HalfTurnY, One)

  /** A camera setting copied from the main camera, or the default one. */
  function CopiedSetting(m: map<Entity, Setting>, e: Entity): Setting {
    if e in m then m[e] else DefaultSetting
  }

  /** The main camera's projection, or the default one. */
  function CopiedProjection(m: map<Entity, Projection>, e: Entity): Projection {
    if e in m then m[e] else DefaultProjection
  }

  /** The camera component of a portal camera rendering to `image`. */
  function PortalCameraCamera(image: ImageHandle): (c: Camera)
    ensures c.order == -1 && c.target == ImageTarget(image) && c.viewport.None?
  {
    Camera(None, ImageTarget(image), -1)
  }

  // ---------------------------------------------------------------- lemmas

  /** Only a mirrored destination can set a mirror flag of the material. */
  lemma MaterialFlagsNeedMirror(src: PortalDestinationSource, image: ImageHandle, cullMode: Option<Face>)
    ensures var m := PortalMaterialFor(image, cullMode, DestinationMirror(src));
      (m.mirrorU == 1 || m.mirrorV == 1) ==> DestinationMirror(src).mirror.Some?
    ensures var m := PortalMaterialFor(image, cullMode, DestinationMirror(src));
      src.Use? ==> m.mirrorU == 0 && m.mirrorV == 0
  {
  }

  /** A 0/1 material flag reads back as the boolean it was made from. */
  lemma MaterialFlagRoundTrip(b: bool)
    ensures (MaterialFlag(b) != 0) == b
    ensures MaterialFlag(b) == 0 || MaterialFlag(b) == 1
  {
  }

  /**
    `CreateMirror` sets up the same mirror as a created destination with the
    default mirror configuration.
  */
  lemma CreateMirrorIsDefaultMirror(t: Transform, parent: Option<Entity>)
    ensures DestinationMirror(CreateMirror) ==
      DestinationMirror(Create(CreatePortalDestination(t, parent, Some(DefaultMirrorConfig))))
  {
  }

  /**
    The half turn about Y is a rotation (orthonormal, determinant 1), is its own
    inverse, and turns the forward direction -Z into +Z while keeping up.
  */
  lemma HalfTurnYIsRotation()
    ensures MatMul(Transpose(HalfTurnY), HalfTurnY) == Identity3
    ensures MatMul(HalfTurnY, HalfTurnY) == Identity3
    ensures Determinant(HalfTurnY) == 1.0
    ensures TransformForward(MirrorDestinationTransform) == UnitZ
    ensures TransformUp(MirrorDestinationTransform) == UnitY
  {
  }

  /** A viewport always wins over the render target, and the fallback is 100 by 100. */
  lemma ImageSizeCases(camera: Camera, sizes: SizeParams)
    ensures camera.viewport.Some? ==> ImageSize(camera, sizes) == camera.viewport.value.physicalSize
    ensures camera.viewport.None? && camera.target.ImageTarget? && camera.target.image !in sizes.images ==>
      ImageSize(camera, sizes) == UVec2(100, 100)
    ensures camera.viewport.None? && camera.target == Window(Primary) && |PrimaryWindowsFound(sizes)| != 1 ==>
      ImageSize(camera, sizes) == UVec2(100, 100)
  {
  }

  // ---------------------------------------------------------------- the created state

  /** The settings a portal camera takes from its main camera. */
  datatype CameraSettings = CameraSettings(
    projection: Projection,
    camera3d: Setting,
    tonemapping: Setting,
    dither: Setting,
    grading: Setting,
    exposure: Setting)

  /** The settings of camera `e`, each replaced by its default when `e` has none. */
  function SettingsOf(c: Components, e: Entity): (s: CameraSettings)
    ensures e in c.projections ==> s.projection == c.projections[e]
    ensures e !in c.projections ==> s.projection == DefaultProjection
    ensures e !in c.camera3ds && e !in c.tonemappings && e !in c.debandDithers
            && e !in c.colorGradings && e !in c.exposures ==>
      s.camera3d == s.tonemapping == s.dither == s.grading == s.exposure == DefaultSetting
  {
    CameraSettings(CopiedProjection(c.projections, e), CopiedSetting(c.camera3ds, e),
                   CopiedSetting(c.tonemappings, e), CopiedSetting(c.debandDithers, e),
                   CopiedSetting(c.colorGradings, e), CopiedSetting(c.exposures, e))
  }

  /** The parent a destination source gives the destination: none for a used entity, the portal for a mirror. */
  function DestinationParent(src: PortalDestinationSource, portalEntity: Entity): Option<Entity> {
    match src
    case Use(_) => None
    case Create(config) => config.parent
    case CreateMirror => Some(portalEntity)
  }

  /** `e` spawned with transform `t` and global transform `g`; a new GlobalTransform counts as changed. */
  function WithTransform(m: Motion, e: Entity, t: Transform, g: Affine): Motion {
    m.(transforms := m.transforms[e := t], globals := m.globals[e := g], changedGlobals := m.changedGlobals + {e})
  }

  /** The components after the destination step: its `PortalDestination` and, when it has one, its parent. */
  function DestinationComponents(c: Components, src: PortalDestinationSource, dest: Entity, portalEntity: Entity): Components {
    var parent := DestinationParent(src, portalEntity);
    c.(destinations := c.destinations[dest := PortalDestination(DestinationMirror(src).mirror)],
       childOf := if parent.Some? then c.childOf[dest := parent.value] else c.childOf)
  }

  /**
    The motion tables after the destination step: a used entity keeps its own;
    a created one gets its transform and the matching global transform; a
    mirror is rotated by pi about Y and keeps the default global transform.
  */
  function DestinationMotion(m: Motion, src: PortalDestinationSource, dest: Entity): Motion {
    match src
    case Use(_) => m
    case Create(config) => WithTransform(m, dest, config.transform, TransformToAffine(config.transform))
    case CreateMirror => WithTransform(m, dest, MirrorDestinationTransform, IdentityAffine)
  }

  /** The components after the portal camera is spawned with the settings `s`. */
  function PortalCameraComponents(c: Components, pc: Entity, image: ImageHandle, cfg: CreatePortal, s: CameraSettings): Components {
    c.(cameras := c.cameras[pc := PortalCameraCamera(image)],
       projections := c.projections[pc := s.projection],
       camera3ds := c.camera3ds[pc := s.camera3d],
       tonemappings := c.tonemappings[pc := s.tonemapping],
       debandDithers := c.debandDithers[pc := s.dither],
       colorGradings := c.colorGradings[pc := s.grading],
       exposures := c.exposures[pc := s.exposure],
       visibilities := c.visibilities[pc := Hidden],
       renderLayers := c.renderLayers[pc := cfg.renderLayer],
       portalCameras := c.portalCameras[pc := PortalCamera(image, cfg.portalMode)])
  }

  /** The portal camera's default transform, global transform and frustum; its projection counts as changed. */
  function PortalCameraMotion(m: Motion, pc: Entity): Motion {
    WithTransform(m, pc, IdentityTransform, IdentityAffine).(
      frusta := m.frusta[pc := DefaultFrustum],
      changedProjections := m.changedProjections + {pc})
  }

  /**
    The components after the record `p` is spawned: the portal loses
    `CreatePortal` and gets `Portal` and the material, and the portal, the
    portal camera and the destination get a `PortalPart` leading to `p`.
  */
  function WiredComponents(c: Components, p: Entity, parts: PortalParts, material: MaterialHandle): Components {
    c.(partsRecords := c.partsRecords[p := parts],
       partOf := c.partOf[parts.portal := p][parts.portalCamera := p][parts.destination := p],
       createPortals := c.createPortals - {parts.portal},
       portals := c.portals + {parts.portal},
       portalMaterialOf := c.portalMaterialOf[parts.portal := material])
  }

  /** How a creation ends: the new entities and handles, a panic, or the observer's early return. */
  datatype CreateOutcome =
    | Created(parts: Entity, mainCamera: Entity, portalCamera: Entity, destination: Entity,
              image: ImageHandle, material: MaterialHandle)
    | Panicked
    | Skipped

  /** The record of a created portal. */
  function PartsOf(o: CreateOutcome, portalEntity: Entity): PortalParts
    requires o.Created?
  {
    PortalParts(o.mainCamera, portalEntity, o.destination, o.portalCamera)
  }

  /** All component tables after a creation, from those before it. */
  function CreatedComponents(c: Components, portalEntity: Entity, cfg: CreatePortal, o: CreateOutcome): Components
    requires o.Created?
  {
    var c1 := DestinationComponents(c, cfg.destination, o.destination, portalEntity);
    var c2 := PortalCameraComponents(c1, o.portalCamera, o.image, cfg, SettingsOf(c, o.mainCamera));
    WiredComponents(c2, o.parts, PartsOf(o, portalEntity), o.material)
  }

  /** The motion tables after a creation, from those before it. */
  function CreatedMotion(m: Motion, cfg: CreatePortal, o: CreateOutcome): Motion
    requires o.Created?
  {
    PortalCameraMotion(DestinationMotion(m, cfg.destination, o.destination), o.portalCamera)
  }

  /** `create_portal` panics exactly when no main camera is found or the used destination does not exist. */
  predicate CreatePanics(live: set<Entity>, cameras: map<Entity, Camera>, cfg: CreatePortal, order: seq<Entity>)
    requires forall i :: 0 <= i < |order| ==> order[i] in cameras
    requires forall e :: e in cameras ==> e in order
  {
    || MainCameraChoice(cfg.mainCamera, order, cameras).None?
    || (cfg.destination.Use? && cfg.destination.entity !in live)
  }

  /** `e` is a portal part whose `PortalPart` leads to the record `parts`. */
  predicate PartResolvesTo(c: Components, e: Entity, parts: PortalParts) {
    ResolveParts(c, e) == Some(parts) && !Orphan(c, e)
  }

  /**
    `pc` is a portal camera rendering to `image` with order -1 and the settings
    `s`, hidden, on the portal's render layer, with the default transform,
    global transform and frustum, its projection and global transform changed.
  */
  predicate IsNewPortalCamera(c: Components, m: Motion, pc: Entity, image: ImageHandle, cfg: CreatePortal, s: CameraSettings) {
    && pc in c.cameras && c.cameras[pc] == PortalCameraCamera(image)
    && pc in c.projections && c.projections[pc] == s.projection
    && pc in c.camera3ds && c.camera3ds[pc] == s.camera3d
    && pc in c.tonemappings && c.tonemappings[pc] == s.tonemapping
    && pc in c.debandDithers && c.debandDithers[pc] == s.dither
    && pc in c.colorGradings && c.colorGradings[pc] == s.grading
    && pc in c.exposures && c.exposures[pc] == s.exposure
    && pc in c.visibilities && c.visibilities[pc] == Hidden
    && pc in c.renderLayers && c.renderLayers[pc] == cfg.renderLayer
    && pc in c.portalCameras && c.portalCameras[pc] == PortalCamera(image, cfg.portalMode)
    && pc in m.transforms && m.transforms[pc] == IdentityTransform
    && pc in m.globals && m.globals[pc] == IdentityAffine
    && pc in m.frusta && m.frusta[pc] == DefaultFrustum
    && pc in m.changedGlobals && pc in m.changedProjections
  }

  // ---------------------------------------------------------------- lemmas about the created state

  /**
    After a creation the portal, the portal camera and the destination each
    resolve to the new record, so the back-reference sweep leaves all three
    alone whatever the strategy.
  */
  lemma CreatedPartsResolve(live: set<Entity>, c: Components, portalEntity: Entity, cfg: CreatePortal,
                            o: CreateOutcome, st: PartsStrategy)
    requires o.Created?
    ensures var c' := CreatedComponents(c, portalEntity, cfg, o);
      && PartResolvesTo(c', portalEntity, PartsOf(o, portalEntity))
      && PartResolvesTo(c', o.portalCamera, PartsOf(o, portalEntity))
      && PartResolvesTo(c', o.destination, PartsOf(o, portalEntity))
    ensures var c' := CreatedComponents(c, portalEntity, cfg, o);
      && SweepOne(live, c', st, portalEntity) == []
      && SweepOne(live, c', st, o.portalCamera) == []
      && SweepOne(live, c', st, o.destination) == []
  {
  }

  /** The portal camera carries everything `create_portal` spawns it with, and the main camera's settings. */
  lemma CreatedPortalCamera(c: Components, m: Motion, portalEntity: Entity, cfg: CreatePortal, o: CreateOutcome)
    requires o.Created?
    ensures IsNewPortalCamera(CreatedComponents(c, portalEntity, cfg, o), CreatedMotion(m, cfg, o),
                              o.portalCamera, o.image, cfg, SettingsOf(c, o.mainCamera))
  {
  }

  /**
    The destination gets its `PortalDestination` with the source's mirror
    plane; a used one keeps its own transforms.
  */
  lemma CreatedDestination(c: Components, m: Motion, portalEntity: Entity, cfg: CreatePortal, o: CreateOutcome)
    requires o.Created? && o.destination != o.portalCamera
    ensures var c', d := CreatedComponents(c, portalEntity, cfg, o), o.destination;
      d in c'.destinations && c'.destinations[d] == PortalDestination(DestinationMirror(cfg.destination).mirror)
    ensures cfg.destination.Use? ==>
      var m', d := CreatedMotion(m, cfg, o), o.destination;
      && (d in m'.transforms <==> d in m.transforms)
      && (d in m.transforms ==> m'.transforms[d] == m.transforms[d])
      && (d in m.globals ==> d in m'.globals && m'.globals[d] == m.globals[d])
  {
  }

  /**
    The destination's parent: a used one keeps its own, a created one gets the
    configured parent, a mirror the portal.
  */
  lemma CreatedDestinationParent(c: Components, portalEntity: Entity, cfg: CreatePortal, o: CreateOutcome)
    requires o.Created?
    ensures var c' := CreatedComponents(c, portalEntity, cfg, o);
      && (cfg.destination.Use? ==> c'.childOf == c.childOf)
      && (cfg.destination.Create? && cfg.destination.config.parent.None? ==> c'.childOf == c.childOf)
      && (cfg.destination.Create? && cfg.destination.config.parent.Some? ==>
            c'.childOf == c.childOf[o.destination := cfg.destination.config.parent.value])
      && (cfg.destination.CreateMirror? ==> c'.childOf == c.childOf[o.destination := portalEntity])
  {
  }

  /** A created destination gets its transform and the matching global transform, both new. */
  lemma CreatedSpawnedDestination(m: Motion, cfg: CreatePortal, o: CreateOutcome)
    requires o.Created? && o.destination != o.portalCamera && cfg.destination.Create?
    ensures var m', d, t := CreatedMotion(m, cfg, o), o.destination, cfg.destination.config.transform;
      && d in m'.transforms && m'.transforms[d] == t
      && d in m'.globals && m'.globals[d] == TransformToAffine(t)
      && d in m'.changedGlobals
  {
  }

  /** A mirror destination gets the half turn about Y and the identity global transform. */
  lemma CreatedMirrorDestination(m: Motion, cfg: CreatePortal, o: CreateOutcome)
    requires o.Created? && o.destination != o.portalCamera && cfg.destination.CreateMirror?
    ensures var m', d := CreatedMotion(m, cfg, o), o.destination;
      && d in m'.transforms && m'.transforms[d] == MirrorDestinationTransform
      && d in m'.globals && m'.globals[d] == IdentityAffine
      && d in m'.changedGlobals
  {
  }

  /**
    The portal is a `Portal` with the new material and no `CreatePortal`; the
    record names the main camera, the portal, the destination and the portal
    camera; the mesh table and the other portals are untouched.
  */
  lemma CreatedPortal(c: Components, portalEntity: Entity, cfg: CreatePortal, o: CreateOutcome)
    requires o.Created?
    ensures var c' := CreatedComponents(c, portalEntity, cfg, o);
      && portalEntity in c'.portals && portalEntity !in c'.createPortals
      && portalEntity in c'.portalMaterialOf && c'.portalMaterialOf[portalEntity] == o.material
      && o.parts in c'.partsRecords && c'.partsRecords[o.parts] == PortalParts(o.mainCamera, portalEntity, o.destination, o.portalCamera)
      && c'.meshes == c.meshes
      && c'.portals - {portalEntity} == c.portals - {portalEntity}
  {
  }

  /** The camera and the settings of the main camera are untouched unless it is itself the portal camera. */
  lemma CreatedKeepsMainCamera(c: Components, portalEntity: Entity, cfg: CreatePortal, o: CreateOutcome)
    requires o.Created? && o.mainCamera != o.portalCamera
    ensures var c' := CreatedComponents(c, portalEntity, cfg, o);
      && (o.mainCamera in c.cameras <==> o.mainCamera in c'.cameras)
      && (o.mainCamera in c.cameras ==> c'.cameras[o.mainCamera] == c.cameras[o.mainCamera])
      && SettingsOf(c', o.mainCamera) == SettingsOf(c, o.mainCamera)
  {
  }

  // ---------------------------------------------------------------- creation steps

  /** `images.add`: the portal image of the given size. */
  method AddImage(w: World, size: UVec2) returns (h: ImageHandle)
    requires w.Valid()
    modifies w`images, w`nextImage
    ensures h == old(w.nextImage) && h !in old(w.images)
    ensures w.images == old(w.images)[h := size] && w.nextImage == h + 1
    ensures w.Valid()
  {
    h := w.nextImage;
    w.images := w.images[h := size];
    w.nextImage := w.nextImage + 1;
  }

  /** `portal_materials.add`. */
  method AddMaterial(w: World, m: PortalMaterial) returns (h: MaterialHandle)
    requires w.Valid()
    modifies w`materials, w`nextMaterial
    ensures h == old(w.nextMaterial) && h !in old(w.materials)
    ensures w.materials == old(w.materials)[h := m] && w.nextMaterial == h + 1
    ensures w.Valid()
  {
    h := w.nextMaterial;
    w.materials := w.materials[h := m];
    w.nextMaterial := w.nextMaterial + 1;
  }

  // ---------------------------------------------------------------- create_portal

  /**
    The entities and handles `create_portal` hands out, in the order it
    spawns and adds them: the image, the destination unless one is used, the
    material, the portal camera, the record.
  */
  function PlannedOutcome(next: nat, image: ImageHandle, material: MaterialHandle, main: Entity,
                          src: PortalDestinationSource): CreateOutcome {
    var dest := if src.Use? then src.entity else next;
    var pc := if src.Use? then next else next + 1;
    Created(pc + 1, main, pc, dest, image, material)
  }

  /**
    The planned entities are new and distinct from each other and from the
    main camera; a used destination is the only one that may already exist.
  */
  lemma PlannedEntitiesFresh(live: set<Entity>, next: nat, image: ImageHandle, material: MaterialHandle,
                             main: Entity, src: PortalDestinationSource)
    requires Below(live, next) && main in live
    requires src.Use? ==> src.entity in live
    ensures var o := PlannedOutcome(next, image, material, main, src);
      && o.portalCamera !in live && o.parts !in live
      && (src.Use? <==> o.destination in live)
      && o.portalCamera != o.mainCamera && o.parts != o.mainCamera
      && o.portalCamera != o.destination && o.parts != o.destination && o.parts != o.portalCamera
  {
  }

  /** Spawning the planned entities keeps every entity id below the counter. */
  lemma PlannedEntitiesBelow(live: set<Entity>, next: nat, o: CreateOutcome, src: PortalDestinationSource)
    requires Below(live, next) && o.Created?
    requires o == PlannedOutcome(next, o.image, o.material, o.mainCamera, src)
    requires src.Use? ==> src.entity in live
    ensures Below(live + {o.destination, o.portalCamera, o.parts}, o.parts + 1)
  {
  }

  /**
    The queued spawns and inserts of `create_portal`, applied in the order
    they are queued, for the planned outcome `o`.
  */
  method ApplyCreation(w: World, portalEntity: Entity, cfg: CreatePortal, o: CreateOutcome)
    requires Below(w.live, w.nextEntity) && o.Created? && o.mainCamera in w.live
    requires o == PlannedOutcome(w.nextEntity, o.image, o.material, o.mainCamera, cfg.destination)
    requires cfg.destination.Use? ==> cfg.destination.entity in w.live
    modifies w`live, w`nextEntity, w`c, w`m
    ensures Below(w.live, w.nextEntity)
    ensures w.live == old(w.live) + {o.destination, o.portalCamera, o.parts}
    ensures w.c == CreatedComponents(old(w.c), portalEntity, cfg, o)
    ensures w.m == CreatedMotion(old(w.m), cfg, o)
  {
    PlannedEntitiesBelow(w.live, w.nextEntity, o, cfg.destination);
    w.c := CreatedComponents(w.c, portalEntity, cfg, o);
    w.m := CreatedMotion(w.m, cfg, o);
    w.live := w.live + {o.destination, o.portalCamera, o.parts};
    w.nextEntity := o.parts + 1;
  }

  /**
    `create_portal` once the main camera `main` is known: the image and the
    material are added to their asset stores at once; the spawns and inserts
    are queued commands, here applied in the order they are queued.
  */
  method CreateParts(w: World, portalEntity: Entity, cfg: CreatePortal, main: Entity, size: UVec2)
    returns (outcome: CreateOutcome)
    requires w.Valid() && main in w.live
    requires cfg.destination.Use? ==> cfg.destination.entity in w.live
    modifies w`live, w`nextEntity, w`c, w`m, w`images, w`nextImage, w`materials, w`nextMaterial
    ensures w.Valid()
    ensures outcome == PlannedOutcome(old(w.nextEntity), old(w.nextImage), old(w.nextMaterial), main, cfg.destination)
    ensures w.live == old(w.live) + {outcome.destination, outcome.portalCamera, outcome.parts}
    ensures w.images == old(w.images)[outcome.image := size]
    ensures w.materials == old(w.materials)[outcome.material :=
              PortalMaterialFor(outcome.image, cfg.cullMode, DestinationMirror(cfg.destination))]
    ensures w.c == CreatedComponents(old(w.c), portalEntity, cfg, outcome)
    ensures w.m == CreatedMotion(old(w.m), cfg, outcome)
  {
    var image := AddImage(w, size);
    var material := AddMaterial(w, PortalMaterialFor(image, cfg.cullMode, DestinationMirror(cfg.destination)));
    outcome := PlannedOutcome(w.nextEntity, image, material, main, cfg.destination);
    ApplyCreation(w, portalEntity, cfg, outcome);
  }

  /**
    What `create_portal` with the configuration `cfg` does to the world, given
    how it ended. With no main camera, nothing. With a main camera and a panic
    (a used destination that does not exist), only the portal image sized to
    the viewport and its material are added. When created: the planned ids and
    handles of the chosen main camera, the three spawned entities, the image,
    the material, and the new components and motion.
  */
  twostate predicate CreationEffect(w: World, portalEntity: Entity, cfg: CreatePortal, order: seq<Entity>,
                                    outcome: CreateOutcome)
    requires old(forall i :: 0 <= i < |order| ==> order[i] in w.c.cameras)
    requires old(forall e :: e in w.c.cameras ==> e in order)
    reads w
  {
    && (old(MainCameraChoice(cfg.mainCamera, order, w.c.cameras)).None? ==> unchanged(w))
    && (old(MainCameraChoice(cfg.mainCamera, order, w.c.cameras)).Some? && outcome.Panicked? ==>
      var main := old(MainCameraChoice(cfg.mainCamera, order, w.c.cameras)).value;
      && w.live == old(w.live) && w.nextEntity == old(w.nextEntity)
      && w.c == old(w.c) && w.m == old(w.m)
      && w.images == old(w.images)[old(w.nextImage) := ImageSize(old(w.c.cameras)[main], old(w.Sizes()))]
      && w.materials == old(w.materials)[old(w.nextMaterial) :=
           PortalMaterialFor(old(w.nextImage), cfg.cullMode, DestinationMirror(cfg.destination))])
    && (outcome.Created? ==>
      && old(MainCameraChoice(cfg.mainCamera, order, w.c.cameras)) == Some(outcome.mainCamera)
      && outcome == PlannedOutcome(old(w.nextEntity), old(w.nextImage), old(w.nextMaterial),
                                   outcome.mainCamera, cfg.destination)
      && w.live == old(w.live) + {outcome.destination, outcome.portalCamera, outcome.parts}
      && w.images == old(w.images)[outcome.image := ImageSize(old(w.c.cameras)[outcome.mainCamera], old(w.Sizes()))]
      && w.materials == old(w.materials)[outcome.material :=
           PortalMaterialFor(outcome.image, cfg.cullMode, DestinationMirror(cfg.destination))]
      && w.c == CreatedComponents(old(w.c), portalEntity, cfg, outcome)
      && w.m == CreatedMotion(old(w.m), cfg, outcome))
  }

  /**
    `create_portal` on `portalEntity` with the configuration `cfg`; `order` is
    the iteration order of the main-camera query, which covers every camera.
  */
  method CreatePortalWith(w: World, portalEntity: Entity, cfg: CreatePortal, order: seq<Entity>)
    returns (outcome: CreateOutcome)
    requires w.Valid() && w.c.cameras.Keys <= w.live
    requires forall i :: 0 <= i < |order| ==> order[i] in w.c.cameras
    requires forall e :: e in w.c.cameras ==> e in order
    modifies w`live, w`nextEntity, w`c, w`m, w`images, w`nextImage, w`materials, w`nextMaterial
    ensures w.Valid()
    ensures !outcome.Skipped?
    ensures outcome.Panicked? <==> old(CreatePanics(w.live, w.c.cameras, cfg, order))
    ensures CreationEffect(w, portalEntity, cfg, order, outcome)
  {
    var choice := MainCameraChoice(cfg.mainCamera, order, w.c.cameras);
    if choice.None? {
      return Panicked;
    }
    var main := choice.value;
    var size := ImageSize(w.c.cameras[main], w.Sizes());
    if cfg.destination.Use? && cfg.destination.entity !in w.live {
      // the image and the material are added at once; the queued insert into
      // the missing destination is the first command applied, and it panics
      var image := AddImage(w, size);
      var _ := AddMaterial(w, PortalMaterialFor(image, cfg.cullMode, DestinationMirror(cfg.destination)));
      return Panicked;
    }
    outcome := CreateParts(w, portalEntity, cfg, main, size);
  }

  /**
    `create_portal_on_add`: the observer returns with an error when the entity
    lacks its `CreatePortal`, `Transform` or mesh, and creates the portal
    from its `CreatePortal` otherwise.
  */
  method CreatePortalOnAdd(w: World, portalEntity: Entity, order: seq<Entity>) returns (outcome: CreateOutcome)
    requires w.Valid() && w.c.cameras.Keys <= w.live
    requires forall i :: 0 <= i < |order| ==> order[i] in w.c.cameras
    requires forall e :: e in w.c.cameras ==> e in order
    modifies w`live, w`nextEntity, w`c, w`m, w`images, w`nextImage, w`materials, w`nextMaterial
    ensures w.Valid()
    ensures outcome.Skipped? <==>
      old(portalEntity !in w.c.createPortals || portalEntity !in w.m.transforms || portalEntity !in w.c.meshes)
    ensures outcome.Skipped? ==> unchanged(w)
    ensures !outcome.Skipped? ==>
      (outcome.Panicked? <==> old(CreatePanics(w.live, w.c.cameras, w.c.createPortals[portalEntity], order)))
    ensures !outcome.Skipped? ==> CreationEffect(w, portalEntity, old(w.c.createPortals[portalEntity]), order, outcome)
  {
    if portalEntity !in w.c.createPortals || portalEntity !in w.m.transforms || portalEntity !in w.c.meshes {
      return Skipped;
    }
    outcome := CreatePortalWith(w, portalEntity, w.c.createPortals[portalEntity], order);
  }

  /**
    `CreatePortalCommand::apply`: panics when the entity lacks its `Transform`
    or mesh, or when neither the command nor the entity gives a `CreatePortal`;
    a configuration given to the command wins over the entity's own.
  */
  method ApplyCreatePortalCommand(w: World, portalEntity: Entity, config: Option<CreatePortal>, order: seq<Entity>)
    returns (outcome: CreateOutcome)
    requires w.Valid() && w.c.cameras.Keys <= w.live
    requires forall i :: 0 <= i < |order| ==> order[i] in w.c.cameras
    requires forall e :: e in w.c.cameras ==> e in order
    modifies w`live, w`nextEntity, w`c, w`m, w`images, w`nextImage, w`materials, w`nextMaterial
    ensures w.Valid()
    ensures !outcome.Skipped?
    ensures old(portalEntity !in w.m.transforms || portalEntity !in w.c.meshes) ==> outcome.Panicked? && unchanged(w)
    ensures old(config.None? && portalEntity !in w.c.createPortals) ==> outcome.Panicked? && unchanged(w)
    ensures old(portalEntity in w.m.transforms && portalEntity in w.c.meshes) && config.Some? ==>
      (outcome.Panicked? <==> old(CreatePanics(w.live, w.c.cameras, config.value, order)))
      && CreationEffect(w, portalEntity, config.value, order, outcome)
    ensures old(portalEntity in w.m.transforms && portalEntity in w.c.meshes && portalEntity in w.c.createPortals)
            && config.None? ==>
      (outcome.Panicked? <==> old(CreatePanics(w.live, w.c.cameras, w.c.createPortals[portalEntity], order)))
      && CreationEffect(w, portalEntity, old(w.c.createPortals[portalEntity]), order, outcome)
  {
    if portalEntity !in w.m.transforms || portalEntity !in w.c.meshes {
      return Panicked;
    }
    var cfg: CreatePortal;
    match config {
      case Some(c) => cfg := c;
      case None =>
        if portalEntity !in w.c.createPortals {
          return Panicked;
        }
        cfg := w.c.createPortals[portalEntity];
    }
    outcome := CreatePortalWith(w, portalEntity, cfg, order);
  }
}
