/**
  The public configuration of the portal plugin: the despawn strategies and
  their presets, the plugin settings, and the records a user fills in to create
  a portal, each with the defaults the plugin gives them.
*/
module Api {
  import opened Wrappers
  import opened Geometry

  /** An ECS entity id. */
  type Entity = nat

  /** What to do with one part of a portal whose other parts are gone or broken. */
  datatype PartStrategy =
    | WarnThenDespawnWithChildren
    | DespawnWithChildren
    | WarnThenDespawnEntity
    | DespawnEntity
    | Leave
    | Panic
  {
    predicate ShouldPanic() { this == Panic }

    predicate ShouldDespawn() { this != Leave && this != Panic }

    predicate ShouldDespawnChildren() {
      this == WarnThenDespawnWithChildren || this == DespawnWithChildren
    }

    predicate ShouldWarn() {
      this == WarnThenDespawnWithChildren || this == WarnThenDespawnEntity
    }
  }

  /** `PortalPartDespawnStrategy::default()`. */
  const DefaultPartStrategy: PartStrategy := WarnThenDespawnEntity

  /** One strategy per part of a portal. */
  datatype PartsStrategy = PartsStrategy(
    mainCamera: PartStrategy,
    portal: PartStrategy,
    destination: PartStrategy,
    portalCamera: PartStrategy)

  const DespawnAndWarn: PartsStrategy :=
    PartsStrategy(Leave, WarnThenDespawnEntity, WarnThenDespawnEntity, WarnThenDespawnEntity)

  const PanicStrategy: PartsStrategy :=
    PartsStrategy(Leave, Panic, Panic, Panic)

  const DespawnSilently: PartsStrategy :=
    PartsStrategy(Leave, DespawnEntity, DespawnEntity, DespawnEntity)

  const DespawnWithChildrenSilently: PartsStrategy :=
    PartsStrategy(Leave, DespawnWithChildren, DespawnWithChildren, DespawnWithChildren)

  /** The four named presets. */
  const Presets: seq<PartsStrategy> :=
    [DespawnAndWarn, PanicStrategy, DespawnSilently, DespawnWithChildrenSilently]

  /** `PortalPartsDespawnStrategy::default()`. */
  const DefaultPartsStrategy: PartsStrategy := DespawnAndWarn

  /** The plugin settings. */
  datatype PortalsPlugin = PortalsPlugin(
    checkPortalPartsBackReferences: bool,
    despawnStrategy: Option<PartsStrategy>)

  /** `PortalsPlugin::default()`. */
  const DefaultPlugin: PortalsPlugin := PortalsPlugin(true, None)

  /** `PortalsPlugin::MINIMAL`. */
  const MinimalPlugin: PortalsPlugin := PortalsPlugin(false, Some(PanicStrategy))

  /** A unit direction (glam's Dir3). */
  type Dir3 = v: Vec3 | Dot(v, v) == 1.0 witness UnitX

  /** Which side of the portal mesh is culled. */
  datatype Face = Front | Back

  /** The render layers an entity belongs to; the default is layer 0 alone. */
  type RenderLayers = set<nat>

  const DefaultRenderLayers: RenderLayers := {0}

  /** How the image seen through a portal is mirrored. */
  datatype MirrorConfig = MirrorConfig(origin: Vec3, normal: Dir3, mirrorU: bool, mirrorV: bool)

  /** `MirrorConfig::default()`. */
  const DefaultMirrorConfig: MirrorConfig := MirrorConfig(Zero, UnitX, true, false)

  /** The rendering technique of a portal and the near plane its frustum gets. */
  datatype PortalMode =
    | MaskedImageNoFrustum
    | MaskedImageHalfSpaceFrustum(halfSpace: Option<HalfSpace>, switchNormal: bool)
    | MaskedImageSphereHalfSpaceFrustum(origin: Vec3, distance: real)

  /** `PortalMode::default()`. */
  const DefaultPortalMode: PortalMode := MaskedImageHalfSpaceFrustum(None, false)

  /** A destination to be spawned. */
  datatype CreatePortalDestination = CreatePortalDestination(
    transform: Transform,
    parent: Option<Entity>,
    mirror: Option<MirrorConfig>)

  /** `CreatePortalDestination::default()`. */
  const DefaultCreatePortalDestination: CreatePortalDestination :=
    CreatePortalDestination(IdentityTransform, None, None)

  /** `CreatePortalDestination::from(transform)`: the default with that transform. */
  function DestinationFromTransform(t: Transform): (d: CreatePortalDestination)
    ensures d.transform == t
    ensures d == DefaultCreatePortalDestination.(transform := t)
  {
    CreatePortalDestination(t, None, None)
  }

  /** Where a portal leads. */
  datatype PortalDestinationSource =
    | Use(entity: Entity)
    | Create(config: CreatePortalDestination)
    | CreateMirror

  /** A colour; the model only distinguishes the gray default. */
  datatype Color = Gray | OtherColor(id: nat)

  /** The debug elements of a portal. */
  datatype DebugPortal = DebugPortal(
    name: Option<string>,
    color: Color,
    showWindow: bool,
    showDestinationPoint: bool,
    showPortalCopy: bool,
    showPortalCameraPoint: bool)

  /** `DebugPortal::default()`. */
  const DefaultDebugPortal: DebugPortal := DebugPortal(None, Gray, true, true, true, true)

  /** The component that asks for a portal to be created. */
  datatype CreatePortal = CreatePortal(
    destination: PortalDestinationSource,
    portalMode: PortalMode,
    mainCamera: Option<Entity>,
    cullMode: Option<Face>,
    renderLayer: RenderLayers,
    debug: Option<DebugPortal>)

  /** `CreatePortal::default()`. */
  const DefaultCreatePortal: CreatePortal :=
    CreatePortal(Create(DefaultCreatePortalDestination), DefaultPortalMode, None, Some(Back),
                 DefaultRenderLayers, None)

  // ---------------------------------------------------------------- lemmas

  /**
    Every strategy does exactly one of: panic, despawn, or leave the entity; the
    four despawn variants are the ones that despawn.
  */
  lemma StrategyTrichotomy(s: PartStrategy)
    ensures s.ShouldPanic() <==> s == Panic
    ensures s.ShouldDespawn() <==>
      s in {WarnThenDespawnWithChildren, DespawnWithChildren, WarnThenDespawnEntity, DespawnEntity}
    ensures !s.ShouldDespawn() <==> s == Leave || s == Panic
    ensures s.ShouldPanic() ==> !s.ShouldDespawn()
  {
  }

  /** Warning and despawning children only happen as part of a despawn. */
  lemma WarnAndChildrenImplyDespawn(s: PartStrategy)
    ensures s.ShouldWarn() ==> s.ShouldDespawn()
    ensures s.ShouldDespawnChildren() ==> s.ShouldDespawn()
    ensures s == Panic || s == Leave ==> !s.ShouldWarn() && !s.ShouldDespawnChildren()
  {
  }

  /** The four despawn variants are told apart by exactly their warn and children flags. */
  lemma DespawnVariantsDetermined(s: PartStrategy, t: PartStrategy)
    requires s.ShouldDespawn() && t.ShouldDespawn()
    ensures s == t <==>
      (s.ShouldWarn() == t.ShouldWarn() && s.ShouldDespawnChildren() == t.ShouldDespawnChildren())
  {
  }

  /** No preset touches the main camera. */
  lemma PresetsLeaveMainCamera()
    ensures forall i :: 0 <= i < |Presets| ==>
      Presets[i].mainCamera == Leave
      && !Presets[i].mainCamera.ShouldDespawn() && !Presets[i].mainCamera.ShouldPanic()
  {
  }

  /**
    In every preset the three other parts share one strategy, and the four
    presets use the four different ones: warn-and-despawn, panic, silent
    despawn, silent despawn with children.
  */
  lemma PresetsUniform()
    ensures forall i :: 0 <= i < |Presets| ==>
      Presets[i].portal == Presets[i].destination == Presets[i].portalCamera
    ensures Presets[0].portal == WarnThenDespawnEntity && Presets[1].portal == Panic
    ensures Presets[2].portal == DespawnEntity && Presets[3].portal == DespawnWithChildren
  {
  }

  /** The defaults of both strategy types. */
  lemma StrategyDefaults()
    ensures DefaultPartsStrategy == DespawnAndWarn
    ensures DefaultPartStrategy == WarnThenDespawnEntity
    ensures DefaultPartStrategy.ShouldWarn() && !DefaultPartStrategy.ShouldDespawnChildren()
  {
  }

  /** The default plugin checks back references and has no explicit strategy; MINIMAL does the opposite with PANIC. */
  lemma PluginDefaults()
    ensures DefaultPlugin.checkPortalPartsBackReferences && DefaultPlugin.despawnStrategy == None
    ensures !MinimalPlugin.checkPortalPartsBackReferences
    ensures MinimalPlugin.despawnStrategy == Some(PanicStrategy)
  {
  }

  /** The mirror and mode defaults. */
  lemma MirrorAndModeDefaults()
    ensures DefaultMirrorConfig.origin == Zero && DefaultMirrorConfig.normal == UnitX
    ensures DefaultMirrorConfig.mirrorU && !DefaultMirrorConfig.mirrorV
    ensures DefaultPortalMode == MaskedImageHalfSpaceFrustum(None, false)
  {
  }

  /** A default CreatePortal spawns a fresh, unparented, unmirrored destination at the origin. */
  lemma CreatePortalDefaults()
    ensures DefaultCreatePortal.mainCamera == None
    ensures DefaultCreatePortal.cullMode == Some(Back)
    ensures DefaultCreatePortal.debug == None
    ensures DefaultCreatePortal.renderLayer == {0}
    ensures DefaultCreatePortal.destination.Create?
    ensures DefaultCreatePortal.destination.config.parent == None
    ensures DefaultCreatePortal.destination.config.mirror == None
    ensures DefaultCreatePortal.destination.config.transform == IdentityTransform
  {
  }

  /** Every debug element is on by default, with the gray colour and no name. */
  lemma DebugDefaults()
    ensures DefaultDebugPortal.name == None && DefaultDebugPortal.color == Gray
    ensures DefaultDebugPortal.showWindow && DefaultDebugPortal.showDestinationPoint
    ensures DefaultDebugPortal.showPortalCopy && DefaultDebugPortal.showPortalCameraPoint
  {
  }
}
