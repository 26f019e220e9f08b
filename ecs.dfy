/**
  The part of the ECS world the portal systems touch: the components as tables
  keyed by entity, the image and material assets, the window sizes, and the
  change flags the systems test. `Commands` is the deferred command buffer,
  kept as the log of the actions queued into it.
*/
module Ecs {
  import opened Wrappers
  import opened Geometry
  import opened Api

  type ImageHandle = nat
  type MaterialHandle = nat
  type TextureViewHandle = nat

  /** A size in physical pixels. */
  datatype UVec2 = UVec2(x: nat, y: nat)

  datatype WindowRef = Primary | WindowEntity(entity: Entity)

  /** Where a camera renders. */
  datatype RenderTarget =
    | Window(window: WindowRef)
    | ImageTarget(image: ImageHandle)
    | TextureView(view: TextureViewHandle)

  datatype Viewport = Viewport(physicalSize: UVec2)

  /** A camera: its optional viewport, its render target and its order. */
  datatype Camera = Camera(viewport: Option<Viewport>, target: RenderTarget, order: int)

  /**
    A camera setting component the portal code only copies (Camera3d,
    Tonemapping, DebandDither, ColorGrading, Exposure).
  */
  datatype Setting = DefaultSetting | OtherSetting(id: nat)

  datatype Visibility = Inherited | Hidden | Visible

  /** The entities of one portal. */
  datatype PortalParts = PortalParts(mainCamera: Entity, portal: Entity, destination: Entity, portalCamera: Entity)

  /** The destination marker, with the mirror plane (origin and normal, in destination space). */
  datatype PortalDestination = PortalDestination(mirror: Option<(Vec3, Dir3)>)

  const DefaultPortalDestination: PortalDestination := PortalDestination(None)

  /** The camera rendering what is seen through a portal. */
  datatype PortalCamera = PortalCamera(image: ImageHandle, portalMode: PortalMode)

  /** The portal material: the rendered image, the culled face and the two mirror flags as 0/1. */
  datatype PortalMaterial = PortalMaterial(
    colorTexture: Option<ImageHandle>,
    cullMode: Option<Face>,
    mirrorU: nat,
    mirrorV: nat)

  /**
    What `get_viewport_size` can look at: image sizes, the entities carrying
    the primary-window marker, window sizes (keyed by window entity) and
    texture-view sizes.
  */
  datatype SizeParams = SizeParams(
    images: map<ImageHandle, UVec2>,
    primaryWindows: set<Entity>,
    windows: map<Entity, UVec2>,
    textureViews: map<TextureViewHandle, UVec2>)

  /**
    An action appended to the command buffer. `Abort` stands for a panic of the
    running system: nothing is appended after it.
  */
  datatype Action = Warn | DespawnChildren(entity: Entity) | Despawn(entity: Entity) | Abort

  /** The deferred command buffer of a system. */
  class Commands {
    var log: seq<Action>

    constructor()
      ensures log == []
    {
      log := [];
    }

    method Push(a: Action)
      modifies this`log
      ensures log == old(log) + [a]
    {
      log := log + [a];
    }
  }

  /**
    `order` visits every id of `ids` exactly once and nothing else, as a query's
    iteration does: as multisets the two agree.
  */
  predicate VisitsEachOnce(order: seq<Entity>, ids: set<Entity>) {
    multiset(order) == multiset(ids)
  }

  /** Every id of a set was handed out by a counter now at `next`. */
  predicate Below(ids: set<nat>, next: nat) {
    forall e :: e in ids ==> e < next
  }

  /**
    The components the per-frame systems write: Transform, GlobalTransform and
    Frustum, with the entities whose GlobalTransform / Projection changed since
    the systems last ran.
  */
  datatype Motion = Motion(
    transforms: map<Entity, Transform>,
    globals: map<Entity, Affine>,
    frusta: map<Entity, Frustum>,
    changedGlobals: set<Entity>,
    changedProjections: set<Entity>)

  /** The other component tables, keyed by entity. */
  datatype Components = Components(
    cameras: map<Entity, Camera>,
    projections: map<Entity, Projection>,
    camera3ds: map<Entity, Setting>,
    tonemappings: map<Entity, Setting>,
    debandDithers: map<Entity, Setting>,
    colorGradings: map<Entity, Setting>,
    exposures: map<Entity, Setting>,
    visibilities: map<Entity, Visibility>,
    renderLayers: map<Entity, RenderLayers>,
    meshes: set<Entity>,
    createPortals: map<Entity, CreatePortal>,
    portals: set<Entity>,
    portalMaterialOf: map<Entity, MaterialHandle>,
    destinations: map<Entity, PortalDestination>,
    portalCameras: map<Entity, PortalCamera>,
    partsRecords: map<Entity, PortalParts>,
    partOf: map<Entity, Entity>,
    childOf: map<Entity, Entity>)

  /** The world: live entities, their components, assets and window sizes. */
  class World {
    var live: set<Entity>
    var nextEntity: nat
    var c: Components
    var m: Motion

    var images: map<ImageHandle, UVec2>
    var nextImage: nat
    var materials: map<MaterialHandle, PortalMaterial>
    var nextMaterial: nat
    var windows: map<Entity, UVec2>
    var primaryWindows: set<Entity>
    var textureViews: map<TextureViewHandle, UVec2>

    /** Entity ids and asset handles come from their counters, so a spawned entity or an added asset is new. */
    ghost predicate Valid()
      reads this`live, this`nextEntity, this`images, this`nextImage, this`materials, this`nextMaterial
    {
      && Below(live, nextEntity)
      && Below(images.Keys, nextImage)
      && Below(materials.Keys, nextMaterial)
    }

    /** The size lookups `get_viewport_size` is given. */
    function Sizes(): SizeParams
      reads this`images, this`primaryWindows, this`windows, this`textureViews
    {
      SizeParams(images, primaryWindows, windows, textureViews)
    }
  }
}
