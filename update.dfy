/**
  Following the main camera: where each portal camera goes (the main camera's
  pose relative to the portal, carried over to the destination, optionally
  reflected in a mirror plane), how large its image is, and the near plane of
  its frustum that hides what lies between it and the destination.

  `update_portal_cameras` and `update_portal_camera_frusta` are methods proved
  against value-level folds over the `PortalParts` records: `Tables` are the
  world tables neither system writes, `Frame` the state the first one writes.
*/
module Update {
  import opened Wrappers
  import opened Geometry
  import opened Api
  import opened Ecs
  import opened Despawn

  // ---------------------------------------------------------------- mirroring

  /** `Vec3::project_onto`: `n * v.dot(n) * n.length_squared().recip()`. */
  function ProjectOnto(num: Numerics, v: Vec3, n: Vec3): Vec3 {
    Scale(Dot(v, n) * num.recip(Dot(n, n)), n)
  }

  /** `mirror_vec`: `v` reflected in the plane through the origin with normal `n`. */
  function MirrorVec(num: Numerics, v: Vec3, n: Vec3): Vec3 {
    Sub(v, Scale(2.0, ProjectOnto(num, v, n)))
  }

  /** The point `p` reflected in the plane through `m` with normal `n`. */
  function MirrorPoint(num: Numerics, p: Vec3, m: Vec3, n: Vec3): Vec3 {
    Add(m, MirrorVec(num, Sub(p, m), n))
  }

  lemma DotSubScale(v: Vec3, n: Vec3, u: Vec3, c: real)
    ensures Dot(Sub(v, Scale(c, n)), u) == Dot(v, u) - c * Dot(n, u)
  {
  }

  /** Scaling twice is scaling by the product. */
  lemma ScaleScale(a: real, b: real, v: Vec3)
    ensures Scale(a, Scale(b, v)) == Scale(a * b, v)
  {
    assert a * (b * v.x) == (a * b) * v.x;
    assert a * (b * v.y) == (a * b) * v.y;
    assert a * (b * v.z) == (a * b) * v.z;
  }

  lemma MirrorVecForm(num: Numerics, v: Vec3, n: Vec3)
    ensures MirrorVec(num, v, n) == Sub(v, Scale(2.0 * (Dot(v, n) * num.recip(Dot(n, n))), n))
  {
    ScaleScale(2.0, Dot(v, n) * num.recip(Dot(n, n)), n);
  }

  /** Cancelling the reciprocal: (a * q) * s == a when q * s == 1. */
  lemma CancelRecip(a: real, q: real, s: real)
    requires q * s == 1.0
    ensures (a * q) * s == a
  {
    assert (a * q) * s == a * (q * s);
  }

  /** Mirroring negates the component along the normal. */
  lemma MirrorVecNormal(num: Numerics, v: Vec3, n: Vec3)
    requires Sound(num)
    requires Dot(n, n) > 0.0
    ensures Dot(MirrorVec(num, v, n), n) == -Dot(v, n)
  {
    var k := Dot(v, n) * num.recip(Dot(n, n));
    MirrorVecForm(num, v, n);
    DotSubScale(v, n, n, 2.0 * k);
    CancelRecip(Dot(v, n), num.recip(Dot(n, n)), Dot(n, n));
  }

  /** Mirroring keeps every component orthogonal to the normal. */
  lemma MirrorVecOrthogonal(num: Numerics, v: Vec3, n: Vec3, u: Vec3)
    requires Dot(n, u) == 0.0
    ensures Dot(MirrorVec(num, v, n), u) == Dot(v, u)
  {
    var k := Dot(v, n) * num.recip(Dot(n, n));
    MirrorVecForm(num, v, n);
    DotSubScale(v, n, u, 2.0 * k);
  }

  /** Mirroring twice in the same plane gives the vector back. */
  lemma MirrorVecInvolution(num: Numerics, v: Vec3, n: Vec3)
    requires Sound(num)
    requires Dot(n, n) > 0.0
    ensures MirrorVec(num, MirrorVec(num, v, n), n) == v
  {
    var q := num.recip(Dot(n, n));
    var k := Dot(v, n) * q;
    var w := MirrorVec(num, v, n);
    MirrorVecForm(num, v, n);
    MirrorVecForm(num, w, n);
    MirrorVecNormal(num, v, n);
    assert Dot(w, n) * q == -k;
  }

  /** A mirrored point is as far behind the plane as it was in front. */
  lemma MirrorPointDistance(num: Numerics, p: Vec3, m: Vec3, n: Vec3)
    requires Sound(num)
    requires Dot(n, n) > 0.0
    ensures Dot(Sub(MirrorPoint(num, p, m, n), m), n) == -Dot(Sub(p, m), n)
  {
    MirrorVecNormal(num, Sub(p, m), n);
    assert Sub(MirrorPoint(num, p, m, n), m) == MirrorVec(num, Sub(p, m), n);
  }

  /** Mirroring a point twice gives it back. */
  lemma MirrorPointInvolution(num: Numerics, p: Vec3, m: Vec3, n: Vec3)
    requires Sound(num)
    requires Dot(n, n) > 0.0
    ensures MirrorPoint(num, MirrorPoint(num, p, m, n), m, n) == p
  {
    var x := MirrorVec(num, Sub(p, m), n);
    assert Sub(MirrorPoint(num, p, m, n), m) == x;
    MirrorVecInvolution(num, Sub(p, m), n);
  }

  /** The points of the mirror plane stay where they are. */
  lemma MirrorPointOnPlane(num: Numerics, p: Vec3, m: Vec3, n: Vec3)
    requires Dot(Sub(p, m), n) == 0.0
    ensures MirrorPoint(num, p, m, n) == p
  {
    MirrorVecForm(num, Sub(p, m), n);
  }

  /**
    `mirror_transform`: the translation reflected in the plane through `m` with
    normal `n`, the rotation looking along the reflected forward and up
    directions, the scale kept.
  */
  function MirrorTransform(num: Numerics, t: Transform, m: Vec3, n: Vec3): (r: Transform)
    ensures r.scale == t.scale
  {
    Transform(MirrorPoint(num, t.translation, m, n),
              num.lookTo(MirrorVec(num, TransformForward(t), n), MirrorVec(num, TransformUp(t), n)),
              t.scale)
  }

  /**
    The mirrored transform sits at the reflection of the original position,
    mirroring it again restores that position, and the forward and up
    directions handed to `look_to` are the reflected ones.
  */
  lemma MirrorTransformReflects(num: Numerics, t: Transform, m: Vec3, n: Vec3)
    requires Sound(num)
    requires Dot(n, n) > 0.0
    ensures Dot(Sub(MirrorTransform(num, t, m, n).translation, m), n) == -Dot(Sub(t.translation, m), n)
    ensures MirrorTransform(num, MirrorTransform(num, t, m, n), m, n).translation == t.translation
    ensures Dot(MirrorVec(num, TransformForward(t), n), n) == -Dot(TransformForward(t), n)
    ensures Dot(MirrorVec(num, TransformUp(t), n), n) == -Dot(TransformUp(t), n)
  {
    MirrorPointDistance(num, t.translation, m, n);
    MirrorPointInvolution(num, t.translation, m, n);
    MirrorVecNormal(num, TransformForward(t), n);
    MirrorVecNormal(num, TransformUp(t), n);
  }

  // ---------------------------------------------------------------- portal camera transform

  /** `destination * portal^-1 * main`: the main camera's pose relative to the portal, put at the destination. */
  function RelativeTransform(num: Numerics, main: Affine, portal: Affine, dest: Affine): Affine {
    Compose(Compose(dest, AffineInverse(num, portal)), main)
  }

  /**
    `get_portal_camera_transform`: the relative transform, then, for a mirror
    destination, reflected in the mirror plane given in destination space.
  */
  function PortalCameraTransform(num: Numerics, main: Affine, portal: Affine, dest: Affine,
                                 mirror: Option<(Vec3, Dir3)>): (g: Affine)
    ensures mirror.None? ==> g == RelativeTransform(num, main, portal, dest)
  {
    var relative := RelativeTransform(num, main, portal, dest);
    match mirror
    case None => relative
    case Some((origin, normal)) =>
      var mirrored := MirrorTransform(num, AffineToTransform(num, relative),
                                      TransformPoint(dest, origin),
                                      Sub(TransformPoint(dest, normal), dest.translation));
      TransformToAffine(mirrored)
  }

  /**
    Without a mirror, a point in main-camera space lands where the main camera
    would put it, taken from portal space into destination space.
  */
  lemma PortalCameraMapsThroughPortal(num: Numerics, main: Affine, portal: Affine, dest: Affine, p: Vec3)
    ensures TransformPoint(PortalCameraTransform(num, main, portal, dest, None), p)
         == TransformPoint(dest, TransformPoint(AffineInverse(num, portal), TransformPoint(main, p)))
  {
    ComposeApplies(Compose(dest, AffineInverse(num, portal)), main, p);
    ComposeApplies(dest, AffineInverse(num, portal), TransformPoint(main, p));
  }

  /** A portal whose destination is itself shows exactly what the main camera sees. */
  lemma PortalCameraSelfDestination(num: Numerics, main: Affine, portal: Affine)
    requires Sound(num)
    requires Determinant(portal.matrix) != 0.0
    ensures PortalCameraTransform(num, main, portal, portal, None) == main
  {
    InverseCancels(num, portal, main);
  }

  /**
    With a mirror, the portal camera is the relative transform's position
    reflected in the world-space mirror plane.
  */
  lemma PortalCameraMirrored(num: Numerics, main: Affine, portal: Affine, dest: Affine, origin: Vec3, normal: Dir3)
    requires Sound(num)
    requires Dot(Sub(TransformPoint(dest, normal), dest.translation), Sub(TransformPoint(dest, normal), dest.translation)) > 0.0
    ensures var g := PortalCameraTransform(num, main, portal, dest, Some((origin, normal)));
            var relative := RelativeTransform(num, main, portal, dest);
            var m := TransformPoint(dest, origin);
            var n := Sub(TransformPoint(dest, normal), dest.translation);
            Dot(Sub(g.translation, m), n) == -Dot(Sub(relative.translation, m), n)
  {
    var relative := RelativeTransform(num, main, portal, dest);
    var m := TransformPoint(dest, origin);
    var n := Sub(TransformPoint(dest, normal), dest.translation);
    MirrorTransformReflects(num, AffineToTransform(num, relative), m, n);
  }

  // ---------------------------------------------------------------- image size

  /**
    What the primary-window query matches: the entities that carry the
    primary-window marker and are windows.
  */
  function PrimaryWindowsFound(sizes: SizeParams): set<Entity> {
    set e | e in sizes.primaryWindows && e in sizes.windows
  }

  lemma SingletonUnique<T>(s: set<T>)
    requires |s| == 1
    ensures forall a, b :: a in s && b in s ==> a == b
  {
    var x :| x in s;
    assert |s - {x}| == 0;
    assert s == {x};
  }

  /** `get_viewport_size`: the explicit viewport, else the size of the render target, if known. */
  function ViewportSize(camera: Camera, sizes: SizeParams): (r: Option<UVec2>)
    ensures camera.viewport.Some? ==> r == Some(camera.viewport.value.physicalSize)
    ensures camera.viewport.None? && camera.target.ImageTarget? ==>
      r == (if camera.target.image in sizes.images then Some(sizes.images[camera.target.image]) else None)
    ensures camera.viewport.None? && camera.target == Window(Primary) ==>
      && (r.Some? <==> |PrimaryWindowsFound(sizes)| == 1)
      && (forall e :: e in PrimaryWindowsFound(sizes) && r.Some? ==> e in sizes.windows && r.value == sizes.windows[e])
    ensures camera.viewport.None? && camera.target.Window? && camera.target.window.WindowEntity? ==>
      r == (if camera.target.window.entity in sizes.windows then Some(sizes.windows[camera.target.window.entity]) else None)
    ensures camera.viewport.None? && camera.target.TextureView? ==>
      r == (if camera.target.view in sizes.textureViews then Some(sizes.textureViews[camera.target.view]) else None)
  {
    match camera.viewport
    case Some(viewport) => Some(viewport.physicalSize)
    case None =>
      match camera.target
      case Window(Primary) =>
        // `single()` fails unless exactly one window carries the marker
        var found := PrimaryWindowsFound(sizes);
        if |found| == 1 then
          SingletonUnique(found);
          var e :| e in found;
          Some(sizes.windows[e])
        else None
      case Window(WindowEntity(e)) =>
        if e in sizes.windows then Some(sizes.windows[e]) else None
      case ImageTarget(h) =>
        if h in sizes.images then Some(sizes.images[h]) else None
      case TextureView(v) =>
        if v in sizes.textureViews then Some(sizes.textureViews[v]) else None
  }

  /**
    The viewport size depends only on what the camera targets: changing the
    size of an image it does not render to leaves it as it was.
  */
  lemma ViewportSizeIgnoresOtherImages(camera: Camera, sizes: SizeParams, h: ImageHandle, size: UVec2)
    requires camera.target != ImageTarget(h)
    ensures ViewportSize(camera, sizes.(images := sizes.images[h := size])) == ViewportSize(camera, sizes)
  {
  }

  /** What `resize_image_if_needed` does: panic on a missing image, or report a resize and the new images. */
  datatype Resize = ResizePanic | Resized(resized: bool, images: map<ImageHandle, UVec2>)

  /**
    `resize_image_if_needed` on values: the portal image takes the main
    camera's viewport size when that is known and differs, provided the
    portal material still exists; the result says whether sizes differed.
  */
  function ResizeImage(sizes: SizeParams, pc: PortalCamera, camera: Camera, materialPresent: bool): (r: Resize)
    ensures r.ResizePanic? <==> pc.image !in sizes.images
  {
    if pc.image !in sizes.images then ResizePanic
    else
      var current := sizes.images[pc.image];
      match ViewportSize(camera, sizes)
      case None => Resized(false, sizes.images)
      case Some(size) =>
        var resize := current.x != size.x || current.y != size.y;
        if resize && materialPresent then Resized(true, sizes.images[pc.image := size])
        else Resized(resize, sizes.images)
  }

  /**
    The unwrap panics exactly on a missing image; otherwise the image is
    resized iff the viewport size is known and differs, it takes that size iff
    the material exists, and no other image changes.
  */
  lemma ResizeImageSpec(sizes: SizeParams, pc: PortalCamera, camera: Camera, materialPresent: bool)
    ensures var r := ResizeImage(sizes, pc, camera, materialPresent);
      && (r.ResizePanic? <==> pc.image !in sizes.images)
      && (r.Resized? ==> r.images.Keys == sizes.images.Keys)
      && (r.Resized? ==> forall h :: h in sizes.images && h != pc.image ==> r.images[h] == sizes.images[h])
      && (r.Resized? ==>
            (r.resized <==> ViewportSize(camera, sizes).Some? && ViewportSize(camera, sizes).value != sizes.images[pc.image]))
      && (r.Resized? && r.resized && materialPresent ==> r.images[pc.image] == ViewportSize(camera, sizes).value)
      && (r.Resized? && !(r.resized && materialPresent) ==> r.images == sizes.images)
  {
  }

  /** After a resize the image has the viewport size, so the next frame does not resize again. */
  lemma ResizeIdempotent(sizes: SizeParams, pc: PortalCamera, camera: Camera)
    requires ResizeImage(sizes, pc, camera, true).Resized?
    ensures var images := ResizeImage(sizes, pc, camera, true).images;
            ResizeImage(sizes.(images := images), pc, camera, true) == Resized(false, images)
  {
    var r := ResizeImage(sizes, pc, camera, true);
    var s2 := sizes.(images := r.images);
    if camera.viewport.None? && camera.target.ImageTarget? && camera.target.image == pc.image {
      assert ViewportSize(camera, sizes) == Some(sizes.images[pc.image]);
    }
    if camera.viewport.None? && camera.target.ImageTarget? && camera.target.image != pc.image
       && camera.target.image in sizes.images {
      assert r.images[camera.target.image] == sizes.images[camera.target.image];
    }
    assert ViewportSize(camera, s2) == ViewportSize(camera, sizes);
  }

  /** Without its material the image is never resized, and a size mismatch is reported every time. */
  lemma ResizeWithoutMaterial(sizes: SizeParams, pc: PortalCamera, camera: Camera)
    requires pc.image in sizes.images
    requires ViewportSize(camera, sizes).Some? && ViewportSize(camera, sizes).value != sizes.images[pc.image]
    ensures ResizeImage(sizes, pc, camera, false) == Resized(true, sizes.images)
  {
  }

  /** `resize_image_if_needed`; `None` stands for the panic of its `unwrap`. */
  method ResizeImageIfNeeded(w: World, pc: PortalCamera, camera: Camera, material: MaterialHandle)
    returns (r: Option<bool>)
    modifies w`images
    ensures match ResizeImage(old(w.Sizes()), pc, camera, material in w.materials)
            case ResizePanic => r == None && w.images == old(w.images)
            case Resized(resized, images) => r == Some(resized) && w.images == images
  {
    if pc.image !in w.images {
      return None;
    }
    var current := w.images[pc.image];
    var size := ViewportSize(camera, w.Sizes());
    if size.None? {
      return Some(false);
    }
    var resize := current.x != size.value.x || current.y != size.value.y;
    if resize {
      if material in w.materials {
        w.images := w.images[pc.image := size.value];
      }
    }
    return Some(resize);
  }

  // ---------------------------------------------------------------- frustum

  /** The near-plane normal and offset of the half-space mode, before switching: the destination's forward by default. */
  function HalfSpaceNormal(num: Numerics, halfSpace: Option<HalfSpace>, dest: Affine): (r: (Vec3, real))
    ensures halfSpace.None? ==> r == (GlobalForward(num, dest), 0.0)
    ensures halfSpace.Some? ==> r.1 == halfSpace.value.d
  {
    match halfSpace
    case Some(hs) => (GlobalRotate(num, dest, hs.normal), hs.d)
    case None => (GlobalForward(num, dest), 0.0)
  }

  /** With `switch`, the normal is turned so that it does not point towards the camera (a zero dot counts as positive). */
  function SwitchNormal(n: Vec3, switch: bool, camera: Vec3, dest: Vec3): (r: Vec3)
    ensures r == n || r == Neg(n)
    ensures !switch ==> r == n
    ensures switch ==> Dot(r, Sub(camera, dest)) <= 0.0
    ensures Dot(r, r) == Dot(n, n)
  {
    if switch && Dot(n, Sub(camera, dest)) >= 0.0 then Neg(n) else n
  }

  /** The near half-space `get_frustum` installs for a portal mode, if any. */
  function NearHalfSpace(num: Numerics, mode: PortalMode, camera: Affine, dest: Affine): Option<HalfSpace> {
    match mode
    case MaskedImageNoFrustum => None
    case MaskedImageHalfSpaceFrustum(halfSpace, switch) =>
      var (n0, d) := HalfSpaceNormal(num, halfSpace, dest);
      var n := SwitchNormal(n0, switch, camera.translation, dest.translation);
      var dot := Dot(dest.translation, Normalize(num, n));
      Some(NewHalfSpace(num, n, -(dot + d) - 0.00001))
    case MaskedImageSphereHalfSpaceFrustum(origin, distance) =>
      var n := GlobalForward(num, camera);
      var tangent := Sub(Add(dest.translation, origin), Scale(distance, n));
      Some(NewHalfSpace(num, n, -Dot(tangent, n)))
  }

  /** `get_frustum`: the projection's frustum with its near half-space replaced as the mode says. */
  function GetFrustum(num: Numerics, pc: PortalCamera, camera: Affine, dest: Affine, projection: Projection): (f: Frustum)
    ensures forall i :: 0 <= i < 6 && i != NearIndex ==> f[i] == num.frustumFrom(projection, camera)[i]
    ensures pc.portalMode.MaskedImageNoFrustum? ==> f == num.frustumFrom(projection, camera)
    ensures !pc.portalMode.MaskedImageNoFrustum? ==>
      f[NearIndex] == NearHalfSpace(num, pc.portalMode, camera, dest).value
  {
    var frustum := num.frustumFrom(projection, camera);
    match NearHalfSpace(num, pc.portalMode, camera, dest)
    case None => frustum
    case Some(near) => frustum[NearIndex := near]
  }

  /**
    In half-space mode with a unit near normal, the destination lies just
    outside the near half-space: at signed distance `-d - 0.00001`.
  */
  lemma HalfSpaceNearBehindDestination(num: Numerics, halfSpace: Option<HalfSpace>, switch: bool, camera: Affine, dest: Affine)
    requires Sound(num)
    requires var n0 := HalfSpaceNormal(num, halfSpace, dest).0; Dot(n0, n0) == 1.0
    ensures var near := NearHalfSpace(num, MaskedImageHalfSpaceFrustum(halfSpace, switch), camera, dest).value;
            SignedDistance(near, dest.translation) == -HalfSpaceNormal(num, halfSpace, dest).1 - 0.00001
  {
    var (n0, d) := HalfSpaceNormal(num, halfSpace, dest);
    var n := SwitchNormal(n0, switch, camera.translation, dest.translation);
    NormalizeUnit(num, n);
    var dist := -(Dot(dest.translation, n) + d) - 0.00001;
    NewHalfSpaceDistance(num, n, dist, dest.translation);
  }

  /**
    With the default mode, the near plane faces along the destination's forward
    direction and the destination sits 0.00001 outside it.
  */
  lemma DefaultModeNearPlane(num: Numerics, camera: Affine, dest: Affine)
    requires Sound(num)
    requires Dot(dest.matrix.zAxis, dest.matrix.zAxis) > 0.0
    ensures var near := NearHalfSpace(num, DefaultPortalMode, camera, dest).value;
            near.normal == GlobalForward(num, dest)
            && SignedDistance(near, dest.translation) == -0.00001
  {
    var z := dest.matrix.zAxis;
    NormalizeIsUnit(num, z);
    var f := GlobalForward(num, dest);
    assert Dot(f, f) == Dot(Normalize(num, z), Normalize(num, z));
    NormalizeUnit(num, f);
    HalfSpaceNearBehindDestination(num, None, false, camera, dest);
  }

  /** With `switch`, the near plane's normal points away from the portal camera, as seen from the destination. */
  lemma SwitchedNearFacesAway(num: Numerics, halfSpace: Option<HalfSpace>, camera: Affine, dest: Affine)
    requires Sound(num)
    requires var n0 := HalfSpaceNormal(num, halfSpace, dest).0; Dot(n0, n0) > 0.0
    ensures var near := NearHalfSpace(num, MaskedImageHalfSpaceFrustum(halfSpace, true), camera, dest).value;
            Dot(near.normal, Sub(camera.translation, dest.translation)) <= 0.0
  {
    var (n0, d) := HalfSpaceNormal(num, halfSpace, dest);
    var n := SwitchNormal(n0, true, camera.translation, dest.translation);
    var dist := -(Dot(dest.translation, Normalize(num, n)) + d) - 0.00001;
    NewHalfSpaceNormal(num, n, dist, Sub(camera.translation, dest.translation));
  }

  /** In sphere mode the tangent point lies on the near plane. */
  lemma SphereNearThroughTangent(num: Numerics, origin: Vec3, distance: real, camera: Affine, dest: Affine)
    ensures var near := NearHalfSpace(num, MaskedImageSphereHalfSpaceFrustum(origin, distance), camera, dest).value;
            var n := GlobalForward(num, camera);
            SignedDistance(near, Sub(Add(dest.translation, origin), Scale(distance, n))) == 0.0
  {
    var n := GlobalForward(num, camera);
    var tangent := Sub(Add(dest.translation, origin), Scale(distance, n));
    NewHalfSpaceDistance(num, n, -Dot(tangent, n), tangent);
    assert Dot(n, tangent) == Dot(tangent, n);
  }

  /** In sphere mode, with a camera whose Z axis is non-zero, the sphere's centre is `distance` inside the near plane. */
  lemma SphereNearCentre(num: Numerics, origin: Vec3, distance: real, camera: Affine, dest: Affine)
    requires Sound(num)
    requires Dot(camera.matrix.zAxis, camera.matrix.zAxis) > 0.0
    ensures var near := NearHalfSpace(num, MaskedImageSphereHalfSpaceFrustum(origin, distance), camera, dest).value;
            SignedDistance(near, Add(dest.translation, origin)) == distance
  {
    var z := camera.matrix.zAxis;
    NormalizeIsUnit(num, z);
    var n := GlobalForward(num, camera);
    assert Dot(n, n) == Dot(Normalize(num, z), Normalize(num, z));
    NormalizeUnit(num, n);
    var c := Add(dest.translation, origin);
    var tangent := Sub(c, Scale(distance, n));
    DotSubScale(c, n, n, distance);
    NewHalfSpaceDistance(num, n, -Dot(tangent, n), c);
  }

  // ---------------------------------------------------------------- the systems

  /** The world tables neither portal-camera system writes. */
  datatype Tables = Tables(
    live: set<Entity>,
    cameras: map<Entity, Camera>,
    projections: map<Entity, Projection>,
    portals: set<Entity>,
    portalMaterialOf: map<Entity, MaterialHandle>,
    materials: set<MaterialHandle>,
    destinations: map<Entity, PortalDestination>,
    portalCameras: map<Entity, PortalCamera>,
    partsRecords: map<Entity, PortalParts>,
    primaryWindows: set<Entity>,
    windows: map<Entity, UVec2>,
    textureViews: map<TextureViewHandle, UVec2>)

  function TablesOf(w: World): Tables
    reads w`live, w`c, w`materials, w`primaryWindows, w`windows, w`textureViews
  {
    Tables(w.live, w.c.cameras, w.c.projections, w.c.portals, w.c.portalMaterialOf, w.materials.Keys,
           w.c.destinations, w.c.portalCameras, w.c.partsRecords, w.primaryWindows, w.windows, w.textureViews)
  }

  /** What `update_portal_cameras` writes, with the command log. */
  datatype Frame = Frame(
    transforms: map<Entity, Transform>,
    globals: map<Entity, Affine>,
    changedGlobals: set<Entity>,
    changedProjections: set<Entity>,
    images: map<ImageHandle, UVec2>,
    log: seq<Action>)

  function FrameOf(w: World, cmds: Commands): Frame
    reads w`m, w`images, cmds`log
  {
    Frame(w.m.transforms, w.m.globals, w.m.changedGlobals, w.m.changedProjections, w.images, cmds.log)
  }

  /** The error a failed part query reports. */
  function QueryErrorFor(live: set<Entity>, e: Entity): QueryError {
    if e in live then QueryDoesNotMatch(e) else EntityDoesNotExist(e)
  }

  /** The portal-camera query: PortalCamera, Transform, GlobalTransform and Projection, with Camera. */
  predicate PortalCameraFound(t: Tables, f: Frame, e: Entity) {
    e in t.portalCameras && e in f.transforms && e in f.globals && e in t.projections && e in t.cameras
  }

  /** The main-camera query: GlobalTransform and Camera, without PortalCamera. */
  predicate MainCameraFound(t: Tables, f: Frame, e: Entity) {
    e in f.globals && e in t.cameras && e !in t.portalCameras
  }

  /** The portal query: GlobalTransform and the material handle, with Portal, without Camera. */
  predicate PortalFound(t: Tables, f: Frame, e: Entity) {
    e in f.globals && e in t.portalMaterialOf && e in t.portals && e !in t.cameras
  }

  /** The destination query: GlobalTransform and PortalDestination, without Camera. */
  predicate DestinationFound(t: Tables, f: Frame, e: Entity) {
    e in f.globals && e in t.destinations && e !in t.cameras
  }

  predicate AllPartsFound(t: Tables, f: Frame, parts: PortalParts) {
    && PortalCameraFound(t, f, parts.portalCamera)
    && MainCameraFound(t, f, parts.mainCamera)
    && PortalFound(t, f, parts.portal)
    && DestinationFound(t, f, parts.destination)
  }

  /** The portal image resize of one record, read from the frame. */
  function ResizeFor(t: Tables, f: Frame, parts: PortalParts): Resize
    requires AllPartsFound(t, f, parts)
  {
    ResizeImage(SizeParams(f.images, t.primaryWindows, t.windows, t.textureViews),
                t.portalCameras[parts.portalCamera], t.cameras[parts.mainCamera],
                t.portalMaterialOf[parts.portal] in t.materials)
  }

  /** The portal camera's new global transform for one record, read from the frame. */
  function NewPortalCameraGlobal(num: Numerics, t: Tables, f: Frame, parts: PortalParts): Affine
    requires AllPartsFound(t, f, parts)
  {
    PortalCameraTransform(num, f.globals[parts.mainCamera], f.globals[parts.portal],
                          f.globals[parts.destination], t.destinations[parts.destination].mirror)
  }

  /** Whether the portal, the destination or the main camera moved. */
  predicate ShouldUpdateTransform(f: Frame, parts: PortalParts) {
    parts.portal in f.changedGlobals || parts.destination in f.changedGlobals
    || parts.mainCamera in f.changedGlobals
  }

  /**
    One iteration of `update_portal_cameras` for the record of `e`: a missing
    part tears the portal down; otherwise the image is resized (its
    projection marked changed), and when something moved the portal camera's
    Transform and GlobalTransform are set. Only the portal camera and its
    image are touched.
  */
  function PortalCameraPass(t: Tables, num: Numerics, st: PartsStrategy, f: Frame, e: Entity): Frame
    requires e in t.partsRecords
  {
    var parts := t.partsRecords[e];
    if !AllPartsFound(t, f, parts) then
      f.(log := f.log + TeardownActions(t.live, parts, st))
    else
      match ResizeFor(t, f, parts)
      case ResizePanic => f.(log := f.log + [Abort])
      case Resized(resized, images) => MovedFrame(num, t, ResizedFrame(f, parts.portalCamera, resized, images), parts)
  }

  /** The frame after the image resize: the new images, and the projection marked changed on a resize. */
  function ResizedFrame(f: Frame, pc: Entity, resized: bool, images: map<ImageHandle, UVec2>): Frame {
    f.(images := images,
       changedProjections := if resized then f.changedProjections + {pc} else f.changedProjections)
  }

  /** The frame after the transform update: the portal camera moved when something else moved. */
  function MovedFrame(num: Numerics, t: Tables, f: Frame, parts: PortalParts): Frame
    requires AllPartsFound(t, f, parts)
  {
    if ShouldUpdateTransform(f, parts) then
      var g := NewPortalCameraGlobal(num, t, f, parts);
      f.(transforms := f.transforms[parts.portalCamera := AffineToTransform(num, g)],
         globals := f.globals[parts.portalCamera := g],
         changedGlobals := f.changedGlobals + {parts.portalCamera})
    else
      f
  }

  /**
    A pass touches only the portal camera of its record and that camera's
    image: no entry is added or removed, every other entity keeps its
    components and change flags, and commands are only appended.
  */
  lemma PortalCameraPassFrame(t: Tables, num: Numerics, st: PartsStrategy, f: Frame, e: Entity)
    requires e in t.partsRecords
    ensures var pc := t.partsRecords[e].portalCamera;
      var r := PortalCameraPass(t, num, st, f, e);
      && r.transforms.Keys == f.transforms.Keys && r.globals.Keys == f.globals.Keys
      && r.images.Keys == f.images.Keys
      && (forall x :: x in f.globals && x != pc ==> r.globals[x] == f.globals[x])
      && (forall x :: x in f.transforms && x != pc ==> r.transforms[x] == f.transforms[x])
      && (forall h :: h in f.images && (pc !in t.portalCameras || h != t.portalCameras[pc].image) ==>
            r.images[h] == f.images[h])
      && f.changedGlobals <= r.changedGlobals <= f.changedGlobals + {pc}
      && f.changedProjections <= r.changedProjections <= f.changedProjections + {pc}
      && f.log <= r.log
  {
    var parts := t.partsRecords[e];
    if AllPartsFound(t, f, parts) {
      ResizeImageSpec(SizeParams(f.images, t.primaryWindows, t.windows, t.textureViews),
                      t.portalCameras[parts.portalCamera], t.cameras[parts.mainCamera],
                      t.portalMaterialOf[parts.portal] in t.materials);
    }
  }

  /** A record with a missing part only appends the teardown of its portal. */
  lemma PortalCameraPassMissingPart(t: Tables, num: Numerics, st: PartsStrategy, f: Frame, e: Entity)
    requires e in t.partsRecords && !AllPartsFound(t, f, t.partsRecords[e])
    ensures PortalCameraPass(t, num, st, f, e)
         == f.(log := f.log + TeardownActions(t.live, t.partsRecords[e], st))
  {
  }

  /**
    When every part is found, the image exists and something moved, the
    portal camera takes its new pose, both components agree, and its
    GlobalTransform is marked changed; a resize marks its projection changed.
  */
  lemma PortalCameraPassMoves(t: Tables, num: Numerics, st: PartsStrategy, f: Frame, e: Entity)
    requires e in t.partsRecords
    requires AllPartsFound(t, f, t.partsRecords[e])
    requires ResizeFor(t, f, t.partsRecords[e]).Resized?
    ensures var parts := t.partsRecords[e];
            var r := PortalCameraPass(t, num, st, f, e);
            var g := NewPortalCameraGlobal(num, t, f, parts);
            && (ShouldUpdateTransform(f, parts) ==>
                  r.globals[parts.portalCamera] == g
                  && r.transforms[parts.portalCamera] == AffineToTransform(num, g)
                  && parts.portalCamera in r.changedGlobals)
            && (!ShouldUpdateTransform(f, parts) ==>
                  r.globals == f.globals && r.transforms == f.transforms && r.changedGlobals == f.changedGlobals)
            && (ResizeFor(t, f, parts).resized ==> parts.portalCamera in r.changedProjections)
            && (!ResizeFor(t, f, parts).resized ==> r.changedProjections == f.changedProjections)
            && r.log == f.log
  {
  }

  /** A portal leading to itself puts its camera exactly on the main camera once it moves. */
  lemma PortalCameraPassSelfDestination(t: Tables, num: Numerics, st: PartsStrategy, f: Frame, e: Entity)
    requires Sound(num)
    requires e in t.partsRecords
    requires var parts := t.partsRecords[e];
      && AllPartsFound(t, f, parts) && ResizeFor(t, f, parts).Resized?
      && ShouldUpdateTransform(f, parts)
      && parts.destination == parts.portal
      && t.destinations[parts.destination].mirror.None?
      && Determinant(f.globals[parts.portal].matrix) != 0.0
    ensures var parts := t.partsRecords[e];
            PortalCameraPass(t, num, st, f, e).globals[parts.portalCamera] == f.globals[parts.mainCamera]
  {
    var parts := t.partsRecords[e];
    PortalCameraSelfDestination(num, f.globals[parts.mainCamera], f.globals[parts.portal]);
  }

  /** `update_portal_cameras` over the records in `order`, stopping at a panic. */
  function UpdateFold(t: Tables, num: Numerics, st: PartsStrategy, f: Frame, order: seq<Entity>): Frame
    requires forall i :: 0 <= i < |order| ==> order[i] in t.partsRecords
    decreases |order|
  {
    if |order| == 0 then f
    else
      var prev := UpdateFold(t, num, st, f, order[..|order| - 1]);
      if Abort in prev.log then prev else PortalCameraPass(t, num, st, prev, order[|order| - 1])
  }

  lemma UpdateFoldStep(t: Tables, num: Numerics, st: PartsStrategy, f: Frame, order: seq<Entity>, i: nat)
    requires forall j :: 0 <= j < |order| ==> order[j] in t.partsRecords
    requires i < |order|
    ensures var prev := UpdateFold(t, num, st, f, order[..i]);
            UpdateFold(t, num, st, f, order[..i + 1])
              == if Abort in prev.log then prev else PortalCameraPass(t, num, st, prev, order[i])
  {
    assert order[..i + 1][..i] == order[..i];
  }

  /** Once a pass has panicked, the remaining records change nothing. */
  lemma {:induction false} UpdateFoldAbortStable(t: Tables, num: Numerics, st: PartsStrategy, f: Frame,
                                                 order: seq<Entity>, k: nat)
    requires forall i :: 0 <= i < |order| ==> order[i] in t.partsRecords
    requires k <= |order|
    requires Abort in UpdateFold(t, num, st, f, order[..k]).log
    ensures UpdateFold(t, num, st, f, order) == UpdateFold(t, num, st, f, order[..k])
    decreases |order| - k
  {
    if k < |order| {
      UpdateFoldStep(t, num, st, f, order, k);
      UpdateFoldAbortStable(t, num, st, f, order, k + 1);
    } else {
      assert order[..k] == order;
    }
  }

  /**
    Over the whole loop, only the portal cameras of the visited records move:
    every other entity keeps its Transform and GlobalTransform, no entry is
    added or removed, and commands are only appended.
  */
  lemma {:induction false} UpdateFoldOnlyPortalCameras(t: Tables, num: Numerics, st: PartsStrategy, f: Frame,
                                                       order: seq<Entity>, x: Entity)
    requires forall i :: 0 <= i < |order| ==> order[i] in t.partsRecords
    requires forall i :: 0 <= i < |order| ==> t.partsRecords[order[i]].portalCamera != x
    ensures var r := UpdateFold(t, num, st, f, order);
            && r.globals.Keys == f.globals.Keys && r.transforms.Keys == f.transforms.Keys
            && (x in f.globals ==> r.globals[x] == f.globals[x])
            && (x in f.transforms ==> r.transforms[x] == f.transforms[x])
            && (x in r.changedGlobals <==> x in f.changedGlobals)
            && f.log <= r.log
    decreases |order|
  {
    if |order| > 0 {
      var prev := UpdateFold(t, num, st, f, order[..|order| - 1]);
      UpdateFoldOnlyPortalCameras(t, num, st, f, order[..|order| - 1], x);
      PortalCameraPassFrame(t, num, st, prev, order[|order| - 1]);
    }
  }

  /** One iteration of the loop of `update_portal_cameras`. */
  method UpdatePortalCamera(cmds: Commands, w: World, num: Numerics, st: PartsStrategy, e: Entity)
    requires Abort !in cmds.log
    requires e in w.c.partsRecords
    modifies w`m, w`images, cmds`log
    ensures w.m.frusta == old(w.m.frusta)
    ensures TablesOf(w) == old(TablesOf(w))
    ensures FrameOf(w, cmds) == PortalCameraPass(TablesOf(w), num, st, old(FrameOf(w, cmds)), e)
  {
    ghost var t := TablesOf(w);
    ghost var f := FrameOf(w, cmds);
    var parts := w.c.partsRecords[e];
    var pc := parts.portalCamera;
    if !(pc in w.c.portalCameras && pc in w.m.transforms && pc in w.m.globals && pc in w.c.projections && pc in w.c.cameras) {
      PortalCameraPassMissingPart(t, num, st, f, e);
      DealWithPartQueryError(cmds, w, parts, e, st, QueryErrorFor(w.live, pc), "Portal Camera");
      return;
    }
    if !(parts.mainCamera in w.m.globals && parts.mainCamera in w.c.cameras && parts.mainCamera !in w.c.portalCameras) {
      PortalCameraPassMissingPart(t, num, st, f, e);
      DealWithPartQueryError(cmds, w, parts, e, st, QueryErrorFor(w.live, parts.mainCamera), "Main Camera");
      return;
    }
    if !(parts.portal in w.m.globals && parts.portal in w.c.portalMaterialOf && parts.portal in w.c.portals
         && parts.portal !in w.c.cameras) {
      PortalCameraPassMissingPart(t, num, st, f, e);
      DealWithPartQueryError(cmds, w, parts, e, st, QueryErrorFor(w.live, parts.portal), "Portal");
      return;
    }
    if !(parts.destination in w.m.globals && parts.destination in w.c.destinations && parts.destination !in w.c.cameras) {
      PortalCameraPassMissingPart(t, num, st, f, e);
      DealWithPartQueryError(cmds, w, parts, e, st, QueryErrorFor(w.live, parts.destination), "Destination");
      return;
    }
    assert AllPartsFound(t, f, parts);
    MovePortalCamera(cmds, w, num, st, e);
  }

  /** The rest of one iteration, once all four part queries have succeeded. */
  method MovePortalCamera(cmds: Commands, w: World, num: Numerics, st: PartsStrategy, e: Entity)
    requires e in w.c.partsRecords
    requires AllPartsFound(TablesOf(w), FrameOf(w, cmds), w.c.partsRecords[e])
    modifies w`m, w`images, cmds`log
    ensures w.m.frusta == old(w.m.frusta)
    ensures TablesOf(w) == old(TablesOf(w))
    ensures FrameOf(w, cmds) == PortalCameraPass(TablesOf(w), num, st, old(FrameOf(w, cmds)), e)
  {
    ghost var t := TablesOf(w);
    ghost var f := FrameOf(w, cmds);
    var parts := w.c.partsRecords[e];
    var pc := parts.portalCamera;
    ghost var res := ResizeFor(t, f, parts);
    assert w.Sizes() == SizeParams(f.images, t.primaryWindows, t.windows, t.textureViews);
    var resized := ResizeImageIfNeeded(w, w.c.portalCameras[pc], w.c.cameras[parts.mainCamera],
                                       w.c.portalMaterialOf[parts.portal]);
    assert TablesOf(w) == t;
    if resized.None? {
      assert res.ResizePanic?;
      cmds.Push(Abort);
      return;
    }
    assert res == Resized(resized.value, w.images);
    ghost var f1 := ResizedFrame(f, pc, resized.value, w.images);
    var m := w.m;
    if resized.value {
      m := m.(changedProjections := m.changedProjections + {pc});
    }
    if parts.portal in m.changedGlobals || parts.destination in m.changedGlobals
       || parts.mainCamera in m.changedGlobals {
      var g := PortalCameraTransform(num, m.globals[parts.mainCamera], m.globals[parts.portal],
                                     m.globals[parts.destination], w.c.destinations[parts.destination].mirror);
      m := m.(transforms := m.transforms[pc := AffineToTransform(num, g)],
              globals := m.globals[pc := g],
              changedGlobals := m.changedGlobals + {pc});
    }
    w.m := m;
    assert TablesOf(w) == t;
    assert FrameOf(w, cmds) == MovedFrame(num, t, f1, parts);
  }

  /**
    `update_portal_cameras`, visiting the `PortalParts` records in `order`, which lists
    every record exactly once.
  */
  method UpdatePortalCameras(cmds: Commands, w: World, num: Numerics, st: PartsStrategy, order: seq<Entity>)
    requires Abort !in cmds.log
    requires forall i :: 0 <= i < |order| ==> order[i] in w.c.partsRecords
    requires VisitsEachOnce(order, w.c.partsRecords.Keys)
    modifies w`m, w`images, cmds`log
    ensures w.m.frusta == old(w.m.frusta)
    ensures TablesOf(w) == old(TablesOf(w))
    ensures FrameOf(w, cmds) == UpdateFold(TablesOf(w), num, st, old(FrameOf(w, cmds)), order)
  {
    ghost var t := TablesOf(w);
    ghost var f0 := FrameOf(w, cmds);
    ghost var frusta0 := w.m.frusta;
    var i := 0;
    while i < |order|
      invariant 0 <= i <= |order|
      invariant w.m.frusta == frusta0
      invariant TablesOf(w) == t
      invariant FrameOf(w, cmds) == UpdateFold(t, num, st, f0, order[..i])
      invariant Abort !in cmds.log
    {
      UpdateFoldStep(t, num, st, f0, order, i);
      UpdatePortalCamera(cmds, w, num, st, order[i]);
      if Abort in cmds.log {
        // a panic ends the system
        UpdateFoldAbortStable(t, num, st, f0, order, i + 1);
        return;
      }
      i := i + 1;
    }
    assert order[..|order|] == order;
  }

  /**
    One iteration of `update_portal_camera_frusta`: a portal camera that did
    not move and whose projection did not change is skipped silently; a
    missing destination tears the portal down; otherwise the frustum is
    recomputed.
  */
  function FrustumPass(t: Tables, f: Frame, num: Numerics, st: PartsStrategy,
                       frusta: map<Entity, Frustum>, log: seq<Action>, e: Entity): (r: (map<Entity, Frustum>, seq<Action>))
    requires e in t.partsRecords
    ensures var pc := t.partsRecords[e].portalCamera;
      && r.0.Keys == frusta.Keys
      && (forall x :: x in frusta && x != pc ==> r.0[x] == frusta[x])
      && (pc !in f.changedGlobals && pc !in f.changedProjections ==> r == (frusta, log))
      && log <= r.1
  {
    var parts := t.partsRecords[e];
    var pc := parts.portalCamera;
    if !(pc in t.portalCameras && pc in f.globals && pc in frusta && pc in t.projections && pc in t.cameras
         && (pc in f.changedGlobals || pc in f.changedProjections)) then
      (frusta, log)
    else if !(parts.destination in f.globals && parts.destination in t.destinations) then
      (frusta, log + TeardownActions(t.live, parts, st))
    else
      (frusta[pc := GetFrustum(num, t.portalCameras[pc], f.globals[pc], f.globals[parts.destination],
                               t.projections[pc])], log)
  }

  /**
    A portal camera with all its components that moved or whose projection
    changed gets the frustum `get_frustum` computes from its destination, with
    nothing logged. When its destination is missing, the portal is torn down
    and no frustum changes.
  */
  lemma FrustumPassRecomputes(t: Tables, f: Frame, num: Numerics, st: PartsStrategy,
                              frusta: map<Entity, Frustum>, log: seq<Action>, e: Entity)
    requires e in t.partsRecords
    requires var pc := t.partsRecords[e].portalCamera;
      && pc in t.portalCameras && pc in f.globals && pc in frusta && pc in t.projections && pc in t.cameras
      && (pc in f.changedGlobals || pc in f.changedProjections)
    ensures var parts := t.partsRecords[e];
      var pc := parts.portalCamera;
      var r := FrustumPass(t, f, num, st, frusta, log, e);
      if parts.destination in f.globals && parts.destination in t.destinations then
        && r.0[pc] == GetFrustum(num, t.portalCameras[pc], f.globals[pc], f.globals[parts.destination],
                                 t.projections[pc])
        && r.1 == log
      else
        r == (frusta, log + TeardownActions(t.live, parts, st))
  {
  }

  /** `update_portal_camera_frusta` over the records in `order`, stopping at a panic. */
  function FrustaFold(t: Tables, f: Frame, num: Numerics, st: PartsStrategy,
                      frusta: map<Entity, Frustum>, log: seq<Action>, order: seq<Entity>): (map<Entity, Frustum>, seq<Action>)
    requires forall i :: 0 <= i < |order| ==> order[i] in t.partsRecords
    decreases |order|
  {
    if |order| == 0 then (frusta, log)
    else
      var prev := FrustaFold(t, f, num, st, frusta, log, order[..|order| - 1]);
      if Abort in prev.1 then prev
      else FrustumPass(t, f, num, st, prev.0, prev.1, order[|order| - 1])
  }

  lemma FrustaFoldStep(t: Tables, f: Frame, num: Numerics, st: PartsStrategy,
                       frusta: map<Entity, Frustum>, log: seq<Action>, order: seq<Entity>, i: nat)
    requires forall j :: 0 <= j < |order| ==> order[j] in t.partsRecords
    requires i < |order|
    ensures var prev := FrustaFold(t, f, num, st, frusta, log, order[..i]);
            FrustaFold(t, f, num, st, frusta, log, order[..i + 1])
              == if Abort in prev.1 then prev else FrustumPass(t, f, num, st, prev.0, prev.1, order[i])
  {
    assert order[..i + 1][..i] == order[..i];
  }

  lemma {:induction false} FrustaFoldAbortStable(t: Tables, f: Frame, num: Numerics, st: PartsStrategy,
                                                 frusta: map<Entity, Frustum>, log: seq<Action>,
                                                 order: seq<Entity>, k: nat)
    requires forall i :: 0 <= i < |order| ==> order[i] in t.partsRecords
    requires k <= |order|
    requires Abort in FrustaFold(t, f, num, st, frusta, log, order[..k]).1
    ensures FrustaFold(t, f, num, st, frusta, log, order) == FrustaFold(t, f, num, st, frusta, log, order[..k])
    decreases |order| - k
  {
    if k < |order| {
      FrustaFoldStep(t, f, num, st, frusta, log, order, k);
      FrustaFoldAbortStable(t, f, num, st, frusta, log, order, k + 1);
    } else {
      assert order[..k] == order;
    }
  }

  /**
    Only the frusta of portal cameras that moved or whose projection changed
    are recomputed: every other frustum is left as it was.
  */
  lemma {:induction false} FrustaFoldOnlyChanged(t: Tables, f: Frame, num: Numerics, st: PartsStrategy,
                                                 frusta: map<Entity, Frustum>, log: seq<Action>,
                                                 order: seq<Entity>, x: Entity)
    requires forall i :: 0 <= i < |order| ==> order[i] in t.partsRecords
    requires x in frusta
    requires x !in f.changedGlobals && x !in f.changedProjections
    ensures var r := FrustaFold(t, f, num, st, frusta, log, order);
            r.0.Keys == frusta.Keys && r.0[x] == frusta[x] && log <= r.1
    decreases |order|
  {
    if |order| > 0 {
      FrustaFoldOnlyChanged(t, f, num, st, frusta, log, order[..|order| - 1], x);
    }
  }

  /** One iteration of the loop of `update_portal_camera_frusta`. */
  method UpdatePortalCameraFrustum(cmds: Commands, w: World, num: Numerics, st: PartsStrategy, e: Entity)
    requires Abort !in cmds.log
    requires e in w.c.partsRecords
    modifies w`m, cmds`log
    ensures w.m == old(w.m).(frusta := w.m.frusta)
    ensures (w.m.frusta, cmds.log)
         == FrustumPass(old(TablesOf(w)), old(FrameOf(w, cmds)), num, st, old(w.m.frusta), old(cmds.log), e)
  {
    var c := w.c;
    var m := w.m;
    var parts := c.partsRecords[e];
    var pc := parts.portalCamera;
    if pc in c.portalCameras && pc in m.globals && pc in m.frusta && pc in c.projections && pc in c.cameras
       && (pc in m.changedGlobals || pc in m.changedProjections) {
      if !(parts.destination in m.globals && parts.destination in c.destinations) {
        DealWithPartQueryError(cmds, w, parts, e, st, QueryErrorFor(w.live, parts.destination), "Destination");
        return;
      }
      var frustum := GetFrustum(num, c.portalCameras[pc], m.globals[pc], m.globals[parts.destination],
                                c.projections[pc]);
      w.m := m.(frusta := m.frusta[pc := frustum]);
    }
  }

  /**
    `update_portal_camera_frusta`, visiting the `PortalParts` records in `order`, which lists
    every record exactly once.
  */
  method UpdatePortalCameraFrusta(cmds: Commands, w: World, num: Numerics, st: PartsStrategy, order: seq<Entity>)
    requires Abort !in cmds.log
    requires forall i :: 0 <= i < |order| ==> order[i] in w.c.partsRecords
    requires VisitsEachOnce(order, w.c.partsRecords.Keys)
    modifies w`m, cmds`log
    ensures w.m == old(w.m).(frusta := w.m.frusta)
    ensures (w.m.frusta, cmds.log)
         == FrustaFold(old(TablesOf(w)), old(FrameOf(w, cmds)), num, st, old(w.m.frusta), old(cmds.log), order)
  {
    RecomputeFrusta(cmds, w, num, st, order);
  }

  /** The loop of `update_portal_camera_frusta` over the records listed in `order`. */
  method RecomputeFrusta(cmds: Commands, w: World, num: Numerics, st: PartsStrategy, order: seq<Entity>)
    requires Abort !in cmds.log
    requires forall i :: 0 <= i < |order| ==> order[i] in w.c.partsRecords
    modifies w`m, cmds`log
    ensures w.m == old(w.m).(frusta := w.m.frusta)
    ensures (w.m.frusta, cmds.log)
         == FrustaFold(old(TablesOf(w)), old(FrameOf(w, cmds)), num, st, old(w.m.frusta), old(cmds.log), order)
  {
    ghost var t := TablesOf(w);
    ghost var f := FrameOf(w, cmds);
    ghost var frusta0 := w.m.frusta;
    ghost var log0 := cmds.log;
    ghost var m0 := w.m;
    var i := 0;
    while i < |order|
      invariant 0 <= i <= |order|
      invariant w.m == m0.(frusta := w.m.frusta)
      invariant TablesOf(w) == t
      invariant FrameOf(w, cmds) == f.(log := cmds.log)
      invariant (w.m.frusta, cmds.log) == FrustaFold(t, f, num, st, frusta0, log0, order[..i])
      invariant Abort !in cmds.log
    {
      FrustaFoldStep(t, f, num, st, frusta0, log0, order, i);
      UpdatePortalCameraFrustum(cmds, w, num, st, order[i]);
      if Abort in cmds.log {
        FrustaFoldAbortStable(t, f, num, st, frusta0, log0, order, i + 1);
        return;
      }
      i := i + 1;
    }
    assert order[..|order|] == order;
  }
}
