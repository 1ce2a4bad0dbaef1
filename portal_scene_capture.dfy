/** The portal scene capture component: a 2D scene capture attached to a
    portal (or mirror) actor that, once per frame, places itself behind the
    linked portal, sets its near clip plane on the target surface, and
    captures into a render target sized from the viewer's distance. */
module PortalSceneCapture {
  import opened RenderSize
  import opened Scene
  import opened CameraRules

  /** What the component reads from the engine in one frame: the distance
      from the first player's camera to the component, and the game
      viewport's size when there is a viewport. */
  datatype Frame = Frame(cameraDistance: real, viewport: Option<Viewport>)

  /** A render target that Update replaces by a default texture. */
  predicate NeedsDefaultTexture(rt: RenderTarget?)
    ensures rt == null ==> NeedsDefaultTexture(rt)
    ensures rt != null ==> (NeedsDefaultTexture(rt) <==> rt.name == NoneName)
  {
    rt == null || rt.name == NoneName
  }

  class SceneCapture {
    /** The actor the component is attached to. */
    const owningActor: OwningActor
    /** Refractive index on the owner's side and on the linked side. */
    const refractiveIndex1: real
    const refractiveIndex2: real

    var cameraType: CameraType
    var linkedPortal: PortalActor?
    var exitInFront: bool
    var weight: real
    /** The owning actor as a portal, looked up lazily. */
    var owner: PortalActor?
    var isTotalReflection: bool

    var cachedRenderSize: int
    var lastDistanceToCamera: real
    /** The component's own default texture. */
    var renderTarget: RenderTarget?
    /** The target the capture draws into. */
    var textureTarget: RenderTarget?

    var worldTransform: Transform
    var clipPlaneNormal: Vec3
    var clipPlaneBase: Vec3
    var customProjection: Matrix
    /** How many scene captures have been issued. */
    var captureCount: nat

    /** The owner, once found, is the owning actor; every size held is one
        CalculateRenderSize can return, and every target is square at such a size. */
    ghost predicate Valid()
      reads this`owner, this`cachedRenderSize, this`renderTarget, this`textureTarget
    {
      OwnerValid() && SizesValid()
    }

    ghost predicate OwnerValid()
      reads this`owner
    {
      owner != null ==> owningActor == PortalOwner(owner)
    }

    ghost predicate SizesValid()
      reads this`cachedRenderSize, this`renderTarget, this`textureTarget
    {
      (cachedRenderSize == 0 || IsRenderSize(cachedRenderSize))
      && (renderTarget != null ==>
            renderTarget.sizeX == renderTarget.sizeY && IsRenderSize(renderTarget.sizeX))
      && (textureTarget != null ==>
            textureTarget.sizeX == textureTarget.sizeY && IsRenderSize(textureTarget.sizeX))
    }

    function Configuration(): Config
      reads this`cameraType, this`linkedPortal, this`exitInFront, this`weight
    {
      Config(cameraType, linkedPortal, exitInFront, weight)
    }

    /** The distance the default texture is sized from: the last one
        recorded, or the one measured now when none has been recorded. */
    function SeedDistance(frame: Frame): (d: real)
      reads this`lastDistanceToCamera
      ensures lastDistanceToCamera == 0.0 ==> d == frame.cameraDistance
      ensures lastDistanceToCamera != 0.0 ==> d == lastDistanceToCamera
    {
      if lastDistanceToCamera == 0.0 then frame.cameraDistance else lastDistanceToCamera
    }

    /** What the refraction step decides for the watched actor, once there is an owner. */
    function Outcome(watched: Transform, optics: Optics): RefractionOutcome
      reads this`owner, this`cameraType
      requires owner != null
    {
      RefractionOf(cameraType, refractiveIndex1, refractiveIndex2, watched, owner, optics)
    }

    /** The pose UpdateTransformation gives the capture, once there is an owner. */
    function PoseFor(watched: Transform, optics: Optics): Transform
      reads this`owner, this`cameraType
      requires owner != null
    {
      optics.pairedTransform(BentTransform(Outcome(watched, optics), watched, owner, optics), owner)
    }

    /** The clip plane UpdateNearClipPlane sets, once there is an owner. */
    function NearClipPlane(): ClipPlane
      reads this`owner, this`cameraType, this`linkedPortal, this`exitInFront
      requires owner != null && (cameraType == Portal ==> linkedPortal != null)
    {
      ClipPlaneAt(ClipTarget(cameraType, linkedPortal, owner), FacesForward(cameraType, exitInFront))
    }

    constructor (owningActor: OwningActor, refractiveIndex1: real, refractiveIndex2: real)
      ensures Valid()
      ensures this.owningActor == owningActor
      ensures this.refractiveIndex1 == refractiveIndex1 && this.refractiveIndex2 == refractiveIndex2
      ensures cachedRenderSize == 0 && lastDistanceToCamera == 0.0
      ensures owner == null && renderTarget == null && textureTarget == null
      ensures Configuration() == Config(Portal, null, false, 0.0)
      ensures captureCount == 0 && !isTotalReflection
    {
      this.owningActor := owningActor;
      this.refractiveIndex1 := refractiveIndex1;
      this.refractiveIndex2 := refractiveIndex2;
      cameraType := Portal;
      linkedPortal := null;
      exitInFront := false;
      weight := 0.0;
      owner := null;
      isTotalReflection := false;
      cachedRenderSize := 0;
      lastDistanceToCamera := 0.0;
      renderTarget := null;
      textureTarget := null;
      worldTransform := Transform(Vec3(0.0, 0.0, 0.0), Rotator(0.0, 0.0, 0.0));
      clipPlaneNormal := Vec3(0.0, 0.0, 0.0);
      clipPlaneBase := Vec3(0.0, 0.0, 0.0);
      customProjection := [];
      captureCount := 0;
    }

    /** Stores the configuration exactly as given. */
    method Init(t: CameraType, linked: PortalActor?, exit: bool, w: real)
      requires Valid()
      modifies this`cameraType, this`linkedPortal, this`exitInFront, this`weight
      ensures Valid()
      ensures Configuration() == Config(t, linked, exit, w)
    {
      cameraType := t;
      linkedPortal := linked;
      exitInFront := exit;
      weight := w;
    }

    /** Takes the owning actor as owner when it is a portal. */
    method SetOwnerIfAvailable() returns (found: bool)
      requires Valid()
      modifies this`owner
      ensures Valid()
      ensures found <==> owningActor.PortalOwner?
      ensures owner == if found then PortalOf(owningActor) else old(owner)
    {
      match owningActor
      case PortalOwner(p) =>
        owner := p;
        found := true;
      case OtherActor =>
        found := false;
    }

    /** True when there is an owner, looking it up first if there is none
        yet. An owner once found is kept. */
    method IsOwnerValid() returns (valid: bool)
      requires Valid()
      modifies this`owner
      ensures Valid()
      ensures valid <==> owner != null
      ensures old(owner) != null ==> owner == old(owner)
      ensures owner == PortalOf(owningActor)
    {
      if owner != null {
        valid := true;
      } else {
        valid := SetOwnerIfAvailable();
      }
    }

    /** Allocates the component's own render target, named and square at the
        size for the seed distance, and caches that size. */
    method GenerateDefaultTexture(frame: Frame)
      requires Valid()
      modifies this`cachedRenderSize, this`renderTarget
      ensures Valid()
      ensures cachedRenderSize == CalculateRenderSize(SeedDistance(frame), frame.viewport)
      ensures fresh(renderTarget) && renderTarget.name == DefaultTexture
      ensures renderTarget.sizeX == cachedRenderSize && renderTarget.sizeY == cachedRenderSize
    {
      var distance := lastDistanceToCamera;
      if distance == 0.0 {
        distance := frame.cameraDistance;
      }
      var currentSize := CalculateRenderSize(distance, frame.viewport);
      cachedRenderSize := currentSize;
      renderTarget := new RenderTarget(DefaultTexture, currentSize);
    }

    /** Re-sizes the capture's target from the current distance when the
        desired size has moved by more than the threshold, and records the
        distance. It assigns the capture's target and leaves the component's
        own render target alone. */
    method UpdateRenderTarget(frame: Frame)
      requires Valid()
      modifies this`textureTarget, this`cachedRenderSize, this`lastDistanceToCamera
      ensures Valid()
      ensures lastDistanceToCamera == frame.cameraDistance
      ensures var desired := CalculateRenderSize(frame.cameraDistance, frame.viewport);
        cachedRenderSize == NextCachedSize(desired, old(cachedRenderSize))
        && (NeedsResize(desired, old(cachedRenderSize)) ==>
              fresh(textureTarget) && textureTarget.sizeX == desired && textureTarget.sizeY == desired)
        && (!NeedsResize(desired, old(cachedRenderSize)) ==> textureTarget == old(textureTarget))
    {
      var distance := frame.cameraDistance;
      var desiredSize := CalculateRenderSize(distance, frame.viewport);
      if NeedsResize(desiredSize, cachedRenderSize) {
        var newTarget := new RenderTarget(Generated, desiredSize);
        textureTarget := newTarget;
        cachedRenderSize := desiredSize;
      }
      lastDistanceToCamera := distance;
    }

    /** Creates the default texture, looks up the owner, and normalises the configuration. */
    method BeginPlay(frame: Frame)
      requires Valid()
      modifies this`cachedRenderSize, this`renderTarget, this`owner
      modifies this`exitInFront, this`weight, this`linkedPortal
      ensures Valid()
      ensures cachedRenderSize == CalculateRenderSize(SeedDistance(frame), frame.viewport)
      ensures fresh(renderTarget) && renderTarget.name == DefaultTexture
      ensures renderTarget.sizeX == cachedRenderSize && renderTarget.sizeY == cachedRenderSize
      ensures owner == PortalOf(owningActor)
      ensures Configuration() == Normalise(old(Configuration()), owner)
    {
      GenerateDefaultTexture(frame);
      var _ := SetOwnerIfAvailable();
      if cameraType != Portal {
        exitInFront := false;
      }
      if weight < 0.0 {
        weight := 0.0;
      }
      if linkedPortal == null {
        linkedPortal := owner;
      }
    }

    /** Places the near clip plane on the target surface, when there is an owner. */
    method UpdateNearClipPlane()
      requires Valid()
      requires cameraType == Portal ==> linkedPortal != null
      modifies this`owner, this`clipPlaneNormal, this`clipPlaneBase
      ensures Valid()
      ensures owner == PortalOf(owningActor)
      ensures owner == null ==>
        clipPlaneNormal == old(clipPlaneNormal) && clipPlaneBase == old(clipPlaneBase)
      ensures owner != null ==> ClipPlane(clipPlaneNormal, clipPlaneBase) == NearClipPlane()
    {
      var valid := IsOwnerValid();
      if valid {
        var isMirror := cameraType == Mirror;
        var target := if cameraType == Portal then linkedPortal else owner;
        clipPlaneNormal := Scale(if isMirror || exitInFront then -1.0 else 1.0, Neg(target.forward));
        clipPlaneBase := Add(target.location, Scale(CLIP_PLANE_OFFSET, clipPlaneNormal));
      }
    }

    /** Places the capture at the watched actor's pose seen through the
        linked portal, bent first when the two sides refract differently. */
    method UpdateTransformation(watched: Transform, optics: Optics)
      requires Valid()
      modifies this`owner, this`worldTransform, this`isTotalReflection
      ensures Valid()
      ensures owner == PortalOf(owningActor)
      ensures owner == null ==>
        worldTransform == old(worldTransform) && isTotalReflection == old(isTotalReflection)
      ensures owner != null ==>
        worldTransform == PoseFor(watched, optics)
        && isTotalReflection == ReflectionFlagAfter(Outcome(watched, optics), old(isTotalReflection))
    {
      var valid := IsOwnerValid();
      if valid {
        var modified := watched;
        if cameraType != Mirror && refractiveIndex1 != refractiveIndex2 {
          var portalMid := owner.middle;
          var portalNormal := owner.forward;
          var actorPos := modified.location;
          var incidence := optics.incidenceAngle(actorPos, portalMid, portalNormal);
          var refraction := optics.refractionAngle(incidence, refractiveIndex1, refractiveIndex2);
          if refraction == -1.0 {
            isTotalReflection := true;
          } else {
            isTotalReflection := false;
            var rotation := optics.bendRotation(actorPos, portalMid, portalNormal, incidence - refraction);
            modified := modified.(location := optics.rotateAbout(rotation, portalMid, modified.location));
            var yawOnly := rotation.(pitch := 0.0, roll := 0.0);
            modified := modified.(rotation := optics.compose(yawOnly, modified.rotation));
          }
        }
        worldTransform := optics.pairedTransform(modified, owner);
      }
    }

    /** The first step of a frame: a missing or unnamed render target is
        replaced by a freshly generated default texture. */
    method EnsureDefaultTexture(frame: Frame)
      requires Valid()
      modifies this`cachedRenderSize, this`renderTarget
      ensures Valid()
      ensures NeedsDefaultTexture(old(renderTarget)) ==>
        fresh(renderTarget) && renderTarget.name == DefaultTexture
        && cachedRenderSize == CalculateRenderSize(SeedDistance(frame), frame.viewport)
        && renderTarget.sizeX == cachedRenderSize && renderTarget.sizeY == cachedRenderSize
      ensures !NeedsDefaultTexture(old(renderTarget)) ==>
        renderTarget == old(renderTarget) && cachedRenderSize == old(cachedRenderSize)
    {
      if NeedsDefaultTexture(renderTarget) {
        GenerateDefaultTexture(frame);
      }
    }

    /** Follows the linked portal: the capture's pose, then its near clip plane. */
    method FollowLinkedPortal(watched: Transform, optics: Optics)
      requires Valid()
      requires linkedPortal != null
      modifies this`owner, this`worldTransform, this`isTotalReflection, this`clipPlaneNormal, this`clipPlaneBase
      ensures Valid()
      ensures owner == PortalOf(owningActor)
      ensures owner == null ==>
        worldTransform == old(worldTransform) && isTotalReflection == old(isTotalReflection)
        && clipPlaneNormal == old(clipPlaneNormal) && clipPlaneBase == old(clipPlaneBase)
      ensures owner != null ==>
        worldTransform == PoseFor(watched, optics)
        && isTotalReflection == ReflectionFlagAfter(Outcome(watched, optics), old(isTotalReflection))
        && ClipPlane(clipPlaneNormal, clipPlaneBase) == NearClipPlane()
    {
      UpdateTransformation(watched, optics);
      UpdateNearClipPlane();
    }

    /** The second step of a frame: when there is an owner, follow the
        linked portal (if any), hand the capture the component's own target
        and the projection, and capture once. */
    method CaptureFrame(watched: Transform, projection: Matrix, optics: Optics)
      requires Valid()
      modifies this`owner, this`worldTransform, this`isTotalReflection, this`clipPlaneNormal, this`clipPlaneBase
      modifies this`textureTarget, this`customProjection, this`captureCount
      ensures Valid()
      ensures owner == PortalOf(owningActor)
      ensures owner == null ==>
        textureTarget == old(textureTarget) && customProjection == old(customProjection)
        && captureCount == old(captureCount)
      ensures owner != null ==>
        textureTarget == renderTarget && customProjection == projection
        && captureCount == old(captureCount) + 1
      ensures owner == null || linkedPortal == null ==>
        worldTransform == old(worldTransform) && isTotalReflection == old(isTotalReflection)
        && clipPlaneNormal == old(clipPlaneNormal) && clipPlaneBase == old(clipPlaneBase)
      ensures owner != null && linkedPortal != null ==>
        worldTransform == PoseFor(watched, optics)
        && isTotalReflection == ReflectionFlagAfter(Outcome(watched, optics), old(isTotalReflection))
        && ClipPlane(clipPlaneNormal, clipPlaneBase) == NearClipPlane()
    {
      var valid := IsOwnerValid();
      if valid {
        if linkedPortal != null {
          FollowLinkedPortal(watched, optics);
        }
        textureTarget, customProjection, captureCount := renderTarget, projection, captureCount + 1;
      }
    }

    /** One frame: make sure the default texture exists, then, when there is
        an owner, follow the linked portal (if any), hand the capture its
        target and projection, and capture once. */
    method Update(watched: Transform, projection: Matrix, frame: Frame, optics: Optics)
      requires Valid()
      modifies this`cachedRenderSize, this`renderTarget, this`owner
      modifies this`worldTransform, this`isTotalReflection, this`clipPlaneNormal, this`clipPlaneBase
      modifies this`textureTarget, this`customProjection, this`captureCount
      ensures Valid()
      ensures owner == PortalOf(owningActor)
      // the default texture is regenerated exactly when it is missing or unnamed
      ensures NeedsDefaultTexture(old(renderTarget)) ==>
        fresh(renderTarget) && renderTarget.name == DefaultTexture
        && cachedRenderSize == CalculateRenderSize(SeedDistance(frame), frame.viewport)
        && renderTarget.sizeX == cachedRenderSize && renderTarget.sizeY == cachedRenderSize
      ensures !NeedsDefaultTexture(old(renderTarget)) ==>
        renderTarget == old(renderTarget) && cachedRenderSize == old(cachedRenderSize)
      // without an owner nothing is captured and the capture is left as it was
      ensures owner == null ==>
        textureTarget == old(textureTarget) && customProjection == old(customProjection)
        && captureCount == old(captureCount)
      // with an owner the capture draws into the component's own target, exactly once
      ensures owner != null ==>
        textureTarget == renderTarget && customProjection == projection
        && captureCount == old(captureCount) + 1
      // the pose and the clip plane follow the linked portal only when there is one
      ensures owner == null || linkedPortal == null ==>
        worldTransform == old(worldTransform) && isTotalReflection == old(isTotalReflection)
        && clipPlaneNormal == old(clipPlaneNormal) && clipPlaneBase == old(clipPlaneBase)
      ensures owner != null && linkedPortal != null ==>
        worldTransform == PoseFor(watched, optics)
        && isTotalReflection == ReflectionFlagAfter(Outcome(watched, optics), old(isTotalReflection))
        && ClipPlane(clipPlaneNormal, clipPlaneBase) == NearClipPlane()
    {
      EnsureDefaultTexture(frame);
      CaptureFrame(watched, projection, optics);
    }

    /** A resize followed by a frame: the target UpdateRenderTarget allocates
        is returned as `resized`, and once there is an owner the frame hands
        the capture the component's own render target instead, so the
        resized target is no longer drawn into. */
    method ResizeThenUpdate(watched: Transform, projection: Matrix, frame: Frame, optics: Optics)
      returns (resized: RenderTarget?)
      requires Valid()
      modifies this`cachedRenderSize, this`renderTarget, this`owner, this`lastDistanceToCamera
      modifies this`worldTransform, this`isTotalReflection, this`clipPlaneNormal, this`clipPlaneBase
      modifies this`textureTarget, this`customProjection, this`captureCount
      ensures Valid()
      ensures NeedsResize(CalculateRenderSize(frame.cameraDistance, frame.viewport), old(cachedRenderSize)) ==>
        fresh(resized)
      ensures owner != null ==> textureTarget == renderTarget
      ensures owner != null && fresh(resized) ==> textureTarget != resized
    {
      UpdateRenderTarget(frame);
      resized := textureTarget;
      Update(watched, projection, frame, optics);
    }
  }
}
