/** The decisions the portal scene capture takes each time it configures
    itself, stated as functions of its configuration: the normalisation done
    when play begins, the near clip plane, and the refraction branch of the
    transform update. The capture component's methods are proved against these. */
module CameraRules {
  import opened Scene

  /** What Init stores and BeginPlay normalises. */
  datatype Config = Config(cameraType: CameraType, linkedPortal: PortalActor?, exitInFront: bool, weight: real)

  /** BeginPlay's normalisation: only a Portal may exit in front, the weight
      is never negative, and a missing link falls back to the owner, for every
      camera type. */
  function Normalise(c: Config, owner: PortalActor?): (n: Config)
    ensures n.cameraType == c.cameraType
    ensures n.exitInFront <==> c.exitInFront && c.cameraType == Portal
    ensures n.weight >= 0.0
    ensures c.weight >= 0.0 ==> n.weight == c.weight
    ensures c.weight < 0.0 ==> n.weight == 0.0
    ensures c.linkedPortal != null ==> n.linkedPortal == c.linkedPortal
    ensures c.linkedPortal == null ==> n.linkedPortal == owner
  {
    var exitInFront := if c.cameraType != Portal then false else c.exitInFront;
    var weight := if c.weight < 0.0 then 0.0 else c.weight;
    var linked := if c.linkedPortal == null then owner else c.linkedPortal;
    Config(c.cameraType, linked, exitInFront, weight)
  }

  /** Normalising a second time, with the same owner, changes nothing. */
  lemma NormaliseIdempotent(c: Config, owner: PortalActor?)
    ensures Normalise(Normalise(c, owner), owner) == Normalise(c, owner)
  {
  }

  /** A mirror configured without a link reflects its own owner, and never exits in front. */
  lemma MirrorLinksToOwner(weight: real, exitInFront: bool, owner: PortalActor?)
    ensures var n := Normalise(Config(Mirror, null, exitInFront, weight), owner);
      n.linkedPortal == owner && !n.exitInFront
  {
  }

  /** Offset of the clip plane from the target surface, in world units. */
  const CLIP_PLANE_OFFSET: real := 0.3

  datatype ClipPlane = ClipPlane(normal: Vec3, base: Vec3)

  /** The portal whose surface the clip plane sits on: the linked portal for
      a Portal camera, the owner for every other type. */
  function ClipTarget(t: CameraType, linked: PortalActor?, owner: PortalActor?): (target: PortalActor?)
    ensures t == Portal ==> target == linked
    ensures t != Portal ==> target == owner
  {
    if t == Portal then linked else owner
  }

  /** Of the four combinations of "is a mirror" and "exits in front", three
      turn the clip plane to face along the target's forward vector. */
  predicate FacesForward(t: CameraType, exitInFront: bool)
    ensures t == Mirror ==> FacesForward(t, exitInFront)
    ensures t != Mirror ==> (FacesForward(t, exitInFront) <==> exitInFront)
  {
    t == Mirror || exitInFront
  }

  /** The clip plane on `target`: its normal is the target's forward vector
      or its opposite. */
  function ClipPlaneAt(target: PortalActor, facesForward: bool): (p: ClipPlane)
    ensures p.normal == if facesForward then target.forward else Neg(target.forward)
  {
    var normal := Scale(if facesForward then -1.0 else 1.0, Neg(target.forward));
    ClipPlane(normal, Add(target.location, Scale(CLIP_PLANE_OFFSET, normal)))
  }

  /** The clip plane's base lies the fixed offset out from the target's
      location along the normal, and the normal is as long as the forward
      vector, so the base's distance from the surface along the normal is
      the offset scaled by the forward vector's squared length. */
  lemma ClipPlaneOffset(target: PortalActor, facesForward: bool)
    ensures var p := ClipPlaneAt(target, facesForward);
      Sub(p.base, target.location) == Scale(CLIP_PLANE_OFFSET, p.normal)
      && Dot(p.normal, p.normal) == Dot(target.forward, target.forward)
      && Dot(Sub(p.base, target.location), p.normal)
         == CLIP_PLANE_OFFSET * Dot(target.forward, target.forward)
  {
    var p := ClipPlaneAt(target, facesForward);
    assert Sub(p.base, target.location) == Scale(CLIP_PLANE_OFFSET, p.normal);
  }

  /** What the refraction step decides for one frame. */
  datatype RefractionOutcome =
    | Unrefracted               // a Mirror, or equal refractive indices
    | TotalReflection           // the refraction helper returned its -1 sentinel
    | Refracted(rotation: Rotator)  // the watched actor is bent by this rotation

  /** The branch UpdateTransformation takes for the watched actor at `watched`
      in front of `owner`, with refractive indices `n1` and `n2`. */
  function RefractionOf(t: CameraType, n1: real, n2: real, watched: Transform,
                        owner: PortalActor, optics: Optics): (o: RefractionOutcome)
    ensures o.Unrefracted? <==> t == Mirror || n1 == n2
    ensures o.TotalReflection? <==>
      t != Mirror && n1 != n2 &&
      optics.refractionAngle(optics.incidenceAngle(watched.location, owner.middle, owner.forward), n1, n2) == -1.0
    ensures o.Refracted? ==>
      var incidence := optics.incidenceAngle(watched.location, owner.middle, owner.forward);
      o.rotation == optics.bendRotation(watched.location, owner.middle, owner.forward,
                                        incidence - optics.refractionAngle(incidence, n1, n2))
  {
    if t == Mirror || n1 == n2 then Unrefracted
    else
      var incidence := optics.incidenceAngle(watched.location, owner.middle, owner.forward);
      var refraction := optics.refractionAngle(incidence, n1, n2);
      if refraction == -1.0 then TotalReflection
      else Refracted(optics.bendRotation(watched.location, owner.middle, owner.forward, incidence - refraction))
  }

  /** The rotation with its pitch and roll stripped. */
  function YawOnly(r: Rotator): (y: Rotator)
    ensures y.pitch == 0.0 && y.roll == 0.0 && y.yaw == r.yaw
  {
    Rotator(0.0, r.yaw, 0.0)
  }

  /** The watched actor's transform after the refraction step: bent about the
      owner's middle point when refracted, unchanged otherwise. Its rotation
      only ever gains the yaw part of the bend. */
  function BentTransform(o: RefractionOutcome, watched: Transform, owner: PortalActor,
                         optics: Optics): (t: Transform)
    ensures !o.Refracted? ==> t == watched
    ensures o.Refracted? ==>
      t.location == optics.rotateAbout(o.rotation, owner.middle, watched.location) &&
      t.rotation == optics.compose(YawOnly(o.rotation), watched.rotation)
  {
    match o
    case Refracted(rotation) =>
      Transform(optics.rotateAbout(rotation, owner.middle, watched.location),
                optics.compose(YawOnly(rotation), watched.rotation))
    case _ => watched
  }

  /** The total-reflection flag after the step: set on the sentinel, cleared
      on a refraction, left as it was when refraction does not apply. */
  function ReflectionFlagAfter(o: RefractionOutcome, flag: bool): (f: bool)
    ensures o.Unrefracted? ==> f == flag
    ensures !o.Unrefracted? ==> (f <==> o.TotalReflection?)
  {
    match o
    case Unrefracted => flag
    case TotalReflection => true
    case Refracted(_) => false
  }

  /** Equal refractive indices, or a Mirror, leave the watched actor
      unbent whatever the incidence, and the flag as it was. */
  lemma NoBendWithoutRefraction(t: CameraType, n1: real, n2: real, watched: Transform,
                                owner: PortalActor, optics: Optics, flag: bool)
    requires t == Mirror || n1 == n2
    ensures var o := RefractionOf(t, n1, n2, watched, owner, optics);
      BentTransform(o, watched, owner, optics) == watched && ReflectionFlagAfter(o, flag) == flag
  {
  }

  /** Total reflection sets the flag and applies no bend. */
  lemma TotalReflectionSkipsBend(t: CameraType, n1: real, n2: real, watched: Transform,
                                    owner: PortalActor, optics: Optics, flag: bool)
    requires t != Mirror && n1 != n2
    requires optics.refractionAngle(optics.incidenceAngle(watched.location, owner.middle, owner.forward), n1, n2) == -1.0
    ensures var o := RefractionOf(t, n1, n2, watched, owner, optics);
      BentTransform(o, watched, owner, optics) == watched && ReflectionFlagAfter(o, flag)
  {
  }
}
