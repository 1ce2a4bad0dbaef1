/** The world the portal scene capture sees: vectors, transforms, the portal
    actors it is attached to or looks through, render targets, and the engine
    helpers it calls, which the model does not interpret. */
module Scene {

  datatype Vec3 = Vec3(x: real, y: real, z: real)

  function Add(a: Vec3, b: Vec3): Vec3 {
    Vec3(a.x + b.x, a.y + b.y, a.z + b.z)
  }

  function Sub(a: Vec3, b: Vec3): Vec3 {
    Vec3(a.x - b.x, a.y - b.y, a.z - b.z)
  }

  function Neg(a: Vec3): Vec3 {
    Vec3(-a.x, -a.y, -a.z)
  }

  function Scale(k: real, a: Vec3): Vec3 {
    Vec3(k * a.x, k * a.y, k * a.z)
  }

  function Dot(a: Vec3, b: Vec3): real {
    a.x * b.x + a.y * b.y + a.z * b.z
  }

  /** An orientation as pitch, yaw and roll in degrees. */
  datatype Rotator = Rotator(pitch: real, yaw: real, roll: real)

  /** A world transform: where an actor is and how it is turned. */
  datatype Transform = Transform(location: Vec3, rotation: Rotator)

  /** A projection matrix, passed through to the capture unchanged. */
  type Matrix = seq<real>

  datatype CameraType = Portal | Mirror | PortalStatic

  /** A portal actor as the capture component reads it: its forward vector,
      its location and the middle point of its surface. */
  class PortalActor {
    const forward: Vec3
    const location: Vec3
    const middle: Vec3

    constructor (forward: Vec3, location: Vec3, middle: Vec3)
      ensures this.forward == forward && this.location == location && this.middle == middle
    {
      this.forward := forward;
      this.location := location;
      this.middle := middle;
    }
  }

  /** The actor a component is attached to: a portal, or some other actor. */
  datatype OwningActor = PortalOwner(portal: PortalActor) | OtherActor

  /** The owning actor cast to a portal, or null when it is not one. */
  function PortalOf(a: OwningActor): (p: PortalActor?)
    ensures p != null <==> a.PortalOwner?
    ensures a.PortalOwner? ==> p == a.portal
  {
    match a
    case PortalOwner(portal) => portal
    case OtherActor => null
  }

  /** An object name as far as the capture cares: the engine's "None" name,
      the name "Default texture" the component gives its own target, or a
      name the engine generates for an object created without one. */
  datatype ObjectName = NoneName | DefaultTexture | Generated

  /** A square 2D render target; only its identity, name and size matter here. */
  class RenderTarget {
    const name: ObjectName
    const sizeX: int
    const sizeY: int

    constructor (name: ObjectName, size: int)
      ensures this.name == name && sizeX == size && sizeY == size
    {
      this.name := name;
      sizeX := size;
      sizeY := size;
    }
  }

  /** The engine helpers the refraction step calls, left uninterpreted.
      - incidenceAngle(actorPos, portalMiddle, portalNormal)
      - refractionAngle(incidence, n1, n2), -1 when there is no real solution
      - bendRotation(actorPos, portalMiddle, portalNormal, angle): the rotation by
        `angle` degrees about the normal of the plane through the actor, the
        middle point and the middle point plus the normal
      - rotateAbout(rotation, pivot, point)
      - compose(a, b): the quaternion product a * b
      - pairedTransform(t, ownerPortal): maps a transform seen in front of the
        owner portal to the pose of the capture behind the linked one */
  datatype Optics = Optics(
    incidenceAngle: (Vec3, Vec3, Vec3) -> real,
    refractionAngle: (real, real, real) -> real,
    bendRotation: (Vec3, Vec3, Vec3, real) -> Rotator,
    rotateAbout: (Rotator, Vec3, Vec3) -> Vec3,
    compose: (Rotator, Rotator) -> Rotator,
    pairedTransform: (Transform, PortalActor) -> Transform)
}
