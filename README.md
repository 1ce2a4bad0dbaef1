# Portal scene capture

A model of `UPortalSceneCapture`, the 2D scene capture component of the
UE-Portals plugin. The component is attached to a portal (or mirror) actor.
Each frame it places itself at the watched actor's pose seen through the
linked portal, puts its near clip plane on the target surface, and captures
into its own render target, whose size is chosen from the viewer's distance
when that target is generated.

The project has four modules:

- `RenderSize` (`render_size.dfy`): the pure size policy.
  - `CalculateRenderSize` clamps the distance into an interpolation factor
    between 300 and 2000 units and interpolates from 1024 down to 256. It
    truncates the result, rounds it up to a power of two and, when a game
    viewport exists, clamps it to the viewport's smaller side rounded up to a
    power of two.
  - The hysteresis of 32 that decides whether a new render target is
    allocated.
- `Scene` (`scene.dfy`): vectors, rotators and transforms; the portal actors;
  render targets as objects with a name and a square size; and `Optics`, the
  record of engine helpers the refraction step calls. The model does not
  interpret those helpers.
- `CameraRules` (`camera_rules.dfy`): the decisions the component takes,
  written as functions:
  - `BeginPlay`'s normalisation of the configuration;
  - the clip-plane target, normal and base;
  - the three-way refraction outcome: unrefracted, total reflection or bent.
- `PortalSceneCapture` (`portal_scene_capture.dfy`): the component itself, a
  class whose fields are the component's state. Its methods update that
  state in place.
  - The state is: configuration, owner, total-reflection flag, cached size,
    last distance, own render target, capture target, pose, clip plane,
    projection, and a count of captures issued.
  - Each method is proved against the functions above.
  - `Valid` states the invariants every method keeps:
    - once found, the owner is the owning actor;
    - the cached size is 0 before the first sizing, and otherwise a size
      `CalculateRenderSize` can return;
    - every target is square at a size `CalculateRenderSize` can return.

Two behaviours of the code are kept as written:

- `UpdateRenderTarget` replaces only the capture target `TextureTarget` and
  never the component's own `m_render_target`. `Update` then overwrites
  `TextureTarget` with `m_render_target`. `ResizeThenUpdate` shows the
  consequence: once there is an owner, a target freshly allocated by a resize
  is no longer the one drawn into after the next frame. `UpdateRenderTarget`
  changes the cached size without resizing `m_render_target`, and the model
  follows the code.
- When the viewport's bound is below 256, the engine's `Clamp(x, 256, bound)`
  returns the bound. The result can then fall below the minimum texture size
  (`ViewportClamp`).

`BeginPlay` links a missing linked portal to the owner for every camera type,
not only for mirrors.

`Update` is verified as three pieces that follow its source lines:
`EnsureDefaultTexture` (lines 121-122), `CaptureFrame` (lines 124-140) and,
inside it, `FollowLinkedPortal` (lines 127-133). Its own contract restates
the whole frame.

## Model

| member | source | states |
|---|---|---|
| RenderSize.RoundUpToPowerOfTwo | Source/Portals/Private/PortalSceneCapture.cpp:104 | the result is a power of two, at least the argument, and its half is below the argument (so it is 1 for arguments up to 1) |
| RenderSize.PowerOfTwoAtLeast | Source/Portals/Private/PortalSceneCapture.cpp:104 | searching upwards from a power of two gives a power of two at or above both the argument and the start, and the least one above the start |
| RenderSize.RoundUpIsLeast | Source/Portals/Private/PortalSceneCapture.cpp:104 | no power of two at or above the argument is smaller than the round-up |
| RenderSize.RoundUpFixesPowers | Source/Portals/Private/PortalSceneCapture.cpp:104 | a power of two rounds up to itself |
| RenderSize.RoundUpMonotone | Source/Portals/Private/PortalSceneCapture.cpp:104 | rounding up preserves order |
| RenderSize.PowerOfTwoAbove | Source/Portals/Private/PortalSceneCapture.cpp:104 | of two powers of two, one more than half of the other is at least the other |
| RenderSize.Clamp | Source/Portals/Private/PortalSceneCapture.cpp:112 | the engine's integer clamp: within the bounds when they are ordered, the value itself when it lies between them |
| RenderSize.ClampReal | Source/Portals/Private/PortalSceneCapture.cpp:102 | the same clamp on reals |
| RenderSize.Alpha | Source/Portals/Private/PortalSceneCapture.cpp:102 | the interpolation factor lies in [0, 1], is 0 up to 300 and 1 from 2000 on |
| RenderSize.LerpedSize | Source/Portals/Private/PortalSceneCapture.cpp:102-103 | the truncated interpolation lies in [256, 1024], is 1024 up to 300 and 256 from 2000 on |
| RenderSize.ScreenBound | Source/Portals/Private/PortalSceneCapture.cpp:111 | the least power of two at or above the smaller side: a power of two at least one side, whose half is below both sides (or 1) |
| RenderSize.CalculateRenderSize | Source/Portals/Private/PortalSceneCapture.cpp:95-116 | every result is a power of two no larger than 1024 (a member of the render sizes) |
| RenderSize.RenderSizesArePowers | Source/Portals/Private/PortalSceneCapture.cpp:95-116 | the render sizes are exactly the powers of two up to 1024 |
| RenderSize.PowersBetweenMinAndMax | Source/Portals/Private/PortalSceneCapture.cpp:97-104 | the powers of two between 256 and 1024 are 256, 512 and 1024 |
| RenderSize.UnclampedSizes | Source/Portals/Private/PortalSceneCapture.cpp:97-104 | without a viewport the size is 256, 512 or 1024; 1024 at distances up to 300 and 256 from 2000 on |
| RenderSize.RoundUpBands | Source/Portals/Private/PortalSceneCapture.cpp:104 | between 256 and 1024, the round-up is 1024 exactly above 512 and 256 only for 256 itself |
| RenderSize.UnclampedBands | Source/Portals/Private/PortalSceneCapture.cpp:97-104 | without a viewport the size is 1024 exactly up to 300 + 1700·511/768 units, 256 exactly beyond 300 + 1700·767/768, and 512 in between |
| RenderSize.LerpedSizeMonotone | Source/Portals/Private/PortalSceneCapture.cpp:102-103 | the interpolated size does not grow with the distance |
| RenderSize.RenderSizeMonotone | Source/Portals/Private/PortalSceneCapture.cpp:95-116 | the render size does not grow with the distance, with or without a viewport |
| RenderSize.ViewportClamp | Source/Portals/Private/PortalSceneCapture.cpp:106-113 | with a viewport the size is at most the screen bound and at most the unclamped size; it is at least 256 exactly when the bound is, and then equals the smaller of the unclamped size and the bound; below 256 it equals the bound |
| RenderSize.NeedsResize | Source/Portals/Private/PortalSceneCapture.cpp:47 | a resize is needed exactly when the desired size lies outside the band of 32 around the cached one, and never for equal sizes |
| RenderSize.NextCachedSize | Source/Portals/Private/PortalSceneCapture.cpp:47-60 | the cached size after an update is the desired or the old one, is never more than 32 from the desired one, and changes exactly when the difference exceeds 32 and the sizes differ |
| RenderSize.DistinctSizesResize | Source/Portals/Private/PortalSceneCapture.cpp:47 | two different power-of-two sizes of at least 64 always differ by more than 32 |
| Scene.PortalOf | Source/Portals/Private/PortalSceneCapture.cpp:71-73 | the owning actor cast to a portal is non-null exactly when it is a portal, and is then that very portal |
| Scene.RenderTarget.constructor | Source/Portals/Private/PortalSceneCapture.cpp:227-232 | a new target carries the given name and is square at the given size |
| CameraRules.Normalise | Source/Portals/Private/PortalSceneCapture.cpp:27-35 | the type is kept; the target may exit in front only when it did and the type is Portal; the weight is never negative, kept when non-negative and 0 when negative; a link is kept and a missing one becomes the owner |
| CameraRules.NormaliseIdempotent | Source/Portals/Private/PortalSceneCapture.cpp:27-35 | normalising twice with the same owner is normalising once |
| CameraRules.MirrorLinksToOwner | Source/Portals/Private/PortalSceneCapture.cpp:27-35 | a mirror without a link reflects its owner and never exits in front |
| CameraRules.ClipTarget | Source/Portals/Private/PortalSceneCapture.cpp:195 | the clip plane sits on the linked portal for a Portal camera and on the owner otherwise |
| CameraRules.FacesForward | Source/Portals/Private/PortalSceneCapture.cpp:198 | a Mirror always faces forward; any other type faces forward exactly when it exits in front |
| CameraRules.ClipPlaneAt | Source/Portals/Private/PortalSceneCapture.cpp:198-200 | the normal is the target's forward vector when facing forward and its opposite otherwise |
| CameraRules.ClipPlaneOffset | Source/Portals/Private/PortalSceneCapture.cpp:198-200 | the base is the target's location plus 0.3 times the normal, and the normal is as long as the forward vector |
| CameraRules.RefractionOf | Source/Portals/Private/PortalSceneCapture.cpp:151-172 | no refraction exactly for a Mirror or equal indices; total reflection exactly when the refraction helper returns -1 otherwise; else the bend is the rotation by incidence minus refraction |
| CameraRules.YawOnly | Source/Portals/Private/PortalSceneCapture.cpp:177-178 | pitch and roll are zero and the yaw is kept |
| CameraRules.BentTransform | Source/Portals/Private/PortalSceneCapture.cpp:167-180 | without a bend the watched transform is unchanged; with one its location is rotated about the portal middle and its rotation gains the yaw part only |
| CameraRules.ReflectionFlagAfter | Source/Portals/Private/PortalSceneCapture.cpp:159-165 | the flag is untouched without refraction, and otherwise set exactly on total reflection |
| CameraRules.NoBendWithoutRefraction | Source/Portals/Private/PortalSceneCapture.cpp:151 | a Mirror or equal indices leave the watched transform and the flag as they were |
| CameraRules.TotalReflectionSkipsBend | Source/Portals/Private/PortalSceneCapture.cpp:160-162 | the -1 sentinel sets the flag and applies no bend |
| PortalSceneCapture.SceneCapture.constructor | Source/Portals/Private/PortalSceneCapture.cpp:12-17 | the cached size and last distance start at 0, with no owner and no targets |
| PortalSceneCapture.SceneCapture.Init | Source/Portals/Private/PortalSceneCapture.cpp:87-93 | the configuration is stored exactly as given |
| PortalSceneCapture.SceneCapture.SetOwnerIfAvailable | Source/Portals/Private/PortalSceneCapture.cpp:67-78 | reports whether the owning actor is a portal, and takes it as owner exactly then |
| PortalSceneCapture.SceneCapture.IsOwnerValid | Source/Portals/Private/PortalSceneCapture.cpp:81-84 | true exactly when there is an owner afterwards; an owner already set is kept; the owner is the owning actor as a portal |
| PortalSceneCapture.SceneCapture.SeedDistance | Source/Portals/Private/PortalSceneCapture.cpp:208-213 | the last recorded distance, or the distance measured now when the last one is 0 |
| PortalSceneCapture.SceneCapture.GenerateDefaultTexture | Source/Portals/Private/PortalSceneCapture.cpp:205-232 | the cached size is the size for the last distance, or for the measured one when the last is 0; the new own target is named and square at that size |
| PortalSceneCapture.SceneCapture.UpdateRenderTarget | Source/Portals/Private/PortalSceneCapture.cpp:38-64 | the last distance is recorded; the cached size follows the hysteresis; on a resize the capture target is a new target at the desired size, otherwise it is unchanged; the own target is not in the frame |
| PortalSceneCapture.SceneCapture.BeginPlay | Source/Portals/Private/PortalSceneCapture.cpp:20-36 | the default texture is generated, the owner looked up, and the configuration becomes its normalisation with that owner |
| PortalSceneCapture.SceneCapture.UpdateNearClipPlane | Source/Portals/Private/PortalSceneCapture.cpp:189-202 | with an owner the clip plane is the one on the clip target with the selected normal; without one it is unchanged |
| PortalSceneCapture.SceneCapture.UpdateTransformation | Source/Portals/Private/PortalSceneCapture.cpp:144-186 | with an owner the pose is the paired transform of the bent watched transform and the flag follows the refraction outcome; without one both are unchanged |
| PortalSceneCapture.NeedsDefaultTexture | Source/Portals/Private/PortalSceneCapture.cpp:121 | a default texture is needed for a missing target, and for a present one exactly when its name is None |
| PortalSceneCapture.SceneCapture.EnsureDefaultTexture | Source/Portals/Private/PortalSceneCapture.cpp:121-122 | a missing or unnamed own target is replaced by a fresh default texture at the seed size; otherwise target and cached size are unchanged |
| PortalSceneCapture.SceneCapture.FollowLinkedPortal | Source/Portals/Private/PortalSceneCapture.cpp:127-133 | with an owner the pose, flag and clip plane are those of the refraction step and the clip rule; without one they are unchanged |
| PortalSceneCapture.SceneCapture.CaptureFrame | Source/Portals/Private/PortalSceneCapture.cpp:124-140 | without an owner nothing is captured or changed; with one the capture draws into the own target with the given projection exactly once, and pose and clip plane change only through a linked portal |
| PortalSceneCapture.SceneCapture.Update | Source/Portals/Private/PortalSceneCapture.cpp:119-141 | the default texture is regenerated exactly when missing or unnamed; exactly one capture into the own target when there is an owner, none otherwise; pose and clip plane follow the linked portal only when there are both an owner and a link |
| PortalSceneCapture.SceneCapture.ResizeThenUpdate | Source/Portals/Private/PortalSceneCapture.cpp:135 | after a resize and a frame with an owner, the capture draws into the own target and not into the freshly resized one |

## Left out

- Engine resource plumbing: format, filter, clear colour, gamma, address modes, mips and `UpdateResource`/`UpdateResourceImmediate`. A render target is an object with a name and a square size.
- The camera manager, `GetComponentLocation` and `GEngine->GameViewport` lookups: the camera distance and the optional viewport come in as a `Frame` parameter.
- The viewport size is a float vector in the engine. Here it is a pair of whole pixel counts, so the truncation of `Min(X, Y)` to an integer happens before the model sees it.
- Floating point: distances and vectors are reals, so rounding in the interpolation and in the clip plane arithmetic is not modelled. Truncating the interpolated size is `Floor`, because the value is positive.
- Incidence and refraction angles, the incidence-plane rotation, rotation about a point, quaternion composition and `Tools::ComputeNewTransform` are uninterpreted helpers supplied in `Optics`. `ComputeNewTransform` also receives the component, which the helper supplied for the frame stands for.
- Portal actors (`GetMiddlePoint`, `GetActorForwardVector`, `GetActorLocation`) are fixed values for the duration of the model. `Portal.h` and `PortalTools.h` are not part of this model.
- `GetTrueType()` and `getType()` are both the stored camera type; the header that defines them is not part of this model. If `getType()` consults the total-reflection flag, the clip-plane target and normal it selects during total reflection are not captured.
- `GetOwner()` returning null is not modelled: the owning actor is either a portal or some other actor.
- `CaptureScene()` is a counter of captures issued; `SetWorldTransform` is assignment of the pose; `UE_LOG` is dropped.
- Transforms carry a location and a rotation only; scale is not modelled.
- The refractive indices are fixed when the component is constructed, as the source never writes them.
- The total-reflection flag is written but read by nothing in the model. What reads it is in the header, which is not part of this model (possibly `getType()`, used by the clip-plane rule at lines 193-195, and `Tools::ComputeNewTransform`). `TotalReflectionSkipsBend` therefore states only that total reflection applies no bend, not that the capture then behaves as a mirror.
- PortalSceneCapture.SceneCapture.constructor: the header that declares the component's fields is not part of this model. Its defaults are assumed: type Portal, no link, not exiting in front, weight 0, no owner, flag cleared, no targets, an identity pose and projection left empty. Only the cached size and the last distance of 0 come from the constructor's own lines 12-17.
- `UpdateNearClipPlane` with a Portal type and no link dereferences null at line 198. The model requires a link, which its only caller in this file (line 127) guarantees.
