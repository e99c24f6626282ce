/**
  What the engine supplies to the handlers.

  Unity is polled by the handlers (`Input.*`, `Time.*`, `Physics.Raycast`, `OverlapSphere`);
  here one `Frame` value carries everything those calls return during one frame, and a
  `Scene` carries what the handlers look up when they are initialised.  A raycast result is
  the `GrabbableObject` on the collider hit, or `null` when nothing is hit or the collider
  has no such component; ranges and layer masks are already applied to it.
*/
module FrameInputs {
  import opened Wrappers
  import opened InteractionTypes
  import opened Grabbables

  /** A screen position (`Vector2`, or `Input.mousePosition` with its zero depth). */
  datatype Point = Point(x: real, y: real)

  function SquaredDistance(p: Point, q: Point): (d: real)
    ensures d >= 0.0
    ensures d == 0.0 <== p == q
  {
    (p.x - q.x) * (p.x - q.x) + (p.y - q.y) * (p.y - q.y)
  }

  /** `Distance(p, start) > threshold`, stated without the square root: every distance beats
      a negative threshold, otherwise squares of non-negative numbers compare as they do. */
  predicate DragExceeds(p: Point, start: Point, threshold: real) {
    threshold < 0.0 || SquaredDistance(p, start) > threshold * threshold
  }

  /** Per XR interactor: its select signal and what the handler's probes find.
      `overlap` is the first grabbable in the 0.1 m sphere, `selected` the grabbable of the
      interactor's first selected interactable, `rayHit` the remote-grab raycast. */
  datatype InteractorInput = InteractorInput(
    selectActive: bool,
    overlap: GrabbableObject?,
    selected: GrabbableObject?,
    rayHit: GrabbableObject?)

  datatype TouchPhase = Began | Moved | Stationary | Ended | Canceled

  /** `Input.GetTouch(0)` and the grabbable under it. */
  datatype TouchInput = TouchInput(phase: TouchPhase, position: Point, hit: GrabbableObject?)

  /** Mouse button 0 (`GetMouseButtonDown`, `GetMouseButton`, `GetMouseButtonUp`), the
      pointer position and the grabbable under it. */
  datatype PointerInput = PointerInput(buttonDown: bool, button: bool, buttonUp: bool, position: Point, hit: GrabbableObject?)

  /** One frame of input.  `platform` is what `PlatformDetector.CurrentPlatform` answers
      during the frame; `touch` is `None` when `Input.touchCount` is zero. */
  datatype Frame = Frame(
    platform: InteractionPlatform,
    time: real,
    deltaTime: real,
    vr: map<Actor, InteractorInput>,
    touch: Option<TouchInput>,
    mouse: PointerInput,
    gazeHit: GrabbableObject?,
    grabKeyDown: bool,
    releaseKeyDown: bool)

  /** An interactor the frame says nothing about: select off, nothing found. */
  const NoInteractorInput := InteractorInput(false, null, null, null)

  function InteractorOf(f: Frame, a: Actor): InteractorInput {
    if a in f.vr then f.vr[a] else NoInteractorInput
  }

  /** What initialisation finds in the scene: the XR interactors (`None` for a destroyed one)
      and the main camera's transform, if there is a camera. */
  datatype Scene = Scene(interactors: seq<Option<Actor>>, camera: Option<Actor>)

  /** The objects a frame's probes can return. */
  function FrameObjects(f: Frame): set<GrabbableObject> {
    (if f.touch.Some? && f.touch.value.hit != null then {f.touch.value.hit} else {})
    + (if f.mouse.hit != null then {f.mouse.hit} else {})
    + (if f.gazeHit != null then {f.gazeHit} else {})
  }

  /** Raising the threshold never creates a drag. */
  lemma DragThresholdIsMonotone(p: Point, start: Point, t1: real, t2: real)
    requires 0.0 <= t1 <= t2
    ensures DragExceeds(p, start, t2) ==> DragExceeds(p, start, t1)
  {
    assert t1 * t1 <= t2 * t2 by {
      assert t1 * t1 <= t1 * t2 <= t2 * t2;
    }
  }

  /** A pointer that has not moved never drags past a non-negative threshold. */
  lemma NoDragInPlace(p: Point, threshold: real)
    requires threshold >= 0.0
    ensures !DragExceeds(p, p, threshold)
  {
  }
}
