/**
  The mobile handler (Platforms/MobileInteractionHandler.cs): touch (with a mouse fallback)
  drives highlight, drag and tap; a centre-screen gaze ray drives a dwell timer that fires a
  grab-and-release pulse.  The camera's transform is the grabber of every grab it makes.
*/
module MobileHandling {
  import opened Wrappers
  import opened InteractionTypes
  import opened Grabbables
  import opened FrameInputs

  // ---------------------------------------------------------------------------------------
  // The gaze dwell timer.

  /** One frame of continued gaze: the timer grows by `deltaTime`, and on reaching the
      threshold a pulse fires and the timer starts again from zero. */
  datatype GazeStep = GazeStep(timer: real, pulse: bool)

  function GazeTick(timer: real, deltaTime: real, threshold: real): GazeStep {
    var t := timer + deltaTime;
    if t >= threshold then GazeStep(0.0, true) else GazeStep(t, false)
  }

  /** Continued gaze over several frames: the final timer and the number of pulses. */
  datatype GazeTotal = GazeTotal(timer: real, pulses: nat)

  function GazeRun(timer: real, deltas: seq<real>, threshold: real): GazeTotal
    decreases |deltas|
  {
    if |deltas| == 0 then GazeTotal(timer, 0)
    else
      var step := GazeTick(timer, deltas[0], threshold);
      var rest := GazeRun(step.timer, deltas[1..], threshold);
      GazeTotal(rest.timer, rest.pulses + if step.pulse then 1 else 0)
  }

  function Sum(deltas: seq<real>): real
    decreases |deltas|
  {
    if |deltas| == 0 then 0.0 else deltas[0] + Sum(deltas[1..])
  }

  predicate NonNegative(deltas: seq<real>) {
    forall i | 0 <= i < |deltas| :: deltas[i] >= 0.0
  }

  lemma {:induction false} SumOfNonNegative(deltas: seq<real>)
    requires NonNegative(deltas)
    ensures Sum(deltas) >= 0.0
    decreases |deltas|
  {
    if |deltas| > 0 {
      SumOfNonNegative(deltas[1..]);
    }
  }

  /** While the accumulated gaze stays below the threshold nothing fires and the timer is
      the running sum. */
  lemma {:induction false} GazeQuietBelowThreshold(timer: real, deltas: seq<real>, threshold: real)
    requires NonNegative(deltas) && timer + Sum(deltas) < threshold
    ensures GazeRun(timer, deltas, threshold) == GazeTotal(timer + Sum(deltas), 0)
    decreases |deltas|
  {
    if |deltas| > 0 {
      SumOfNonNegative(deltas[1..]);
      GazeQuietBelowThreshold(timer + deltas[0], deltas[1..], threshold);
    }
  }

  lemma {:induction false} GazeRunAppend(timer: real, deltas: seq<real>, d: real, threshold: real)
    ensures GazeRun(timer, deltas + [d], threshold) ==
              var first := GazeRun(timer, deltas, threshold);
              var last := GazeTick(first.timer, d, threshold);
              GazeTotal(last.timer, first.pulses + if last.pulse then 1 else 0)
    decreases |deltas|
  {
    if |deltas| == 0 {
      assert deltas + [d] == [d];
    } else {
      assert (deltas + [d])[1..] == deltas[1..] + [d];
      GazeRunAppend(GazeTick(timer, deltas[0], threshold).timer, deltas[1..], d, threshold);
    }
  }

  /** Gazing at one object from a fresh timer: the first frame whose delta carries the sum
      over the threshold fires exactly one pulse and resets the timer. */
  lemma GazeFiresOnceAtThreshold(deltas: seq<real>, d: real, threshold: real)
    requires NonNegative(deltas) && Sum(deltas) < threshold <= Sum(deltas) + d
    ensures GazeRun(0.0, deltas, threshold).pulses == 0
    ensures GazeRun(0.0, deltas + [d], threshold) == GazeTotal(0.0, 1)
  {
    GazeQuietBelowThreshold(0.0, deltas, threshold);
    GazeRunAppend(0.0, deltas, d, threshold);
  }

  // ---------------------------------------------------------------------------------------

  // The handler.

  /** The fields a frame changes, and the objects it can reach, as values. */
  datatype MobileState = MobileState(
    grabbed: GrabbableObject?,
    highlighted: GrabbableObject?,
    gazed: GrabbableObject?,
    touchStart: Point,
    touchStartTime: real,
    dragging: bool,
    gazeTimer: real,
    objects: Objects)
  {
    function Tracked(): set<GrabbableObject> {
      Nullable(grabbed) + Nullable(highlighted) + Nullable(gazed)
    }
  }

  class MobileInteractionHandler {
    const enableTapInteraction: bool
    const enableGazePick: bool
    const enableDragInteraction: bool
    const tapTimeThreshold: real
    const dragThreshold: real
    const gazeTimeToSelect: real
    /** Whether the touch branch is compiled in (`UNITY_ANDROID || UNITY_IOS || UNITY_EDITOR`). */
    const touchCompiled: bool
    /** Whether the mouse fallback is compiled in (`UNITY_EDITOR || UNITY_STANDALONE`). */
    const mouseCompiled: bool
    /** `Camera.main`, or any camera, as found at initialisation. */
    const camera: Option<Actor>

    const supportedPlatform: InteractionPlatform := Mobile

    var isEnabled: bool
    var currentGrabbed: GrabbableObject?
    var currentHighlighted: GrabbableObject?
    var currentGazed: GrabbableObject?
    var touchStartPosition: Point
    var touchStartTime: real
    var isDragging: bool
    var gazeTimer: real

    /** Without a camera no raycast finds anything, so nothing is ever tracked. */
    ghost predicate Valid()
      reads this
    {
      camera.None? ==> currentGrabbed == null && currentHighlighted == null && currentGazed == null
    }

    function Tracked(): set<GrabbableObject>
      reads this
    {
      Nullable(currentGrabbed) + Nullable(currentHighlighted) + Nullable(currentGazed)
    }

    /** `GetGrabbableAtScreenPosition`: the raycast result, or null without a camera. */
    function ScreenHit(hit: GrabbableObject?): GrabbableObject? {
      if camera.None? then null else hit
    }

    /** The objects one frame may change. */
    function Reachable(frame: Frame): set<GrabbableObject>
      reads this
    {
      Tracked() + FrameObjects(frame)
    }

    /** The handler's fields and the objects of `D`, now. */
    function State(D: set<GrabbableObject>): (s: MobileState)
      reads this, D
      ensures Is(s, D)
    {
      MobileState(currentGrabbed, currentHighlighted, currentGazed, touchStartPosition, touchStartTime,
                  isDragging, gazeTimer, ObjectsOf(D))
    }

    /** The handler's fields and the objects of `D` are now as `s` gives them. */
    ghost predicate Is(s: MobileState, D: set<GrabbableObject>)
      reads this, D
    {
      && currentGrabbed == s.grabbed && currentHighlighted == s.highlighted && currentGazed == s.gazed
      && touchStartPosition == s.touchStart && touchStartTime == s.touchStartTime
      && isDragging == s.dragging && gazeTimer == s.gazeTimer
      && Agrees(D, s.objects)
    }

    /** What the step functions keep: with no camera nothing is tracked (the camera is
        every grab's grabber). */
    predicate Ready(s: MobileState) {
      camera.None? ==> s.grabbed == null && s.highlighted == null && s.gazed == null
    }

    // -------------------------------------------------------------------------------------
    // The steps of a frame, as functions.

    /** `ReleaseCurrentGrab`. */
    function AfterReleaseGrab(s: MobileState): (r: MobileState)
      ensures r.objects.SameObjects(s.objects) && r.Tracked() <= s.Tracked() && (Ready(s) ==> Ready(r))
      ensures r.gazed == s.gazed && r.gazeTimer == s.gazeTimer
    {
      if s.grabbed == null then s else s.(grabbed := null, objects := s.objects.Release(s.grabbed))
    }

    /** `ClearHighlight`. */
    function AfterClearHighlight(s: MobileState): (r: MobileState)
      ensures r.objects.SameObjects(s.objects) && r.Tracked() <= s.Tracked() && (Ready(s) ==> Ready(r))
      ensures r.gazed == s.gazed && r.gazeTimer == s.gazeTimer
    {
      if s.highlighted == null then s else s.(highlighted := null, objects := s.objects.Unhighlight(s.highlighted))
    }

    /** `ClearGaze`: unhighlight and forget the gazed object, and reset the timer. */
    function AfterClearGaze(s: MobileState): (r: MobileState)
      ensures r.objects.SameObjects(s.objects) && r.Tracked() <= s.Tracked() && (Ready(s) ==> Ready(r))
    {
      var unlit := if s.gazed == null then s.objects else s.objects.Unhighlight(s.gazed);
      s.(gazed := null, gazeTimer := 0.0, objects := unlit)
    }

    /** `HandleTouchStart`: remember where and when, stop dragging, highlight what is hit. */
    function AfterTouchStart(s: MobileState, position: Point, hit: GrabbableObject?, time: real): (r: MobileState)
      requires Ready(s)
      ensures Ready(r) && r.objects.SameObjects(s.objects) && r.Tracked() <= s.Tracked() + Nullable(ScreenHit(hit))
      ensures r.gazed == s.gazed && r.gazeTimer == s.gazeTimer
    {
      var pressed := s.(touchStart := position, touchStartTime := time, dragging := false);
      var g := ScreenHit(hit);
      if g == null then pressed else pressed.(highlighted := g, objects := s.objects.Highlight(g))
    }

    /** `HandleTouchMove`: the first move past the drag threshold starts dragging, and grabs
        the highlighted object with a Drag grab when it is eligible. */
    function AfterTouchMove(s: MobileState, position: Point, platform: InteractionPlatform): (r: MobileState)
      requires Ready(s)
      ensures Ready(r) && r.objects.SameObjects(s.objects) && r.Tracked() <= s.Tracked()
      ensures r.gazed == s.gazed && r.gazeTimer == s.gazeTimer
    {
      if s.dragging || !enableDragInteraction || !DragExceeds(position, s.touchStart, dragThreshold) then s
      else
        var h := s.highlighted;
        if h == null || !s.objects.CanGrab(h, platform, Drag) then s.(dragging := true)
        else s.(dragging := true, grabbed := h, objects := s.objects.TryGrab(h, camera.value, Drag, platform))
    }

    /** A tap: when the object under the touch is eligible for a TapClick grab, it is
        grabbed and at once released. */
    function AfterTap(s: MobileState, hit: GrabbableObject?, platform: InteractionPlatform): (r: MobileState)
      requires Ready(s)
      ensures Ready(r) && r.objects.SameObjects(s.objects) && r.Tracked() == s.Tracked()
      ensures r.gazed == s.gazed && r.gazeTimer == s.gazeTimer
    {
      var g := ScreenHit(hit);
      if g != null && s.objects.CanGrab(g, platform, TapClick)
      then s.(objects := s.objects.Pulse(g, camera.value, TapClick, platform))
      else s
    }

    /** The touch lifts: a drag releases its grab; otherwise a touch no longer than the tap
        threshold taps. */
    function AfterLift(s: MobileState, hit: GrabbableObject?, time: real, platform: InteractionPlatform): (r: MobileState)
      requires Ready(s)
      ensures Ready(r) && r.objects.SameObjects(s.objects) && r.Tracked() <= s.Tracked()
      ensures r.gazed == s.gazed && r.gazeTimer == s.gazeTimer && r.highlighted == s.highlighted && r.dragging == s.dragging
    {
      if s.dragging then AfterReleaseGrab(s)
      else if time - s.touchStartTime <= tapTimeThreshold && enableTapInteraction then AfterTap(s, hit, platform)
      else s
    }

    /** `HandleTouchEnd`: the touch lifts, then the highlight is cleared and dragging stops. */
    function AfterTouchEnd(s: MobileState, hit: GrabbableObject?, time: real, platform: InteractionPlatform): (r: MobileState)
      requires Ready(s)
      ensures Ready(r) && r.objects.SameObjects(s.objects) && r.Tracked() <= s.Tracked()
      ensures r.gazed == s.gazed && r.gazeTimer == s.gazeTimer
    {
      AfterClearHighlight(AfterLift(s, hit, time, platform)).(dragging := false)
    }

    /** `HandleTouch`: dispatch on the phase; Stationary does nothing. */
    function AfterTouch(s: MobileState, touch: TouchInput, time: real, platform: InteractionPlatform): (r: MobileState)
      requires Ready(s)
      ensures Ready(r) && r.objects.SameObjects(s.objects) && r.Tracked() <= s.Tracked() + Nullable(ScreenHit(touch.hit))
      ensures r.gazed == s.gazed && r.gazeTimer == s.gazeTimer
    {
      match touch.phase
      case Began => AfterTouchStart(s, touch.position, touch.hit, time)
      case Moved => AfterTouchMove(s, touch.position, platform)
      case Ended => AfterTouchEnd(s, touch.hit, time, platform)
      case Canceled => AfterTouchEnd(s, touch.hit, time, platform)
      case Stationary => s
    }

    /** `HandleMouseInput`: button down starts, held moves, up ends. */
    function AfterMouseInput(s: MobileState, mouse: PointerInput, time: real, platform: InteractionPlatform): (r: MobileState)
      requires Ready(s)
      ensures Ready(r) && r.objects.SameObjects(s.objects) && r.Tracked() <= s.Tracked() + Nullable(ScreenHit(mouse.hit))
      ensures r.gazed == s.gazed && r.gazeTimer == s.gazeTimer
    {
      if mouse.buttonDown then AfterTouchStart(s, mouse.position, mouse.hit, time)
      else if mouse.button then AfterTouchMove(s, mouse.position, platform)
      else if mouse.buttonUp then AfterTouchEnd(s, mouse.hit, time, platform)
      else s
    }

    /** `UpdateTouchInteractions`: the first touch when the touch branch is compiled in and
        there is one, then the mouse when the fallback is compiled in. */
    function AfterTouchInteractions(s: MobileState, frame: Frame): (r: MobileState)
      requires Ready(s)
      ensures Ready(r) && r.objects.SameObjects(s.objects) && r.Tracked() <= s.Tracked() + FrameObjects(frame)
      ensures r.gazed == s.gazed && r.gazeTimer == s.gazeTimer
    {
      var touched := if touchCompiled && frame.touch.Some? then AfterTouch(s, frame.touch.value, frame.time, frame.platform) else s;
      if mouseCompiled then AfterMouseInput(touched, frame.mouse, frame.time, frame.platform) else touched
    }

    /** The gaze moves to a new target: the old one is unhighlighted, the new one
        highlighted, and the timer restarts. */
    function AfterGazeMoves(s: MobileState, g: GrabbableObject): (r: MobileState)
      requires Ready(s) && camera.Some?
      ensures Ready(r) && r.objects.SameObjects(s.objects) && r.Tracked() <= s.Tracked() + {g}
    {
      var unlit := if s.gazed == null then s.objects else s.objects.Unhighlight(s.gazed);
      s.(gazed := g, gazeTimer := 0.0, objects := unlit.Highlight(g))
    }

    /** The gaze stays on its target: one step of the dwell timer, and a GazePick pulse
        when the step fires. */
    function AfterGazeDwells(s: MobileState, deltaTime: real, platform: InteractionPlatform): (r: MobileState)
      requires Ready(s) && s.gazed != null && camera.Some?
      ensures Ready(r) && r.objects.SameObjects(s.objects) && r.Tracked() == s.Tracked()
    {
      var step := GazeTick(s.gazeTimer, deltaTime, gazeTimeToSelect);
      s.(gazeTimer := step.timer,
         objects := if step.pulse then s.objects.Pulse(s.gazed, camera.value, GazePick, platform) else s.objects)
    }

    /** `UpdateGazeInteractions`, given the gaze raycast's result: an eligible new target
        takes over the highlight and restarts the timer; the same target advances the
        timer, which fires a GazePick pulse on reaching the threshold; anything else clears
        the gaze. */
    function AfterGaze(s: MobileState, gazeHit: GrabbableObject?, deltaTime: real, platform: InteractionPlatform): (r: MobileState)
      requires Ready(s)
      ensures Ready(r) && r.objects.SameObjects(s.objects) && r.Tracked() <= s.Tracked() + Nullable(gazeHit)
    {
      if camera.None? then s
      else if gazeHit != null && s.objects.CanGrab(gazeHit, platform, GazePick) then
        if s.gazed != gazeHit then AfterGazeMoves(s, gazeHit) else AfterGazeDwells(s, deltaTime, platform)
      else AfterClearGaze(s)
    }

    /** `UpdateHandler` of an enabled handler: touch when tap or drag is on, then gaze when
        gaze pick is on. */
    function AfterFrame(s: MobileState, frame: Frame): (r: MobileState)
      requires Ready(s)
      ensures Ready(r) && r.objects.SameObjects(s.objects)
    {
      var touched := if enableTapInteraction || enableDragInteraction then AfterTouchInteractions(s, frame) else s;
      if enableGazePick then AfterGaze(touched, frame.gazeHit, frame.deltaTime, frame.platform) else touched
    }

    /** One enabled frame took the handler and the objects `D` from their old values to
        `AfterFrame` of them. */
    twostate predicate DidFrame(frame: Frame, D: set<GrabbableObject>)
      reads this, D
    {
      && Ready(old(State(D)))
      && Is(AfterFrame(old(State(D)), frame), D)
    }

    // -------------------------------------------------------------------------------------
    // What a frame keeps and what it leads to.

    /** The handler's grab is real: the object it holds is Grabbed, with the camera as its
        grabber. */
    predicate Holding(s: MobileState) {
      s.grabbed != null ==>
        && s.grabbed in s.objects.status
        && s.objects.status[s.grabbed].state == Grabbed
        && s.objects.status[s.grabbed].grabber == camera
    }

    lemma {:induction false} TouchEndKeepsHolding(s: MobileState, hit: GrabbableObject?, time: real, platform: InteractionPlatform)
      requires Ready(s) && Holding(s)
      ensures Holding(AfterTouchEnd(s, hit, time, platform))
    {
      assert Holding(AfterLift(s, hit, time, platform));
    }

    lemma {:induction false} TouchKeepsHolding(s: MobileState, touch: TouchInput, time: real, platform: InteractionPlatform)
      requires Ready(s) && Holding(s)
      ensures Holding(AfterTouch(s, touch, time, platform))
    {
      if touch.phase == Ended || touch.phase == Canceled {
        TouchEndKeepsHolding(s, touch.hit, time, platform);
      }
    }

    lemma {:induction false} MouseInputKeepsHolding(s: MobileState, mouse: PointerInput, time: real, platform: InteractionPlatform)
      requires Ready(s) && Holding(s)
      ensures Holding(AfterMouseInput(s, mouse, time, platform))
    {
      if !mouse.buttonDown && !mouse.button && mouse.buttonUp {
        TouchEndKeepsHolding(s, mouse.hit, time, platform);
      }
    }

    lemma {:induction false} TouchInteractionsKeepHolding(s: MobileState, frame: Frame)
      requires Ready(s) && Holding(s)
      ensures Holding(AfterTouchInteractions(s, frame))
    {
      var touched := s;
      if touchCompiled && frame.touch.Some? {
        TouchKeepsHolding(s, frame.touch.value, frame.time, frame.platform);
        touched := AfterTouch(s, frame.touch.value, frame.time, frame.platform);
      }
      if mouseCompiled {
        MouseInputKeepsHolding(touched, frame.mouse, frame.time, frame.platform);
      }
    }

    lemma {:induction false} GazeKeepsHolding(s: MobileState, gazeHit: GrabbableObject?, deltaTime: real, platform: InteractionPlatform)
      requires Ready(s) && Holding(s)
      ensures Holding(AfterGaze(s, gazeHit, deltaTime, platform))
    {
    }

    /** Within a frame, whatever the handler holds stays Grabbed by the camera. */
    lemma {:induction false} FrameKeepsHolding(s: MobileState, frame: Frame)
      requires Ready(s) && Holding(s)
      ensures Holding(AfterFrame(s, frame))
    {
      var touched := s;
      if enableTapInteraction || enableDragInteraction {
        TouchInteractionsKeepHolding(s, frame);
        touched := AfterTouchInteractions(s, frame);
      }
      if enableGazePick {
        GazeKeepsHolding(touched, frame.gazeHit, frame.deltaTime, frame.platform);
      }
    }

    /** Gazing at the same eligible object for one more frame is one step of the dwell
        timer, and a pulse fires exactly when the step says so. */
    lemma GazeFollowsTheTimer(s: MobileState, deltaTime: real, platform: InteractionPlatform)
      requires Ready(s) && s.gazed != null && camera.Some? && s.objects.CanGrab(s.gazed, platform, GazePick)
      ensures var r := AfterGaze(s, s.gazed, deltaTime, platform);
        var step := GazeTick(s.gazeTimer, deltaTime, gazeTimeToSelect);
        && r.gazed == s.gazed && r.gazeTimer == step.timer
        && r.objects.status[s.gazed] ==
             if step.pulse then AfterPulse(s.gazed.freezeRotationWhenGrabbed, s.objects.settings[s.gazed], s.objects.status[s.gazed],
                                           platform, camera.value, GazePick)
             else s.objects.status[s.gazed]
    {
    }

    /** A touch end leaves nothing highlighted and no drag; a drag's end leaves nothing held. */
    lemma TouchEndSettles(s: MobileState, hit: GrabbableObject?, time: real, platform: InteractionPlatform)
      requires Ready(s)
      ensures var r := AfterTouchEnd(s, hit, time, platform);
        && r.highlighted == null && !r.dragging
        && (s.dragging ==> r.grabbed == null)
        && (!s.dragging ==> r.grabbed == s.grabbed)
    {
    }

    /** A touch end touches only the objects the handler tracks, and the one under the
        touch only when it was not dragging. */
    lemma TouchEndTouchesOnlyItsObjects(s: MobileState, hit: GrabbableObject?, time: real, platform: InteractionPlatform,
                                        o: GrabbableObject)
      requires Ready(s) && o in s.objects.status && o !in s.Tracked()
      requires s.dragging || o != ScreenHit(hit)
      ensures AfterTouchEnd(s, hit, time, platform).objects.status[o] == s.objects.status[o]
    {
    }

    /** With gaze pick off a frame leaves the gaze target and its timer alone. */
    lemma FrameWithoutGazeKeepsGaze(s: MobileState, frame: Frame)
      requires Ready(s) && !enableGazePick
      ensures var r := AfterFrame(s, frame); r.gazed == s.gazed && r.gazeTimer == s.gazeTimer
    {
    }

    /** `Disable` lets go: the held object is no longer Grabbed, released as `Release`
        releases it when it was Grabbed, and nothing tracked becomes Grabbed. */
    lemma LettingGo(s: MobileState)
      requires s.objects.Knows(s.Tracked())
      ensures var r := AfterClearHighlight(AfterReleaseGrab(s)).objects;
        && (s.grabbed != null ==>
              && r.status[s.grabbed].state != Grabbed
              && (s.objects.status[s.grabbed].state == Grabbed ==>
                    r.status[s.grabbed] == AfterRelease(s.grabbed.freezeRotationWhenGrabbed, s.objects.status[s.grabbed])))
        && (forall o | o in s.Tracked() :: r.status[o].state == Grabbed ==> s.objects.status[o].state == Grabbed)
        && forall o | o in s.objects.status ::
             o in r.status && r.status[o] == AfterLetGo(o.freezeRotationWhenGrabbed, s.objects.status[o], o == s.grabbed, o == s.highlighted)
    {
    }

    // -------------------------------------------------------------------------------------
    // The handler's methods.  A step takes the value `s` the handler and the objects `D` it
    // may touch have on entry, and leaves them as the step's function of `s`.

    constructor (enableTapInteraction: bool, enableGazePick: bool, enableDragInteraction: bool,
                 tapTimeThreshold: real, dragThreshold: real, gazeTimeToSelect: real,
                 touchCompiled: bool, mouseCompiled: bool, camera: Option<Actor>)
      ensures this.enableTapInteraction == enableTapInteraction && this.enableGazePick == enableGazePick
      ensures this.enableDragInteraction == enableDragInteraction
      ensures this.tapTimeThreshold == tapTimeThreshold && this.dragThreshold == dragThreshold
      ensures this.gazeTimeToSelect == gazeTimeToSelect
      ensures this.touchCompiled == touchCompiled && this.mouseCompiled == mouseCompiled && this.camera == camera
      ensures !isEnabled && Tracked() == {} && !isDragging && gazeTimer == 0.0
      ensures Valid()
    {
      this.enableTapInteraction := enableTapInteraction;
      this.enableGazePick := enableGazePick;
      this.enableDragInteraction := enableDragInteraction;
      this.tapTimeThreshold := tapTimeThreshold;
      this.dragThreshold := dragThreshold;
      this.gazeTimeToSelect := gazeTimeToSelect;
      this.touchCompiled := touchCompiled;
      this.mouseCompiled := mouseCompiled;
      this.camera := camera;
      isEnabled := false;
      currentGrabbed := null;
      currentHighlighted := null;
      currentGazed := null;
      touchStartPosition := Point(0.0, 0.0);
      touchStartTime := 0.0;
      isDragging := false;
      gazeTimer := 0.0;
    }

    method Enable()
      modifies this`isEnabled
      ensures isEnabled
    {
      isEnabled := true;
    }

    /** `Disable`: release the grab, then clear the highlight; the gaze target and its
        timer are left as they are. */
    method Disable(ghost D: set<GrabbableObject>, ghost s: MobileState)
      requires Valid() && Is(s, D) && s.Tracked() <= D
      modifies this`isEnabled, this`currentGrabbed, this`currentHighlighted, D
      ensures !isEnabled && Is(AfterClearHighlight(AfterReleaseGrab(s)), D)
      ensures forall o | o in D ::
                o.Status() == AfterLetGo(o.freezeRotationWhenGrabbed, old(o.Status()), o == s.grabbed, o == s.highlighted)
      ensures currentGrabbed == null && currentHighlighted == null && LetGo(Nullable(s.grabbed)) && NoNewGrabs(s.Tracked())
      ensures Valid()
    {
      isEnabled := false;
      ReleaseCurrentGrab(D, s);
      ClearHighlight(D, AfterReleaseGrab(s));
      LettingGo(s);
    }

    method ReleaseCurrentGrab(ghost D: set<GrabbableObject>, ghost s: MobileState)
      requires Valid() && Is(s, D) && Nullable(s.grabbed) <= D
      modifies this`currentGrabbed, D
      ensures Is(AfterReleaseGrab(s), D)
      ensures Valid()
    {
      if currentGrabbed != null {
        ReleaseIn(currentGrabbed, D, s.objects);
        currentGrabbed := null;
      }
    }

    method ClearHighlight(ghost D: set<GrabbableObject>, ghost s: MobileState)
      requires Valid() && Is(s, D) && Nullable(s.highlighted) <= D
      modifies this`currentHighlighted, D
      ensures Is(AfterClearHighlight(s), D)
      ensures Valid()
    {
      if currentHighlighted != null {
        UnhighlightIn(currentHighlighted, D, s.objects);
        currentHighlighted := null;
      }
    }

    method ClearGaze(ghost D: set<GrabbableObject>, ghost s: MobileState)
      requires Valid() && Is(s, D) && Nullable(s.gazed) <= D
      modifies this`currentGazed, this`gazeTimer, D
      ensures Is(AfterClearGaze(s), D)
      ensures Valid()
    {
      if currentGazed != null {
        UnhighlightIn(currentGazed, D, s.objects);
        currentGazed := null;
      }
      gazeTimer := 0.0;
    }

    /** `OnObjectUnregistered`: forget `g` wherever it is tracked, without touching it. */
    method OnObjectUnregistered(g: GrabbableObject?)
      requires Valid()
      modifies this`currentGrabbed, this`currentHighlighted, this`currentGazed
      ensures currentGrabbed == if old(currentGrabbed) == g then null else old(currentGrabbed)
      ensures currentHighlighted == if old(currentHighlighted) == g then null else old(currentHighlighted)
      ensures currentGazed == if old(currentGazed) == g then null else old(currentGazed)
      ensures g != null ==> g !in Tracked()
      ensures Valid()
    {
      if currentGrabbed == g {
        currentGrabbed := null;
      }
      if currentHighlighted == g {
        currentHighlighted := null;
      }
      if currentGazed == g {
        currentGazed := null;
      }
    }

    method HandleTouchStart(position: Point, hit: GrabbableObject?, time: real, ghost D: set<GrabbableObject>, ghost s: MobileState)
      requires Valid() && Is(s, D) && s.Tracked() <= D && Nullable(hit) <= D
      modifies this`touchStartPosition, this`touchStartTime, this`isDragging, this`currentHighlighted, D
      ensures Is(AfterTouchStart(s, position, hit, time), D)
      ensures Valid()
    {
      touchStartPosition := position;
      touchStartTime := time;
      isDragging := false;
      var grabbable := ScreenHit(hit);
      if grabbable != null {
        HighlightIn(grabbable, D, s.objects);
        currentHighlighted := grabbable;
      }
    }

    method HandleTouchMove(position: Point, platform: InteractionPlatform, ghost D: set<GrabbableObject>, ghost s: MobileState)
      requires Valid() && Is(s, D) && s.Tracked() <= D
      modifies this`isDragging, this`currentGrabbed, D
      ensures Is(AfterTouchMove(s, position, platform), D)
      ensures Valid()
    {
      if !isDragging && enableDragInteraction {
        if DragExceeds(position, touchStartPosition, dragThreshold) {
          isDragging := true;
          if currentHighlighted != null {
            var eligible := CanBeGrabbedIn(currentHighlighted, Drag, platform, D, s.objects);
            if eligible {
              var ok := TryGrabIn(currentHighlighted, camera.value, Drag, platform, D, s.objects);
              if ok {
                currentGrabbed := currentHighlighted;
              }
            }
          }
        }
      }
    }

    method Tap(hit: GrabbableObject?, platform: InteractionPlatform, ghost D: set<GrabbableObject>, ghost s: MobileState)
      requires Valid() && Is(s, D) && s.Tracked() <= D && Nullable(hit) <= D
      modifies D
      ensures Is(AfterTap(s, hit, platform), D)
    {
      var grabbable := ScreenHit(hit);
      if grabbable != null {
        var eligible := CanBeGrabbedIn(grabbable, TapClick, platform, D, s.objects);
        if eligible {
          PulseIn(grabbable, camera.value, TapClick, platform, D, s.objects);
        }
      }
    }

    method Lift(hit: GrabbableObject?, time: real, platform: InteractionPlatform, ghost D: set<GrabbableObject>, ghost s: MobileState)
      requires Valid() && Is(s, D) && s.Tracked() <= D && Nullable(hit) <= D
      modifies this`currentGrabbed, D
      ensures Is(AfterLift(s, hit, time, platform), D)
      ensures Valid()
    {
      var touchDuration := time - touchStartTime;
      if isDragging {
        ReleaseCurrentGrab(D, s);
      } else if touchDuration <= tapTimeThreshold && enableTapInteraction {
        Tap(hit, platform, D, s);
      }
    }

    method HandleTouchEnd(hit: GrabbableObject?, time: real, platform: InteractionPlatform, ghost D: set<GrabbableObject>, ghost s: MobileState)
      requires Valid() && Is(s, D) && s.Tracked() <= D && Nullable(hit) <= D
      modifies this`currentGrabbed, this`currentHighlighted, this`isDragging, D
      ensures Is(AfterTouchEnd(s, hit, time, platform), D)
      ensures Valid()
    {
      Lift(hit, time, platform, D, s);
      ClearHighlight(D, AfterLift(s, hit, time, platform));
      isDragging := false;
    }

    method HandleTouch(touch: TouchInput, time: real, platform: InteractionPlatform, ghost D: set<GrabbableObject>, ghost s: MobileState)
      requires Valid() && Is(s, D) && s.Tracked() <= D && Nullable(touch.hit) <= D
      modifies this`currentGrabbed, this`currentHighlighted, this`touchStartPosition, this`touchStartTime, this`isDragging, D
      ensures Is(AfterTouch(s, touch, time, platform), D)
      ensures Valid()
    {
      match touch.phase
      case Began => HandleTouchStart(touch.position, touch.hit, time, D, s);
      case Moved => HandleTouchMove(touch.position, platform, D, s);
      case Ended => HandleTouchEnd(touch.hit, time, platform, D, s);
      case Canceled => HandleTouchEnd(touch.hit, time, platform, D, s);
      case Stationary =>
    }

    method HandleMouseInput(mouse: PointerInput, time: real, platform: InteractionPlatform, ghost D: set<GrabbableObject>, ghost s: MobileState)
      requires Valid() && Is(s, D) && s.Tracked() <= D && Nullable(mouse.hit) <= D
      modifies this`currentGrabbed, this`currentHighlighted, this`touchStartPosition, this`touchStartTime, this`isDragging, D
      ensures Is(AfterMouseInput(s, mouse, time, platform), D)
      ensures Valid()
    {
      if mouse.buttonDown {
        HandleTouchStart(mouse.position, mouse.hit, time, D, s);
      } else if mouse.button {
        HandleTouchMove(mouse.position, platform, D, s);
      } else if mouse.buttonUp {
        HandleTouchEnd(mouse.hit, time, platform, D, s);
      }
    }

    method UpdateTouchInteractions(frame: Frame, ghost D: set<GrabbableObject>, ghost s: MobileState)
      requires Valid() && Is(s, D) && s.Tracked() <= D && FrameObjects(frame) <= D
      modifies this`currentGrabbed, this`currentHighlighted, this`touchStartPosition, this`touchStartTime, this`isDragging, D
      ensures Is(AfterTouchInteractions(s, frame), D)
      ensures Valid()
    {
      ghost var touched := s;
      if touchCompiled && frame.touch.Some? {
        HandleTouch(frame.touch.value, frame.time, frame.platform, D, s);
        touched := AfterTouch(s, frame.touch.value, frame.time, frame.platform);
      }
      if mouseCompiled {
        HandleMouseInput(frame.mouse, frame.time, frame.platform, D, touched);
      }
    }

    method GazeMoves(g: GrabbableObject, ghost D: set<GrabbableObject>, ghost s: MobileState)
      requires Valid() && Is(s, D) && s.Tracked() <= D && g in D && camera.Some?
      modifies this`currentGazed, this`gazeTimer, D
      ensures Is(AfterGazeMoves(s, g), D)
      ensures Valid()
    {
      ghost var unlit := s.objects;
      if currentGazed != null {
        UnhighlightIn(currentGazed, D, s.objects);
        unlit := s.objects.Unhighlight(s.gazed);
      }
      currentGazed := g;
      HighlightIn(currentGazed, D, unlit);
      gazeTimer := 0.0;
    }

    method GazeDwells(deltaTime: real, platform: InteractionPlatform, ghost D: set<GrabbableObject>, ghost s: MobileState)
      requires Valid() && Is(s, D) && s.Tracked() <= D && s.gazed != null && camera.Some?
      modifies this`gazeTimer, D
      ensures Is(AfterGazeDwells(s, deltaTime, platform), D)
      ensures Valid()
    {
      gazeTimer := gazeTimer + deltaTime;
      if gazeTimer >= gazeTimeToSelect {
        PulseIn(currentGazed, camera.value, GazePick, platform, D, s.objects);
        gazeTimer := 0.0;
      }
    }

    method UpdateGazeInteractions(gazeHit: GrabbableObject?, deltaTime: real, platform: InteractionPlatform,
                                  ghost D: set<GrabbableObject>, ghost s: MobileState)
      requires Valid() && Is(s, D) && s.Tracked() <= D && Nullable(gazeHit) <= D
      modifies this`currentGazed, this`gazeTimer, D
      ensures Is(AfterGaze(s, gazeHit, deltaTime, platform), D)
      ensures Valid()
    {
      if camera.None? {
        return;
      }
      var grabbable := gazeHit;
      if grabbable != null {
        var eligible := CanBeGrabbedIn(grabbable, GazePick, platform, D, s.objects);
        if eligible {
          if currentGazed != grabbable {
            GazeMoves(grabbable, D, s);
          } else {
            GazeDwells(deltaTime, platform, D, s);
          }
          return;
        }
      }
      ClearGaze(D, s);
    }

    /** `UpdateHandler`: nothing while disabled; else touch when tap or drag is on, then
        gaze when gaze pick is on. */
    method UpdateHandler(frame: Frame)
      requires Valid()
      modifies this`currentGrabbed, this`currentHighlighted, this`currentGazed, this`touchStartPosition,
               this`touchStartTime, this`isDragging, this`gazeTimer, Reachable(frame)
      ensures !old(isEnabled) ==> unchanged(this) && unchanged(old(Reachable(frame)))
      ensures old(isEnabled) ==> DidFrame(frame, old(Reachable(frame)))
      ensures Valid()
    {
      if !isEnabled {
        return;
      }
      ghost var D := Reachable(frame);
      ghost var s := State(D);
      assert s.Tracked() <= D && FrameObjects(frame) <= D && Nullable(frame.gazeHit) <= FrameObjects(frame);
      ghost var touched := s;
      if enableTapInteraction || enableDragInteraction {
        UpdateTouchInteractions(frame, D, s);
        touched := AfterTouchInteractions(s, frame);
      }
      if enableGazePick {
        UpdateGazeInteractions(frame.gazeHit, frame.deltaTime, frame.platform, D, touched);
      }
    }
  }
}
