/**
  The web handler (Platforms/WebInteractionHandler.cs): mouse press, drag and click, the
  grab and release keys, and hover highlighting.  The camera's transform is the grabber of
  every grab it makes.

  Each step of a frame is a function on `WebState`, the handler's fields together with the
  objects the frame can reach; each method is proved to act as its function, and a frame is
  the composition mouse, then keys, then hover.
*/
module WebHandling {
  import opened Wrappers
  import opened InteractionTypes
  import opened Grabbables
  import opened FrameInputs

  /** The fields a frame changes, and the objects it can reach, as values. */
  datatype WebState = WebState(
    grabbed: GrabbableObject?,
    highlighted: GrabbableObject?,
    mouseStart: Point,
    mouseDownTime: real,
    dragging: bool,
    objects: Objects)
  {
    function Tracked(): set<GrabbableObject> {
      Nullable(grabbed) + Nullable(highlighted)
    }
  }

  class WebInteractionHandler {
    const enableClickInteraction: bool
    const enableDragInteraction: bool
    const clickTimeThreshold: real
    const dragThreshold: real
    /** `Camera.main`, or any camera, as found at initialisation. */
    const camera: Option<Actor>

    const supportedPlatform: InteractionPlatform := Web

    var isEnabled: bool
    var currentGrabbed: GrabbableObject?
    var currentHighlighted: GrabbableObject?
    var mouseStartPosition: Point
    var mouseDownTime: real
    var isDragging: bool

    /** Without a camera no raycast finds anything, so nothing is ever tracked. */
    ghost predicate Valid()
      reads this
    {
      camera.None? ==> currentGrabbed == null && currentHighlighted == null
    }

    function Tracked(): set<GrabbableObject>
      reads this
    {
      Nullable(currentGrabbed) + Nullable(currentHighlighted)
    }

    /** `GetGrabbableAtMousePosition`: the raycast result, or null without a camera. */
    function MouseHit(hit: GrabbableObject?): GrabbableObject? {
      if camera.None? then null else hit
    }

    /** The objects one frame may change. */
    function Reachable(frame: Frame): set<GrabbableObject>
      reads this
    {
      Tracked() + Nullable(frame.mouse.hit)
    }

    /** The handler's fields and the objects of `D`, now. */
    function State(D: set<GrabbableObject>): (s: WebState)
      reads this, D
      ensures Is(s, D)
    {
      WebState(currentGrabbed, currentHighlighted, mouseStartPosition, mouseDownTime, isDragging, ObjectsOf(D))
    }

    /** The handler's fields and the objects of `D` are now as `s` gives them. */
    ghost predicate Is(s: WebState, D: set<GrabbableObject>)
      reads this, D
    {
      && currentGrabbed == s.grabbed && currentHighlighted == s.highlighted
      && mouseStartPosition == s.mouseStart && mouseDownTime == s.mouseDownTime && isDragging == s.dragging
      && Agrees(D, s.objects)
    }

    /** What the step functions keep: with no camera nothing is tracked (the camera is
        every grab's grabber). */
    predicate Ready(s: WebState) {
      camera.None? ==> s.grabbed == null && s.highlighted == null
    }

    // -------------------------------------------------------------------------------------
    // The steps of a frame, as functions.

    /** `ReleaseCurrentGrab`. */
    function AfterReleaseGrab(s: WebState): (r: WebState)
      ensures r.objects.SameObjects(s.objects) && r.Tracked() <= s.Tracked() && (Ready(s) ==> Ready(r))
    {
      if s.grabbed == null then s else s.(grabbed := null, objects := s.objects.Release(s.grabbed))
    }

    /** `ClearHighlight`. */
    function AfterClearHighlight(s: WebState): (r: WebState)
      ensures r.objects.SameObjects(s.objects) && r.Tracked() <= s.Tracked() && (Ready(s) ==> Ready(r))
    {
      if s.highlighted == null then s else s.(highlighted := null, objects := s.objects.Unhighlight(s.highlighted))
    }

    /** `HandleMouseDown`: remember where and when, stop dragging, highlight what is hit. */
    function AfterMouseDown(s: WebState, position: Point, hit: GrabbableObject?, time: real): (r: WebState)
      requires Ready(s)
      ensures Ready(r) && r.objects.SameObjects(s.objects) && r.Tracked() <= s.Tracked() + Nullable(MouseHit(hit))
    {
      var pressed := s.(mouseStart := position, mouseDownTime := time, dragging := false);
      var g := MouseHit(hit);
      if g == null then pressed else pressed.(highlighted := g, objects := s.objects.Highlight(g))
    }

    /** `HandleMouseHold`: the first hold past the drag threshold starts dragging, and grabs
        the highlighted object with a Drag grab when it is eligible. */
    function AfterMouseHold(s: WebState, position: Point, platform: InteractionPlatform): (r: WebState)
      requires Ready(s)
      ensures Ready(r) && r.objects.SameObjects(s.objects) && r.Tracked() <= s.Tracked()
    {
      if s.dragging || !enableDragInteraction || !DragExceeds(position, s.mouseStart, dragThreshold) then s
      else
        var h := s.highlighted;
        if h == null || !s.objects.CanGrab(h, platform, Drag) then s.(dragging := true)
        else s.(dragging := true, grabbed := h, objects := s.objects.TryGrab(h, camera.value, Drag, platform))
    }

    /** A click: when the object under the pointer is eligible for a TapClick grab, it is
        grabbed and at once released. */
    function AfterClick(s: WebState, hit: GrabbableObject?, platform: InteractionPlatform): (r: WebState)
      requires Ready(s)
      ensures Ready(r) && r.objects.SameObjects(s.objects) && r.Tracked() == s.Tracked()
    {
      var g := MouseHit(hit);
      if g != null && s.objects.CanGrab(g, platform, TapClick)
      then s.(objects := s.objects.Pulse(g, camera.value, TapClick, platform))
      else s
    }

    /** `HandleMouseUp`: a drag releases its grab; otherwise a press no longer than the click
        threshold clicks; either way the highlight is cleared and dragging stops. */
    function AfterMouseUp(s: WebState, hit: GrabbableObject?, time: real, platform: InteractionPlatform): (r: WebState)
      requires Ready(s)
      ensures Ready(r) && r.objects.SameObjects(s.objects) && r.Tracked() <= s.Tracked()
    {
      var acted :=
        if s.dragging then AfterReleaseGrab(s)
        else if time - s.mouseDownTime <= clickTimeThreshold && enableClickInteraction then AfterClick(s, hit, platform)
        else s;
      AfterClearHighlight(acted).(dragging := false)
    }

    /** `UpdateMouseInteractions`: button down starts, held drags, up ends. */
    function AfterMouse(s: WebState, mouse: PointerInput, time: real, platform: InteractionPlatform): (r: WebState)
      requires Ready(s)
      ensures Ready(r) && r.objects.SameObjects(s.objects) && r.Tracked() <= s.Tracked() + Nullable(MouseHit(mouse.hit))
    {
      if mouse.buttonDown then AfterMouseDown(s, mouse.position, mouse.hit, time)
      else if mouse.button then AfterMouseHold(s, mouse.position, platform)
      else if mouse.buttonUp then AfterMouseUp(s, mouse.hit, time, platform)
      else s
    }

    /** The grab key: with nothing held, grab the object under the pointer with a TapClick
        grab when it is eligible. */
    function AfterGrabKey(s: WebState, hit: GrabbableObject?, platform: InteractionPlatform): (r: WebState)
      requires Ready(s)
      ensures Ready(r) && r.objects.SameObjects(s.objects) && r.Tracked() <= s.Tracked() + Nullable(MouseHit(hit))
    {
      var g := MouseHit(hit);
      if s.grabbed == null && g != null && s.objects.CanGrab(g, platform, TapClick)
      then s.(grabbed := g, objects := s.objects.TryGrab(g, camera.value, TapClick, platform))
      else s
    }

    /** `UpdateKeyboardShortcuts`: the grab key, then the release key releases what is held. */
    function AfterKeys(s: WebState, grabKeyDown: bool, releaseKeyDown: bool, hit: GrabbableObject?,
                       platform: InteractionPlatform): (r: WebState)
      requires Ready(s)
      ensures Ready(r) && r.objects.SameObjects(s.objects) && r.Tracked() <= s.Tracked() + Nullable(MouseHit(hit))
    {
      var grabbing := if grabKeyDown then AfterGrabKey(s, hit, platform) else s;
      if releaseKeyDown then AfterReleaseGrab(grabbing) else grabbing
    }

    /** `UpdateObjectHighlighting`: while nothing is dragged or held, the highlight moves to
        the object under the pointer. */
    function AfterHover(s: WebState, hit: GrabbableObject?): (r: WebState)
      requires Ready(s)
      ensures Ready(r) && r.objects.SameObjects(s.objects) && r.Tracked() <= s.Tracked() + Nullable(MouseHit(hit))
    {
      var g := MouseHit(hit);
      if s.dragging || s.grabbed != null || g == s.highlighted then s
      else
        var cleared := AfterClearHighlight(s);
        if g == null then cleared else cleared.(highlighted := g, objects := cleared.objects.Highlight(g))
    }

    /** `UpdateHandler` of an enabled handler: mouse, then keys, then hover. */
    function AfterFrame(s: WebState, frame: Frame): (r: WebState)
      requires Ready(s)
      ensures Ready(r) && r.objects.SameObjects(s.objects)
    {
      var hit := frame.mouse.hit;
      var clicked := AfterMouse(s, frame.mouse, frame.time, frame.platform);
      var keyed := AfterKeys(clicked, frame.grabKeyDown, frame.releaseKeyDown, hit, frame.platform);
      AfterHover(keyed, hit)
    }

    /** One enabled frame took the handler and the objects `D` from their old values to
        `AfterFrame` of them. */
    twostate predicate DidFrame(frame: Frame, D: set<GrabbableObject>)
      reads this, D
    {
      Ready(old(State(D))) && Is(AfterFrame(old(State(D)), frame), D)
    }

    // -------------------------------------------------------------------------------------
    // What a frame keeps and what it leads to.

    /** The handler's grab is real: the object it holds is Grabbed, with the camera as its
        grabber. */
    predicate Holding(s: WebState) {
      s.grabbed != null ==>
        && s.grabbed in s.objects.status
        && s.objects.status[s.grabbed].state == Grabbed
        && s.objects.status[s.grabbed].grabber == camera
    }

    lemma {:induction false} MouseKeepsHolding(s: WebState, mouse: PointerInput, time: real, platform: InteractionPlatform)
      requires Ready(s) && Holding(s)
      ensures Holding(AfterMouse(s, mouse, time, platform))
    {
      if !mouse.buttonDown && !mouse.button && mouse.buttonUp {
        var acted :=
          if s.dragging then AfterReleaseGrab(s)
          else if time - s.mouseDownTime <= clickTimeThreshold && enableClickInteraction then AfterClick(s, mouse.hit, platform)
          else s;
        assert Holding(acted);
      }
    }

    lemma {:induction false} KeysKeepHolding(s: WebState, grabKeyDown: bool, releaseKeyDown: bool, hit: GrabbableObject?,
                                             platform: InteractionPlatform)
      requires Ready(s) && Holding(s)
      ensures Holding(AfterKeys(s, grabKeyDown, releaseKeyDown, hit, platform))
    {
    }

    lemma {:induction false} HoverKeepsHolding(s: WebState, hit: GrabbableObject?)
      requires Ready(s) && Holding(s)
      ensures Holding(AfterHover(s, hit))
    {
    }

    /** Within a frame, whatever the handler holds stays Grabbed by the camera. */
    lemma {:induction false} FrameKeepsHolding(s: WebState, frame: Frame)
      requires Ready(s) && Holding(s)
      ensures Holding(AfterFrame(s, frame))
    {
      var hit := frame.mouse.hit;
      MouseKeepsHolding(s, frame.mouse, frame.time, frame.platform);
      var clicked := AfterMouse(s, frame.mouse, frame.time, frame.platform);
      KeysKeepHolding(clicked, frame.grabKeyDown, frame.releaseKeyDown, hit, frame.platform);
      HoverKeepsHolding(AfterKeys(clicked, frame.grabKeyDown, frame.releaseKeyDown, hit, frame.platform), hit);
    }

    /** `Disable` lets go: the held object is no longer Grabbed, released as `Release`
        releases it when it was Grabbed, and nothing tracked becomes Grabbed. */
    lemma LettingGo(s: WebState)
      requires s.objects.Knows(s.Tracked())
      ensures var r := AfterClearHighlight(AfterReleaseGrab(s)).objects;
        && (s.grabbed != null ==>
              && r.status[s.grabbed].state != Grabbed
              && (s.objects.status[s.grabbed].state == Grabbed ==>
                    r.status[s.grabbed] == AfterRelease(s.grabbed.freezeRotationWhenGrabbed, s.objects.status[s.grabbed])))
        && (forall o | o in s.Tracked() :: r.status[o].state == Grabbed ==> s.objects.status[o].state == Grabbed)
        && forall o | o in s.objects.status ::
             o in r.status && r.status[o] == AfterLetGo(o.freezeRotationWhenGrabbed, s.objects.status[o], o == s.grabbed, o == s.highlighted)
    {
    }

    /** A frame ends hovering: unless a drag or a grab is under way, the highlighted object
        is the one under the pointer; the release key leaves nothing held. */
    lemma FrameEndsHovering(s: WebState, frame: Frame)
      requires Ready(s)
      ensures var r := AfterFrame(s, frame);
        && (!r.dragging && r.grabbed == null ==> r.highlighted == MouseHit(frame.mouse.hit))
        && (frame.releaseKeyDown ==> r.grabbed == null)
    {
    }

    /** A mouse-up touches only the objects the handler tracks, and the one under the
        pointer only when it was not dragging. */
    lemma MouseUpTouchesOnlyItsObjects(s: WebState, hit: GrabbableObject?, time: real, platform: InteractionPlatform,
                                       o: GrabbableObject)
      requires Ready(s) && o in s.objects.status && o !in s.Tracked()
      requires s.dragging || o != MouseHit(hit)
      ensures AfterMouseUp(s, hit, time, platform).objects.status[o] == s.objects.status[o]
    {
    }

    /** The grab key does nothing while something is held; a grab it makes holds the object
        under the pointer, Grabbed by the camera. */
    lemma GrabKeyNeedsEmptyHands(s: WebState, hit: GrabbableObject?, platform: InteractionPlatform)
      requires Ready(s)
      ensures var r := AfterGrabKey(s, hit, platform);
        && (s.grabbed != null ==> r == s)
        && (r.grabbed != s.grabbed ==>
              && s.grabbed == null && r.grabbed == MouseHit(hit)
              && r.objects.status[r.grabbed].state == Grabbed && r.objects.status[r.grabbed].grabber == camera)
    {
    }

    /** Without the grab key, the keys touch only what the handler holds. */
    lemma KeysTouchOnlyTheGrab(s: WebState, releaseKeyDown: bool, hit: GrabbableObject?, platform: InteractionPlatform,
                               o: GrabbableObject)
      requires Ready(s) && o in s.objects.status && o != s.grabbed
      ensures AfterKeys(s, false, releaseKeyDown, hit, platform).objects.status[o] == s.objects.status[o]
    {
    }

    // -------------------------------------------------------------------------------------
    // The handler's methods.  A step takes the value `s` the handler and the objects `D` it
    // may touch have on entry, and leaves them as the step's function of `s`.

    constructor (enableClickInteraction: bool, enableDragInteraction: bool,
                 clickTimeThreshold: real, dragThreshold: real, camera: Option<Actor>)
      ensures this.enableClickInteraction == enableClickInteraction && this.enableDragInteraction == enableDragInteraction
      ensures this.clickTimeThreshold == clickTimeThreshold && this.dragThreshold == dragThreshold
      ensures this.camera == camera
      ensures !isEnabled && Tracked() == {} && !isDragging
      ensures Valid()
    {
      this.enableClickInteraction := enableClickInteraction;
      this.enableDragInteraction := enableDragInteraction;
      this.clickTimeThreshold := clickTimeThreshold;
      this.dragThreshold := dragThreshold;
      this.camera := camera;
      isEnabled := false;
      currentGrabbed := null;
      currentHighlighted := null;
      mouseStartPosition := Point(0.0, 0.0);
      mouseDownTime := 0.0;
      isDragging := false;
    }

    method Enable()
      modifies this`isEnabled
      ensures isEnabled
    {
      isEnabled := true;
    }

    /** `Disable`: release the grab, then clear the highlight. */
    method Disable(ghost D: set<GrabbableObject>, ghost s: WebState)
      requires Valid() && Is(s, D) && s.Tracked() <= D
      modifies this`isEnabled, this`currentGrabbed, this`currentHighlighted, D
      ensures !isEnabled && Is(AfterClearHighlight(AfterReleaseGrab(s)), D)
      ensures forall o | o in D ::
                o.Status() == AfterLetGo(o.freezeRotationWhenGrabbed, old(o.Status()), o == s.grabbed, o == s.highlighted)
      ensures currentGrabbed == null && currentHighlighted == null && Tracked() == {}
      ensures LetGo(Nullable(s.grabbed)) && NoNewGrabs(s.Tracked())
      ensures Valid()
    {
      isEnabled := false;
      ReleaseCurrentGrab(D, s);
      ClearHighlight(D, AfterReleaseGrab(s));
      LettingGo(s);
    }

    method ReleaseCurrentGrab(ghost D: set<GrabbableObject>, ghost s: WebState)
      requires Valid() && Is(s, D) && Nullable(s.grabbed) <= D
      modifies this`currentGrabbed, D
      ensures Is(AfterReleaseGrab(s), D)
      ensures Valid()
    {
      if currentGrabbed != null {
        ReleaseIn(currentGrabbed, D, s.objects);
        currentGrabbed := null;
      }
    }

    method ClearHighlight(ghost D: set<GrabbableObject>, ghost s: WebState)
      requires Valid() && Is(s, D) && Nullable(s.highlighted) <= D
      modifies this`currentHighlighted, D
      ensures Is(AfterClearHighlight(s), D)
      ensures Valid()
    {
      if currentHighlighted != null {
        UnhighlightIn(currentHighlighted, D, s.objects);
        currentHighlighted := null;
      }
    }

    /** `OnObjectUnregistered`: forget `g` wherever it is tracked, without touching it. */
    method OnObjectUnregistered(g: GrabbableObject?)
      requires Valid()
      modifies this`currentGrabbed, this`currentHighlighted
      ensures currentGrabbed == if old(currentGrabbed) == g then null else old(currentGrabbed)
      ensures currentHighlighted == if old(currentHighlighted) == g then null else old(currentHighlighted)
      ensures g != null ==> g !in Tracked()
      ensures Valid()
    {
      if currentGrabbed == g {
        currentGrabbed := null;
      }
      if currentHighlighted == g {
        currentHighlighted := null;
      }
    }

    method HandleMouseDown(position: Point, hit: GrabbableObject?, time: real, ghost D: set<GrabbableObject>, ghost s: WebState)
      requires Valid() && Is(s, D) && s.Tracked() <= D && Nullable(hit) <= D
      modifies this`mouseStartPosition, this`mouseDownTime, this`isDragging, this`currentHighlighted, D
      ensures Is(AfterMouseDown(s, position, hit, time), D)
      ensures Valid()
    {
      mouseStartPosition := position;
      mouseDownTime := time;
      isDragging := false;
      var grabbable := MouseHit(hit);
      if grabbable != null {
        HighlightIn(grabbable, D, s.objects);
        currentHighlighted := grabbable;
      }
    }

    method HandleMouseHold(position: Point, platform: InteractionPlatform, ghost D: set<GrabbableObject>, ghost s: WebState)
      requires Valid() && Is(s, D) && s.Tracked() <= D
      modifies this`isDragging, this`currentGrabbed, D
      ensures Is(AfterMouseHold(s, position, platform), D)
      ensures Valid()
    {
      if !isDragging && enableDragInteraction {
        if DragExceeds(position, mouseStartPosition, dragThreshold) {
          isDragging := true;
          if currentHighlighted != null {
            var eligible := CanBeGrabbedIn(currentHighlighted, Drag, platform, D, s.objects);
            if eligible {
              var ok := TryGrabIn(currentHighlighted, camera.value, Drag, platform, D, s.objects);
              if ok {
                currentGrabbed := currentHighlighted;
              }
            }
          }
        }
      }
    }

    method Click(hit: GrabbableObject?, platform: InteractionPlatform, ghost D: set<GrabbableObject>, ghost s: WebState)
      requires Valid() && Is(s, D) && s.Tracked() <= D && Nullable(hit) <= D
      modifies D
      ensures Is(AfterClick(s, hit, platform), D)
    {
      var grabbable := MouseHit(hit);
      if grabbable != null {
        var eligible := CanBeGrabbedIn(grabbable, TapClick, platform, D, s.objects);
        if eligible {
          PulseIn(grabbable, camera.value, TapClick, platform, D, s.objects);
        }
      }
    }

    method HandleMouseUp(hit: GrabbableObject?, time: real, platform: InteractionPlatform, ghost D: set<GrabbableObject>, ghost s: WebState)
      requires Valid() && Is(s, D) && s.Tracked() <= D && Nullable(hit) <= D
      modifies this`currentGrabbed, this`currentHighlighted, this`isDragging, D
      ensures Is(AfterMouseUp(s, hit, time, platform), D)
      ensures Valid()
    {
      var clickDuration := time - mouseDownTime;
      ghost var acted := s;
      if isDragging {
        ReleaseCurrentGrab(D, s);
        acted := AfterReleaseGrab(s);
      } else if clickDuration <= clickTimeThreshold && enableClickInteraction {
        Click(hit, platform, D, s);
        acted := AfterClick(s, hit, platform);
      }
      ClearHighlight(D, acted);
      isDragging := false;
    }

    method UpdateMouseInteractions(mouse: PointerInput, time: real, platform: InteractionPlatform,
                                   ghost D: set<GrabbableObject>, ghost s: WebState)
      requires Valid() && Is(s, D) && s.Tracked() <= D && Nullable(mouse.hit) <= D
      modifies this`currentGrabbed, this`currentHighlighted, this`mouseStartPosition, this`mouseDownTime, this`isDragging, D
      ensures Is(AfterMouse(s, mouse, time, platform), D)
      ensures Valid()
    {
      if mouse.buttonDown {
        HandleMouseDown(mouse.position, mouse.hit, time, D, s);
      } else if mouse.button {
        HandleMouseHold(mouse.position, platform, D, s);
      } else if mouse.buttonUp {
        HandleMouseUp(mouse.hit, time, platform, D, s);
      }
    }

    method GrabUnderPointer(hit: GrabbableObject?, platform: InteractionPlatform, ghost D: set<GrabbableObject>, ghost s: WebState)
      requires Valid() && Is(s, D) && s.Tracked() <= D && Nullable(hit) <= D
      modifies this`currentGrabbed, D
      ensures Is(AfterGrabKey(s, hit, platform), D)
      ensures Valid()
    {
      if currentGrabbed == null {
        var grabbable := MouseHit(hit);
        if grabbable != null {
          var eligible := CanBeGrabbedIn(grabbable, TapClick, platform, D, s.objects);
          if eligible {
            var ok := TryGrabIn(grabbable, camera.value, TapClick, platform, D, s.objects);
            if ok {
              currentGrabbed := grabbable;
            }
          }
        }
      }
    }

    method UpdateKeyboardShortcuts(grabKeyDown: bool, releaseKeyDown: bool, hit: GrabbableObject?, platform: InteractionPlatform,
                                   ghost D: set<GrabbableObject>, ghost s: WebState)
      requires Valid() && Is(s, D) && s.Tracked() <= D && Nullable(hit) <= D
      modifies this`currentGrabbed, D
      ensures Is(AfterKeys(s, grabKeyDown, releaseKeyDown, hit, platform), D)
      ensures Valid()
    {
      ghost var grabbing := s;
      if grabKeyDown {
        GrabUnderPointer(hit, platform, D, s);
        grabbing := AfterGrabKey(s, hit, platform);
      }
      if releaseKeyDown {
        ReleaseCurrentGrab(D, grabbing);
      }
    }

    method UpdateObjectHighlighting(hit: GrabbableObject?, ghost D: set<GrabbableObject>, ghost s: WebState)
      requires Valid() && Is(s, D) && s.Tracked() <= D && Nullable(hit) <= D
      modifies this`currentHighlighted, D
      ensures Is(AfterHover(s, hit), D)
      ensures Valid()
    {
      if !isDragging && currentGrabbed == null {
        var grabbable := MouseHit(hit);
        if grabbable != currentHighlighted {
          ClearHighlight(D, s);
          if grabbable != null {
            HighlightIn(grabbable, D, AfterClearHighlight(s).objects);
            currentHighlighted := grabbable;
          }
        }
      }
    }

    /** `UpdateHandler`: nothing while disabled; else mouse, then keyboard, then hover. */
    method UpdateHandler(frame: Frame)
      requires Valid()
      modifies this`currentGrabbed, this`currentHighlighted, this`mouseStartPosition, this`mouseDownTime, this`isDragging,
               Reachable(frame)
      ensures !old(isEnabled) ==> unchanged(this) && unchanged(old(Reachable(frame)))
      ensures old(isEnabled) ==> DidFrame(frame, old(Reachable(frame)))
      ensures Valid()
    {
      if !isEnabled {
        return;
      }
      ghost var D := Reachable(frame);
      ghost var s := State(D);
      UpdateMouseInteractions(frame.mouse, frame.time, frame.platform, D, s);
      ghost var clicked := AfterMouse(s, frame.mouse, frame.time, frame.platform);
      UpdateKeyboardShortcuts(frame.grabKeyDown, frame.releaseKeyDown, frame.mouse.hit, frame.platform, D, clicked);
      ghost var keyed := AfterKeys(clicked, frame.grabKeyDown, frame.releaseKeyDown, frame.mouse.hit, frame.platform);
      UpdateObjectHighlighting(frame.mouse.hit, D, keyed);
    }
  }
}
