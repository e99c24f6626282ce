/**
  The handler interface (Core/IGrabInteractionHandler.cs).  The three implementations are
  the alternatives of `HandlerRef`, and each interface operation dispatches on it; the
  contracts here are what every implementation promises.
*/
module Handlers {
  import opened Wrappers
  import opened InteractionTypes
  import opened Grabbables
  import opened FrameInputs
  import VRHandling
  import MobileHandling
  import WebHandling

  datatype HandlerRef =
    | VRRef(vr: VRHandling.VRInteractionHandler)
    | MobileRef(mobile: MobileHandling.MobileInteractionHandler)
    | WebRef(web: WebHandling.WebInteractionHandler)

  function HandlerObject(h: HandlerRef): object {
    match h
    case VRRef(v) => v
    case MobileRef(m) => m
    case WebRef(w) => w
  }

  /** Distinct references are to distinct handlers. */
  lemma DistinctHandlers(h: HandlerRef, k: HandlerRef)
    requires h != k
    ensures HandlerObject(h) != HandlerObject(k)
  {
  }

  /** `SupportedPlatform`: a constant per implementation. */
  function SupportedPlatform(h: HandlerRef): (p: InteractionPlatform)
    ensures IsSinglePlatform(p) && p != Desktop
    ensures p == VR <==> h.VRRef?
    ensures p == Mobile <==> h.MobileRef?
    ensures p == Web <==> h.WebRef?
  {
    match h
    case VRRef(v) => v.supportedPlatform
    case MobileRef(m) => m.supportedPlatform
    case WebRef(w) => w.supportedPlatform
  }

  predicate IsEnabled(h: HandlerRef)
    reads HandlerObject(h)
  {
    match h
    case VRRef(v) => v.isEnabled
    case MobileRef(m) => m.isEnabled
    case WebRef(w) => w.isEnabled
  }

  ghost predicate Valid(h: HandlerRef)
    reads HandlerObject(h)
  {
    match h
    case VRRef(_) => true
    case MobileRef(m) => m.Valid()
    case WebRef(w) => w.Valid()
  }

  /** The objects the handler holds as grabbed. */
  function Held(h: HandlerRef): (r: set<GrabbableObject>)
    reads HandlerObject(h)
    ensures r <= Tracked(h)
  {
    match h
    case VRRef(v) => v.activeGrabs.Values
    case MobileRef(m) => Nullable(m.currentGrabbed)
    case WebRef(w) => Nullable(w.currentGrabbed)
  }

  /** Every object the handler keeps a reference to. */
  function Tracked(h: HandlerRef): set<GrabbableObject>
    reads HandlerObject(h)
  {
    match h
    case VRRef(v) => v.activeGrabs.Values
    case MobileRef(m) => m.Tracked()
    case WebRef(w) => w.Tracked()
  }

  /** The objects one frame of the handler may change. */
  function Reachable(h: HandlerRef, frame: Frame): set<GrabbableObject>
    reads HandlerObject(h)
  {
    match h
    case VRRef(v) => v.Reachable(frame)
    case MobileRef(m) => m.Reachable(frame)
    case WebRef(w) => w.Reachable(frame)
  }

  /** `Initialize`: the VR handler looks up its interactors; the cameras of the other two
      are fixed when they are created. */
  method Initialize(h: HandlerRef, scene: Scene)
    modifies HandlerObject(h)
    ensures h.VRRef? ==> h.vr.interactors == scene.interactors && unchanged(h.vr`isEnabled, h.vr`activeGrabs)
    ensures !h.VRRef? ==> unchanged(HandlerObject(h))
  {
    match h
    case VRRef(v) => v.Initialize(scene);
    case MobileRef(_) =>
    case WebRef(_) =>
  }

  /** The pointer state of a handler: the VR interactors; the touch or mouse start, the
      drag flag and (mobile) the gaze timer. */
  datatype Pointer =
    | Interactors(interactors: seq<Option<Actor>>)
    | Touch(startPosition: Point, startTime: real, dragging: bool, gazeTimer: real)
    | Mouse(startPosition: Point, downTime: real, dragging: bool)

  function PointerOf(h: HandlerRef): Pointer
    reads HandlerObject(h)
  {
    match h
    case VRRef(v) => Interactors(v.interactors)
    case MobileRef(m) => Touch(m.touchStartPosition, m.touchStartTime, m.isDragging, m.gazeTimer)
    case WebRef(w) => Mouse(w.mouseStartPosition, w.mouseDownTime, w.isDragging)
  }

  /** The references a handler keeps to objects: the VR dictionary; the grabbed, the
      highlighted and (mobile) the gazed object. */
  datatype References =
    | Grabs(grabs: map<Actor, GrabbableObject>)
    | TouchTargets(grabbed: GrabbableObject?, highlighted: GrabbableObject?, gazed: GrabbableObject?)
    | MouseTargets(grabbed: GrabbableObject?, highlighted: GrabbableObject?)

  function ReferencesOf(h: HandlerRef): References
    reads HandlerObject(h)
  {
    match h
    case VRRef(v) => Grabs(v.activeGrabs)
    case MobileRef(m) => TouchTargets(m.currentGrabbed, m.currentHighlighted, m.currentGazed)
    case WebRef(w) => MouseTargets(w.currentGrabbed, w.currentHighlighted)
  }

  /** Whether the references hold `o`: as a VR entry's object, or as the grabbed object. */
  function Holds(r: References, o: GrabbableObject): bool {
    match r
    case Grabs(grabs) => o in grabs.Values
    case TouchTargets(grabbed, _, _) => o == grabbed
    case MouseTargets(grabbed, _) => o == grabbed
  }

  /** Whether the references highlight `o`; the VR handler keeps no highlight. */
  function Lights(r: References, o: GrabbableObject): bool {
    match r
    case Grabs(_) => false
    case TouchTargets(_, highlighted, _) => o == highlighted
    case MouseTargets(_, highlighted) => o == highlighted
  }

  /** What holds and what highlights is what the handler holds and tracks. */
  lemma ReferencesCover(h: HandlerRef)
    ensures forall o: GrabbableObject :: o in Held(h) <==> Holds(ReferencesOf(h), o)
    ensures forall o: GrabbableObject | Lights(ReferencesOf(h), o) :: o in Tracked(h)
  {
  }

  /** References as `Disable` leaves them: no grab and no highlight. */
  predicate IsCleared(r: References) {
    match r
    case Grabs(grabs) => grabs == map[]
    case TouchTargets(grabbed, highlighted, _) => grabbed == null && highlighted == null
    case MouseTargets(grabbed, highlighted) => grabbed == null && highlighted == null
  }

  /** What `Disable` leaves of the references: nothing held and nothing highlighted; a
      mobile handler keeps its gaze target. */
  function Cleared(r: References): (c: References)
    ensures c.Grabs? ==> c.grabs == map[]
    ensures !c.Grabs? ==> c.grabbed == null && c.highlighted == null
    ensures c.TouchTargets? ==> r.TouchTargets? && c.gazed == r.gazed
    ensures IsCleared(c) && (IsCleared(r) ==> c == r)
  {
    match r
    case Grabs(_) => Grabs(map[])
    case TouchTargets(_, _, gazed) => TouchTargets(null, null, gazed)
    case MouseTargets(_, _) => MouseTargets(null, null)
  }

  /** A reference to `g`, if that is what `o` is, dropped. */
  function Drop(o: GrabbableObject?, g: GrabbableObject?): (r: GrabbableObject?)
    ensures r == null || (r == o && o != g)
    ensures o != g ==> r == o
  {
    if o == g then null else o
  }

  /** What `OnObjectUnregistered` leaves of the references: every one to `g` dropped, every
      other kept. */
  function Forget(r: References, g: GrabbableObject?): (f: References)
    ensures f.Grabs? <==> r.Grabs?
    ensures f.Grabs? ==> forall a | a in r.grabs ::
              if r.grabs[a] == g then a !in f.grabs else a in f.grabs && f.grabs[a] == r.grabs[a]
    ensures f.Grabs? ==> f.grabs.Keys <= r.grabs.Keys
  {
    match r
    case Grabs(grabs) => Grabs(map a | a in grabs && grabs[a] != g :: grabs[a])
    case TouchTargets(grabbed, highlighted, gazed) => TouchTargets(Drop(grabbed, g), Drop(highlighted, g), Drop(gazed, g))
    case MouseTargets(grabbed, highlighted) => MouseTargets(Drop(grabbed, g), Drop(highlighted, g))
  }

  /** Cleared references hold and highlight nothing, so disabling a second time lets go
      of nothing. */
  lemma ClearedHoldsNothing(r: References)
    ensures IsCleared(r) ==> forall o: GrabbableObject :: !Holds(r, o) && !Lights(r, o)
  {
  }

  /** `Enable`: every implementation turns `IsEnabled` on and changes nothing else. */
  method Enable(h: HandlerRef)
    requires Valid(h)
    modifies HandlerObject(h)
    ensures IsEnabled(h) && Valid(h)
    ensures PointerOf(h) == old(PointerOf(h)) && ReferencesOf(h) == old(ReferencesOf(h))
    ensures Tracked(h) == old(Tracked(h))
  {
    match h
    case VRRef(v) => v.Enable();
    case MobileRef(m) => m.Enable();
    case WebRef(w) => w.Enable();
  }

  /** `Disable`: every implementation turns `IsEnabled` off and lets go of its grabs: an
      object it held is no longer Grabbed, one that was Grabbed is released as `Release`
      releases it, and no object it tracked becomes Grabbed.  A mobile or web handler also
      clears its highlight, so the highlighted object is then unhighlighted.  Each tracked
      object ends as `AfterLetGo` says: one neither held nor highlighted (the gaze target)
      is unchanged.  The pointer state, and so the VR interactors, are kept. */
  method Disable(h: HandlerRef)
    requires Valid(h)
    modifies HandlerObject(h), Tracked(h)
    ensures !IsEnabled(h) && Held(h) == {} && Valid(h)
    ensures PointerOf(h) == old(PointerOf(h)) && ReferencesOf(h) == Cleared(old(ReferencesOf(h)))
    ensures h.VRRef? ==> h.vr.interactors == old(h.vr.interactors)
    ensures Tracked(h) <= old(Tracked(h))
    ensures LetGo(old(Held(h))) && NoNewGrabs(old(Tracked(h)))
    ensures forall o | o in old(Tracked(h)) ::
              o.Status() == AfterLetGo(o.freezeRotationWhenGrabbed, old(o.Status()),
                                       Holds(old(ReferencesOf(h)), o), Lights(old(ReferencesOf(h)), o))
  {
    match h {
      case VRRef(v) => v.Disable();
      case MobileRef(m) =>
        ghost var D := m.Tracked();
        m.Disable(D, m.State(D));
      case WebRef(w) =>
        ghost var D := w.Tracked();
        w.Disable(D, w.State(D));
    }
    ReferencesCleared(h, old(ReferencesOf(h)));
  }

  /** The references of a handler whose grabs and highlight are cleared. */
  lemma ReferencesCleared(h: HandlerRef, before: References)
    requires h.VRRef? ==> before.Grabs? && h.vr.activeGrabs == map[]
    requires h.MobileRef? ==>
               && before.TouchTargets? && h.mobile.currentGrabbed == null && h.mobile.currentHighlighted == null
               && h.mobile.currentGazed == before.gazed
    requires h.WebRef? ==> before.MouseTargets? && h.web.currentGrabbed == null && h.web.currentHighlighted == null
    ensures ReferencesOf(h) == Cleared(before)
  {
  }

  /** What one enabled frame does, per implementation: the handler and the objects of `D`
      are as its `AfterFrame` gives them from what they were. */
  twostate predicate FrameEffect(h: HandlerRef, frame: Frame, D: set<GrabbableObject>)
    reads HandlerObject(h), D
  {
    match h
    case VRRef(v) =>
      && v.DidFrame(frame, D)
      && VRHandling.EntriesFollow(old(v.activeGrabs), v.activeGrabs, v.interactors, frame, v.enableDirectGrab, v.enableRemoteGrab)
    case MobileRef(m) => m.DidFrame(frame, D)
    case WebRef(w) => w.DidFrame(frame, D)
  }

  /** `UpdateHandler`: every implementation does nothing while disabled, and otherwise runs
      its frame; a VR interactor whose entry a frame removes no longer holds its object. */
  method UpdateHandler(h: HandlerRef, frame: Frame)
    requires Valid(h)
    modifies HandlerObject(h), Reachable(h, frame)
    ensures !old(IsEnabled(h)) ==> unchanged(HandlerObject(h)) && unchanged(old(Reachable(h, frame)))
    ensures old(IsEnabled(h)) ==> FrameEffect(h, frame, old(Reachable(h, frame)))
    ensures h.VRRef? ==> h.vr.interactors == old(h.vr.interactors)
    ensures h.VRRef? && old(h.vr.GrabsCoherent()) ==>
              && h.vr.GrabsCoherent()
              && forall a | a in old(h.vr.activeGrabs) && a !in h.vr.activeGrabs :: old(h.vr.activeGrabs)[a].grabber != Some(a)
    ensures IsEnabled(h) == old(IsEnabled(h)) && Valid(h)
  {
    match h
    case VRRef(v) => v.UpdateHandler(frame);
    case MobileRef(m) => m.UpdateHandler(frame);
    case WebRef(w) => w.UpdateHandler(frame);
  }

  /** `OnObjectRegistered`: no implementation changes anything the model keeps (the VR
      handler's component set-up is engine work). */
  method OnObjectRegistered(h: HandlerRef, g: GrabbableObject?)
    ensures unchanged(HandlerObject(h))
  {
  }

  /** `OnObjectUnregistered`: every implementation forgets `g` and nothing else, without
      touching any object. */
  method OnObjectUnregistered(h: HandlerRef, g: GrabbableObject?)
    requires Valid(h)
    modifies HandlerObject(h)
    ensures PointerOf(h) == old(PointerOf(h)) && ReferencesOf(h) == Forget(old(ReferencesOf(h)), g)
    ensures g != null ==> g !in Tracked(h)
    ensures Tracked(h) == old(Tracked(h)) - Nullable(g)
    ensures IsEnabled(h) == old(IsEnabled(h)) && Valid(h)
  {
    match h
    case VRRef(v) => v.OnObjectUnregistered(g);
    case MobileRef(m) => m.OnObjectUnregistered(g);
    case WebRef(w) => w.OnObjectUnregistered(g);
  }
}
