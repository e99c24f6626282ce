/**
  The per-object grab state machine (Core/GrabbableObject.cs).

  A `GrabbableObject` keeps its grab state, its grabber, the physics flags of its rigidbody
  and the snapshot `wasKinematic` in fields that its methods update.  The pure functions
  `AfterTryGrab`, `AfterRelease`, `AfterHighlight`, ... give the new `GrabStatus` of an object
  from the old one; each method is proved to act as its function, and the lemmas at the end
  of the module state what whole sequences of operations keep.

  Left to parameters: the grabber `Transform` is an `Actor` handle, the rigidbody is an
  optional `Body` value (absent when the object has no rigidbody), the current platform is
  passed in (it is what `PlatformDetector.CurrentPlatform` yields), and the events it raises
  are appended to the log `events`.  `Invoke(nameof(ReturnToIdle), 0.1f)` is the counter
  `pendingReturns` of scheduled calls; the scheduler later calls `ReturnToIdle`.
*/
module Grabbables {
  import opened Wrappers
  import opened InteractionTypes
  import opened PlatformDetection

  /** A `Transform` that can hold an object: a hand, a controller or a camera. */
  type Actor = nat

  /** The two rigidbody flags the grab touches. */
  datatype Body = Body(isKinematic: bool, freezeRotation: bool)

  /** One notification; each pairs the UnityEvent with the C# event raised beside it. */
  datatype GrabEvent = GrabStarted | GrabEnded | HighlightedEvent | UnhighlightedEvent

  /** What eligibility depends on besides the state. */
  datatype GrabSettings = GrabSettings(isGrabbable: bool, supportedPlatforms: InteractionPlatform, allowedTypes: seq<GrabInteractionType>)

  /** What the grab operations change. */
  datatype GrabStatus = GrabStatus(
    state: GrabState,
    grabber: Option<Actor>,
    body: Option<Body>,
    wasKinematic: bool,
    pendingReturns: nat,
    events: seq<GrabEvent>)

  /** The interaction-type check of `CanBeGrabbed`: an empty list allows every type. */
  predicate TypeAllowed(allowed: seq<GrabInteractionType>, kind: GrabInteractionType) {
    |allowed| == 0 || kind in allowed
  }

  /** `CanBeGrabbed`: enabled, on a supported platform, of an allowed type, and not held already. */
  predicate Eligible(s: GrabSettings, st: GrabStatus, platform: InteractionPlatform, kind: GrabInteractionType) {
    && s.isGrabbable
    && HasFlag(s.supportedPlatforms, platform)
    && TypeAllowed(s.allowedTypes, kind)
    && st.state != Grabbed
  }

  /** `StartGrab`: become Grabbed by `grabber`, snapshot the kinematic flag, force it for
      DirectHand, freeze rotation if configured. */
  function AfterStartGrab(freeze: bool, st: GrabStatus, grabber: Actor, kind: GrabInteractionType): GrabStatus {
    match st.body
    case None =>
      st.(state := Grabbed, grabber := Some(grabber), events := st.events + [GrabStarted])
    case Some(b) =>
      var kinematic := if kind == DirectHand then true else b.isKinematic;
      var frozen := if freeze then true else b.freezeRotation;
      st.(state := Grabbed, grabber := Some(grabber), body := Some(Body(kinematic, frozen)),
          wasKinematic := b.isKinematic, events := st.events + [GrabStarted])
  }

  /** `EndGrab`: become Released, drop the grabber, restore the snapshot, unfreeze rotation
      if configured, and schedule one `ReturnToIdle`. */
  function AfterEndGrab(freeze: bool, st: GrabStatus): GrabStatus {
    var st' := st.(state := Released, grabber := None, pendingReturns := st.pendingReturns + 1,
                   events := st.events + [GrabEnded]);
    match st.body
    case None => st'
    case Some(b) =>
      st'.(body := Some(Body(st.wasKinematic, if freeze then false else b.freezeRotation)))
  }

  /** `TryGrab`: start the grab when eligible, else nothing changes. */
  function AfterTryGrab(freeze: bool, s: GrabSettings, st: GrabStatus, platform: InteractionPlatform,
                        grabber: Actor, kind: GrabInteractionType): GrabStatus {
    if Eligible(s, st, platform, kind) then AfterStartGrab(freeze, st, grabber, kind) else st
  }

  /** `Release`: end the grab when Grabbed, else nothing changes. */
  function AfterRelease(freeze: bool, st: GrabStatus): GrabStatus {
    if st.state == Grabbed then AfterEndGrab(freeze, st) else st
  }

  /** `Highlight`: ignored in Highlighted and Grabbed. */
  function AfterHighlight(st: GrabStatus): GrabStatus {
    if st.state == Highlighted || st.state == Grabbed then st
    else st.(state := Highlighted, events := st.events + [HighlightedEvent])
  }

  /** `Unhighlight`: acts only in Highlighted. */
  function AfterUnhighlight(st: GrabStatus): GrabStatus {
    if st.state != Highlighted then st
    else st.(state := Idle, events := st.events + [UnhighlightedEvent])
  }

  /** What a handler's `Disable` does to one object it tracks: `Release` when the handler
      holds it, then `Unhighlight` when the handler highlights it. */
  function AfterLetGo(freeze: bool, st: GrabStatus, held: bool, lit: bool): (r: GrabStatus)
    ensures held ==> r.state != Grabbed && (st.state == Grabbed ==> r == AfterRelease(freeze, st))
    ensures lit ==> r.state != Highlighted
    ensures r.state == Grabbed ==> st.state == Grabbed
    ensures !held && !lit ==> r == st
  {
    var released := if held then AfterRelease(freeze, st) else st;
    if lit then AfterUnhighlight(released) else released
  }

  /** `ReturnToIdle` as the source has it: Idle whatever the state, one scheduled call consumed. */
  function AfterReturnToIdle(st: GrabStatus): GrabStatus
    requires st.pendingReturns > 0
  {
    st.(state := Idle, pendingReturns := st.pendingReturns - 1)
  }

  /** `ReturnToIdle` as evidently intended: leave Released for Idle and nothing else. */
  function AfterReturnToIdleFixed(st: GrabStatus): (r: GrabStatus)
    requires st.pendingReturns > 0
    ensures st.state == Released ==> r.state == Idle
    ensures st.state != Released ==> r.state == st.state
    ensures r.pendingReturns == st.pendingReturns - 1
    ensures r.(state := st.state, pendingReturns := st.pendingReturns) == st
  {
    st.(state := if st.state == Released then Idle else st.state, pendingReturns := st.pendingReturns - 1)
  }

  /** A tap or gaze "pulse": `TryGrab` and, when it succeeds, `Release` straight away. */
  function AfterPulse(freeze: bool, s: GrabSettings, st: GrabStatus, platform: InteractionPlatform,
                      grabber: Actor, kind: GrabInteractionType): GrabStatus {
    if Eligible(s, st, platform, kind)
    then AfterRelease(freeze, AfterStartGrab(freeze, st, grabber, kind))
    else st
  }

  /** What `StartGrab` and `EndGrab` keep between them (GrabbableObject.cs:198-245): a
      grabber is recorded exactly while Grabbed. */
  predicate Coherent(st: GrabStatus) {
    st.grabber.Some? <==> st.state == Grabbed
  }

  /** The set holding `o`, or nothing for null. */
  function Nullable(o: GrabbableObject?): set<GrabbableObject> {
    if o == null then {} else {o}
  }

  class GrabbableObject {
    var isGrabbable: bool
    const supportedPlatforms: InteractionPlatform
    var allowedTypes: seq<GrabInteractionType>
    const usePhysics: bool
    const freezeRotationWhenGrabbed: bool
    const maxGrabDistance: real

    var state: GrabState
    var grabber: Option<Actor>
    var body: Option<Body>
    var wasKinematic: bool
    var pendingReturns: nat
    var events: seq<GrabEvent>

    function Settings(): GrabSettings
      reads this`isGrabbable, this`allowedTypes
    {
      GrabSettings(isGrabbable, supportedPlatforms, allowedTypes)
    }

    function Status(): GrabStatus
      reads this`state, this`grabber, this`body, this`wasKinematic, this`pendingReturns, this`events
    {
      GrabStatus(state, grabber, body, wasKinematic, pendingReturns, events)
    }

    /** The component as `Awake` leaves it: `InitializeComponents` adds a rigidbody when
        physics is on and there is none, then `SetupDefaultInteractionTypes` runs. */
    constructor (isGrabbable: bool, supportedPlatforms: InteractionPlatform, allowedTypes: seq<GrabInteractionType>,
                 usePhysics: bool, freezeRotationWhenGrabbed: bool, maxGrabDistance: real,
                 body: Option<Body>, platform: InteractionPlatform)
      ensures Settings() == GrabSettings(isGrabbable, supportedPlatforms,
                              if |allowedTypes| == 0 then PreferredTypes(platform) else allowedTypes)
      ensures |this.allowedTypes| > 0
      ensures this.usePhysics == usePhysics && this.freezeRotationWhenGrabbed == freezeRotationWhenGrabbed
      ensures this.maxGrabDistance == maxGrabDistance
      ensures Status() == GrabStatus(Idle, None,
                            if usePhysics && body.None? then Some(Body(false, false)) else body,
                            false, 0, [])
    {
      this.isGrabbable := isGrabbable;
      this.supportedPlatforms := supportedPlatforms;
      this.allowedTypes := allowedTypes;
      this.usePhysics := usePhysics;
      this.freezeRotationWhenGrabbed := freezeRotationWhenGrabbed;
      this.maxGrabDistance := maxGrabDistance;
      state := Idle;
      grabber := None;
      this.body := if usePhysics && body.None? then Some(Body(false, false)) else body;
      wasKinematic := false;
      pendingReturns := 0;
      events := [];
      new;
      SetupDefaultInteractionTypes(platform);
    }

    /** An empty list of allowed types is replaced by the platform's preferred types. */
    method SetupDefaultInteractionTypes(platform: InteractionPlatform)
      modifies this`allowedTypes
      ensures allowedTypes == if |old(allowedTypes)| == 0 then PreferredTypes(platform) else old(allowedTypes)
      ensures |allowedTypes| > 0
    {
      if |allowedTypes| == 0 {
        allowedTypes := PreferredTypes(platform);
      }
    }

    /** The `IsGrabbable` setter. */
    method SetIsGrabbable(value: bool)
      modifies this`isGrabbable
      ensures isGrabbable == value
    {
      isGrabbable := value;
    }

    /** `CanBeGrabbed`, with its search of the allowed-type list. */
    method CanBeGrabbed(kind: GrabInteractionType, platform: InteractionPlatform) returns (ok: bool)
      ensures ok == Eligible(Settings(), Status(), platform, kind)
    {
      if !isGrabbable {
        return false;
      }
      if !HasFlag(supportedPlatforms, platform) {
        return false;
      }
      if |allowedTypes| > 0 {
        var typeAllowed := false;
        var i := 0;
        while i < |allowedTypes|
          invariant 0 <= i <= |allowedTypes|
          invariant !typeAllowed && kind !in allowedTypes[..i]
        {
          if allowedTypes[i] == kind {
            typeAllowed := true;
            break;
          }
          i := i + 1;
        }
        if !typeAllowed {
          assert allowedTypes[..i] == allowedTypes;
          return false;
        }
      }
      return state != Grabbed;
    }

    /** `IsWithinGrabRange`, given the engine's distance from the query point: the bound
        itself is in range. */
    function IsWithinGrabRange(distance: real): (r: bool)
      ensures r <==> distance <= maxGrabDistance
    {
      distance <= maxGrabDistance
    }

    method TryGrab(g: Actor, kind: GrabInteractionType, platform: InteractionPlatform) returns (ok: bool)
      modifies this`state, this`grabber, this`body, this`wasKinematic, this`pendingReturns, this`events
      ensures ok == Eligible(Settings(), old(Status()), platform, kind)
      ensures Status() == AfterTryGrab(freezeRotationWhenGrabbed, Settings(), old(Status()), platform, g, kind)
      ensures ok ==> state == Grabbed && grabber == Some(g)
      ensures Coherent(old(Status())) ==> Coherent(Status())
    {
      ok := CanBeGrabbed(kind, platform);
      if !ok {
        return;
      }
      StartGrab(g, kind);
    }

    method Release()
      modifies this`state, this`grabber, this`body, this`wasKinematic, this`pendingReturns, this`events
      ensures Status() == AfterRelease(freezeRotationWhenGrabbed, old(Status()))
      ensures state != Grabbed && (old(state) == Grabbed ==> state == Released && grabber == None)
      ensures Coherent(old(Status())) ==> Coherent(Status())
    {
      if state != Grabbed {
        return;
      }
      EndGrab();
    }

    method Highlight()
      modifies this`state, this`events
      ensures Status() == AfterHighlight(old(Status()))
      ensures old(state) in {Idle, Released} ==> state == Highlighted
      ensures Coherent(old(Status())) ==> Coherent(Status())
    {
      if state == Highlighted || state == Grabbed {
        return;
      }
      state := Highlighted;
      events := events + [HighlightedEvent];
    }

    method Unhighlight()
      modifies this`state, this`events
      ensures Status() == AfterUnhighlight(old(Status()))
      ensures old(state) == Highlighted ==> state == Idle
      ensures Coherent(old(Status())) ==> Coherent(Status())
    {
      if state != Highlighted {
        return;
      }
      state := Idle;
      events := events + [UnhighlightedEvent];
    }

    method StartGrab(g: Actor, kind: GrabInteractionType)
      modifies this`state, this`grabber, this`body, this`wasKinematic, this`events
      ensures Status() == AfterStartGrab(freezeRotationWhenGrabbed, old(Status()), g, kind)
    {
      state := Grabbed;
      grabber := Some(g);
      if body.Some? {
        wasKinematic := body.value.isKinematic;
        if kind == DirectHand {
          body := Some(body.value.(isKinematic := true));
        }
        if freezeRotationWhenGrabbed {
          body := Some(body.value.(freezeRotation := true));
        }
      }
      events := events + [GrabStarted];
    }

    method EndGrab()
      modifies this`state, this`grabber, this`body, this`pendingReturns, this`events
      ensures Status() == AfterEndGrab(freezeRotationWhenGrabbed, old(Status()))
    {
      state := Released;
      grabber := None;
      if body.Some? {
        body := Some(body.value.(isKinematic := wasKinematic));
        if freezeRotationWhenGrabbed {
          body := Some(body.value.(freezeRotation := false));
        }
      }
      events := events + [GrabEnded];
      pendingReturns := pendingReturns + 1;
    }

    /** The scheduled `ReturnToIdle`, exactly as the source has it. */
    method ReturnToIdle()
      requires pendingReturns > 0
      modifies this`state, this`pendingReturns
      ensures Status() == AfterReturnToIdle(old(Status()))
    {
      state := Idle;
      pendingReturns := pendingReturns - 1;
    }
  }

  // ---------------------------------------------------------------------------------------
  // Sequences of operations on one object.

  /** One public operation on an object, or the scheduler firing a pending `ReturnToIdle`.
      A grab attempt carries the settings and platform in force at that moment. */
  datatype Op =
    | TryGrabOp(settings: GrabSettings, platform: InteractionPlatform, grabber: Actor, kind: GrabInteractionType)
    | ReleaseOp
    | HighlightOp
    | UnhighlightOp
    | ReturnToIdleOp

  /** One step, with the corrected `ReturnToIdle`; firing with nothing scheduled does nothing. */
  function Step(freeze: bool, st: GrabStatus, op: Op): GrabStatus {
    match op
    case TryGrabOp(s, p, g, k) => AfterTryGrab(freeze, s, st, p, g, k)
    case ReleaseOp => AfterRelease(freeze, st)
    case HighlightOp => AfterHighlight(st)
    case UnhighlightOp => AfterUnhighlight(st)
    case ReturnToIdleOp => if st.pendingReturns > 0 then AfterReturnToIdleFixed(st) else st
  }

  function Run(freeze: bool, st: GrabStatus, ops: seq<Op>): GrabStatus
    decreases |ops|
  {
    if |ops| == 0 then st else Run(freeze, Step(freeze, st, ops[0]), ops[1..])
  }

  /** Each operation keeps "grabber recorded exactly while Grabbed". */
  lemma StepKeepsCoherent(freeze: bool, st: GrabStatus, op: Op)
    requires Coherent(st)
    ensures Coherent(Step(freeze, st, op))
  {
  }

  /** ... and so does any sequence of them. */
  lemma {:induction false} RunKeepsCoherent(freeze: bool, st: GrabStatus, ops: seq<Op>)
    requires Coherent(st)
    ensures Coherent(Run(freeze, st, ops))
    decreases |ops|
  {
    if |ops| > 0 {
      StepKeepsCoherent(freeze, st, ops[0]);
      RunKeepsCoherent(freeze, Step(freeze, st, ops[0]), ops[1..]);
    }
  }

  /** The save/restore pair on the kinematic flag, relative to the value `k` it had before
      any grab: out of a grab the flag is `k`, during one the snapshot is `k`. */
  predicate KinematicKept(st: GrabStatus, k: bool) {
    && st.body.Some?
    && (st.state == Grabbed ==> st.wasKinematic == k)
    && (st.state != Grabbed ==> st.body.value.isKinematic == k)
  }

  lemma StepKeepsKinematic(freeze: bool, st: GrabStatus, op: Op, k: bool)
    requires KinematicKept(st, k)
    ensures KinematicKept(Step(freeze, st, op), k)
  {
  }

  /** However many grab cycles an object goes through, its kinematic flag is back to the
      value it had before the first grab whenever it is not held. */
  lemma {:induction false} RunKeepsKinematic(freeze: bool, st: GrabStatus, ops: seq<Op>, k: bool)
    requires KinematicKept(st, k)
    ensures KinematicKept(Run(freeze, st, ops), k)
    ensures Run(freeze, st, ops).state != Grabbed ==> Run(freeze, st, ops).body.value.isKinematic == k
    decreases |ops|
  {
    if |ops| > 0 {
      StepKeepsKinematic(freeze, st, ops[0], k);
      RunKeepsKinematic(freeze, Step(freeze, st, ops[0]), ops[1..], k);
    }
  }

  /** One cycle: the snapshot taken at the grab is exactly what the release restores. */
  lemma GrabThenReleaseRestoresSnapshot(freeze: bool, s: GrabSettings, st: GrabStatus, p: InteractionPlatform,
                                        g: Actor, kind: GrabInteractionType)
    requires Eligible(s, st, p, kind) && st.body.Some?
    ensures AfterTryGrab(freeze, s, st, p, g, kind).wasKinematic == st.body.value.isKinematic
    ensures AfterTryGrab(freeze, s, st, p, g, kind).body.value.isKinematic == (kind == DirectHand || st.body.value.isKinematic)
    ensures AfterRelease(freeze, AfterTryGrab(freeze, s, st, p, g, kind)).body.value.isKinematic == st.body.value.isKinematic
  {
  }

  /** `freezeRotation` is not saved: with `freezeRotationWhenGrabbed`, a body that was frozen
      before the grab is unfrozen by the release. */
  lemma ReleaseDoesNotRestoreFreezeRotation(s: GrabSettings, st: GrabStatus, p: InteractionPlatform,
                                            g: Actor, kind: GrabInteractionType)
    requires Eligible(s, st, p, kind) && st.body.Some?
    ensures AfterTryGrab(true, s, st, p, g, kind).body.value.freezeRotation
    ensures !AfterRelease(true, AfterTryGrab(true, s, st, p, g, kind)).body.value.freezeRotation
  {
  }

  /** `TryGrab` changes nothing when the object is not eligible, for each failing condition. */
  lemma TryGrabRefusalChangesNothing(freeze: bool, s: GrabSettings, st: GrabStatus, p: InteractionPlatform,
                                     g: Actor, kind: GrabInteractionType)
    requires !s.isGrabbable || !HasFlag(s.supportedPlatforms, p) || !TypeAllowed(s.allowedTypes, kind) || st.state == Grabbed
    ensures AfterTryGrab(freeze, s, st, p, g, kind) == st
  {
  }

  /** Highlighted and Released objects are eligible; highlighting keeps eligibility, so a
      `TryGrab` right after `CanBeGrabbed` and `Highlight` always succeeds. */
  lemma HighlightKeepsEligibility(s: GrabSettings, st: GrabStatus, p: InteractionPlatform, kind: GrabInteractionType)
    requires Eligible(s, st, p, kind)
    ensures Eligible(s, AfterHighlight(st), p, kind)
    ensures Eligible(s, AfterUnhighlight(st), p, kind)
  {
  }

  /** A successful pulse leaves the object Released with one grab and one release logged. */
  lemma PulseIsGrabThenRelease(freeze: bool, s: GrabSettings, st: GrabStatus, p: InteractionPlatform,
                               g: Actor, kind: GrabInteractionType)
    requires Eligible(s, st, p, kind)
    ensures AfterPulse(freeze, s, st, p, g, kind).state == Released
    ensures AfterPulse(freeze, s, st, p, g, kind).grabber == None
    ensures AfterPulse(freeze, s, st, p, g, kind).events == st.events + [GrabStarted, GrabEnded]
    ensures AfterPulse(freeze, s, st, p, g, kind).pendingReturns == st.pendingReturns + 1
  {
  }

  /** The step the tap, click and gaze handlers share: `TryGrab` and, when it succeeds,
      `Release` at once. */
  method Pulse(o: GrabbableObject, grabber: Actor, kind: GrabInteractionType, platform: InteractionPlatform)
    modifies o`state, o`grabber, o`body, o`wasKinematic, o`pendingReturns, o`events
    ensures o.Status() == AfterPulse(o.freezeRotationWhenGrabbed, o.Settings(), old(o.Status()), platform, grabber, kind)
    ensures Coherent(old(o.Status())) ==> Coherent(o.Status())
  {
    var ok := o.TryGrab(grabber, kind, platform);
    if ok {
      o.Release();
    }
  }

  /** `Release` twice is `Release` once. */
  lemma ReleaseIsIdempotent(freeze: bool, st: GrabStatus)
    ensures AfterRelease(freeze, AfterRelease(freeze, st)) == AfterRelease(freeze, st)
  {
  }

  /** The source's unconditional `ReturnToIdle` breaks the invariant: release, re-grab before
      the scheduled call fires, and the call leaves an Idle object with a grabber.  Its
      `Release` is then ignored, so the flag forced by the DirectHand grab stays set. */
  lemma RegrabBeforeReturnToIdleCounterexample(a: Actor, b: Actor)
    ensures
      var s := GrabSettings(true, AllPlatforms, []);
      var st0 := GrabStatus(Idle, None, Some(Body(false, false)), false, 0, []);
      var st1 := AfterTryGrab(false, s, st0, VR, a, DirectHand);
      var st2 := AfterRelease(false, st1);
      var st3 := AfterTryGrab(false, s, st2, VR, b, DirectHand);
      var st4 := AfterReturnToIdle(st3);
      && st4.state == Idle && st4.grabber == Some(b) && !Coherent(st4)
      && AfterRelease(false, st4) == st4
      && st4.body.value.isKinematic && !st0.body.value.isKinematic
  {
  }

  /** The grab range is a closed ball around the object: every nearer point is in range. */
  lemma GrabRangeIsDownwardClosed(o: GrabbableObject, near: real, far: real)
    requires near <= far
    ensures o.IsWithinGrabRange(far) ==> o.IsWithinGrabRange(near)
    ensures o.IsWithinGrabRange(o.maxGrabDistance)
  {
  }

  // ---------------------------------------------------------------------------------------
  // Several objects as values.

  /** The grab status and the settings of a set of objects, as values.  Each handler step
      is specified as a function from the handler's fields and such a value to new ones;
      the operations below are the object methods the handlers call. */
  datatype Objects = Objects(status: map<GrabbableObject, GrabStatus>, settings: map<GrabbableObject, GrabSettings>)
  {
    /** Both maps cover `objects`. */
    predicate Knows(objects: set<GrabbableObject>) {
      objects <= status.Keys && objects <= settings.Keys
    }

    /** The same objects, with the same settings. */
    predicate SameObjects(other: Objects) {
      status.Keys == other.status.Keys && settings == other.settings
    }

    /** `CanBeGrabbed`; an object the maps do not know is never eligible. */
    predicate CanGrab(o: GrabbableObject, platform: InteractionPlatform, kind: GrabInteractionType) {
      o in status && o in settings && Eligible(settings[o], status[o], platform, kind)
    }

    // Each operation changes the status of one object; one the maps do not know is left
    // as it is.

    function TryGrab(o: GrabbableObject, grabber: Actor, kind: GrabInteractionType, platform: InteractionPlatform): (r: Objects)
      ensures r.SameObjects(this)
    {
      if o in status && o in settings
      then this.(status := status[o := AfterTryGrab(o.freezeRotationWhenGrabbed, settings[o], status[o], platform, grabber, kind)])
      else this
    }

    function Release(o: GrabbableObject): (r: Objects)
      ensures r.SameObjects(this)
    {
      if o in status then this.(status := status[o := AfterRelease(o.freezeRotationWhenGrabbed, status[o])]) else this
    }

    function Highlight(o: GrabbableObject): (r: Objects)
      ensures r.SameObjects(this)
    {
      if o in status then this.(status := status[o := AfterHighlight(status[o])]) else this
    }

    function Unhighlight(o: GrabbableObject): (r: Objects)
      ensures r.SameObjects(this)
    {
      if o in status then this.(status := status[o := AfterUnhighlight(status[o])]) else this
    }

    /** `Pulse` (a tap, click or gaze selection). */
    function Pulse(o: GrabbableObject, grabber: Actor, kind: GrabInteractionType, platform: InteractionPlatform): (r: Objects)
      ensures r.SameObjects(this)
    {
      if o in status && o in settings
      then this.(status := status[o := AfterPulse(o.freezeRotationWhenGrabbed, settings[o], status[o], platform, grabber, kind)])
      else this
    }
  }

  /** The objects of `objects` as they are now. */
  function ObjectsOf(objects: set<GrabbableObject>): (r: Objects)
    reads objects
    ensures r.status.Keys == objects && Agrees(objects, r)
  {
    Objects(map o | o in objects :: o.Status(), map o | o in objects :: o.Settings())
  }

  /** The objects of `D` are now as `v` gives them. */
  ghost predicate Agrees(D: set<GrabbableObject>, v: Objects)
    reads D
  {
    v.Knows(D) && forall o {:trigger o.Status()} {:trigger o.Settings()} | o in D :: o.Status() == v.status[o] && o.Settings() == v.settings[o]
  }

  /** Between the two states no object of `D` changed its settings or became Grabbed. */
  twostate predicate NoNewGrabs(D: set<GrabbableObject>)
    reads D
  {
    forall o | o in D :: o.Settings() == old(o.Settings()) && (o.Status().state == Grabbed ==> old(o.Status()).state == Grabbed)
  }

  /** Every object of `D` is let go of: none is Grabbed, and one that was Grabbed is
      released as `Release` releases it. */
  twostate predicate LetGo(D: set<GrabbableObject>)
    reads D
  {
    forall o | o in D ::
      && o.Status().state != Grabbed
      && (old(o.Status()).state == Grabbed ==> o.Status() == AfterRelease(o.freezeRotationWhenGrabbed, old(o.Status())))
  }

  // The object methods the handlers call, with what each does to a set `D` of objects
  // holding the object, given the value `v` of `D` before the call.

  method ReleaseIn(o: GrabbableObject, ghost D: set<GrabbableObject>, ghost v: Objects)
    requires o in D && Agrees(D, v)
    modifies o`state, o`grabber, o`body, o`wasKinematic, o`pendingReturns, o`events
    ensures Agrees(D, v.Release(o))
  {
    o.Release();
  }

  method HighlightIn(o: GrabbableObject, ghost D: set<GrabbableObject>, ghost v: Objects)
    requires o in D && Agrees(D, v)
    modifies o`state, o`events
    ensures Agrees(D, v.Highlight(o))
  {
    o.Highlight();
  }

  method UnhighlightIn(o: GrabbableObject, ghost D: set<GrabbableObject>, ghost v: Objects)
    requires o in D && Agrees(D, v)
    modifies o`state, o`events
    ensures Agrees(D, v.Unhighlight(o))
  {
    o.Unhighlight();
  }

  method TryGrabIn(o: GrabbableObject, grabber: Actor, kind: GrabInteractionType, platform: InteractionPlatform,
                   ghost D: set<GrabbableObject>, ghost v: Objects) returns (ok: bool)
    requires o in D && Agrees(D, v)
    modifies o`state, o`grabber, o`body, o`wasKinematic, o`pendingReturns, o`events
    ensures ok == v.CanGrab(o, platform, kind)
    ensures Agrees(D, v.TryGrab(o, grabber, kind, platform))
  {
    ok := o.TryGrab(grabber, kind, platform);
  }

  method PulseIn(o: GrabbableObject, grabber: Actor, kind: GrabInteractionType, platform: InteractionPlatform,
                 ghost D: set<GrabbableObject>, ghost v: Objects)
    requires o in D && Agrees(D, v)
    modifies o`state, o`grabber, o`body, o`wasKinematic, o`pendingReturns, o`events
    ensures Agrees(D, v.Pulse(o, grabber, kind, platform))
  {
    Pulse(o, grabber, kind, platform);
  }

  method CanBeGrabbedIn(o: GrabbableObject, kind: GrabInteractionType, platform: InteractionPlatform,
                        ghost D: set<GrabbableObject>, ghost v: Objects) returns (ok: bool)
    requires o in D && Agrees(D, v)
    ensures ok == v.CanGrab(o, platform, kind)
  {
    ok := o.CanBeGrabbed(kind, platform);
  }
}
