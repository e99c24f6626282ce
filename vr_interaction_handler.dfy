/**
  The VR handler (Platforms/VRInteractionHandler.cs): a dictionary from XR interactors to
  the objects they hold, updated each frame by a direct-grab pass and a remote-grab pass
  over the interactors found at initialisation.  An interactor is identified with its
  transform, the `Actor` passed to `TryGrab`.

  As in the other handlers, each step is first a function on a `VRState` value (the
  dictionary and the objects it can reach), and each method is proved to act as its
  function on the objects of a set `D`; the lemmas about the functions state what a pass
  and a frame do to the dictionary and to the objects.
*/
module VRHandling {
  import opened Wrappers
  import opened InteractionTypes
  import opened Grabbables
  import opened FrameInputs

  /** `GetGrabbableAtInteractor`: the first grabbable in the overlap sphere, else the
      grabbable of the interactor's first selected interactable. */
  function TargetAt(input: InteractorInput): GrabbableObject? {
    if input.overlap != null then input.overlap else input.selected
  }

  /** The dictionary `_activeGrabs` and the objects as values. */
  datatype VRState = VRState(grabs: map<Actor, GrabbableObject>, objects: Objects)

  /** Every recorded grab is still held, by its own interactor. */
  predicate GrabsHeld(s: VRState) {
    forall a | a in s.grabs ::
      s.grabs[a] in s.objects.status && s.objects.status[s.grabs[a]].state == Grabbed
      && s.objects.status[s.grabs[a]].grabber == Some(a)
  }

  /** Object `o` is known and not held by `a`. */
  predicate NotHeldBy(v: Objects, a: Actor, o: GrabbableObject) {
    o in v.status && v.status[o].grabber != Some(a)
  }

  /** One interactor of `UpdateDirectGrabInteractions`: a select with no entry grabs the
      target it touches when that is eligible, a dropped select releases its entry. */
  function DirectStep(s: VRState, a: Actor, input: InteractorInput, platform: InteractionPlatform): (r: VRState)
    ensures r.objects.SameObjects(s.objects)
    ensures r.grabs.Values <= s.grabs.Values + Nullable(TargetAt(input))
  {
    if input.selectActive && a !in s.grabs then
      var t := TargetAt(input);
      if t != null && s.objects.CanGrab(t, platform, DirectHand)
      then VRState(s.grabs[a := t], s.objects.TryGrab(t, a, DirectHand, platform))
      else s
    else if !input.selectActive && a in s.grabs then
      VRState(s.grabs - {a}, s.objects.Release(s.grabs[a]))
    else s
  }

  /** One interactor of `UpdateRemoteGrabInteractions`: an interactor without an entry
      highlights an eligible hit, and tries to grab it when its select is active. */
  function RemoteStep(s: VRState, a: Actor, input: InteractorInput, platform: InteractionPlatform): (r: VRState)
    ensures r.objects.SameObjects(s.objects)
    ensures r.grabs.Values <= s.grabs.Values + Nullable(input.rayHit)
  {
    var g := input.rayHit;
    if a in s.grabs || g == null || !s.objects.CanGrab(g, platform, RemoteGrab) then s
    else
      var lit := s.objects.Highlight(g);
      if !input.selectActive then s.(objects := lit)
      else if lit.CanGrab(g, platform, RemoteGrab) then VRState(s.grabs[a := g], lit.TryGrab(g, a, RemoteGrab, platform))
      else s.(objects := lit.TryGrab(g, a, RemoteGrab, platform))
  }

  /** The direct step for every live interactor of `xs`, in order. */
  function DirectPass(s: VRState, xs: seq<Option<Actor>>, frame: Frame): (r: VRState)
    ensures r.objects.SameObjects(s.objects)
    decreases |xs|
  {
    if xs == [] then s
    else
      var prev := DirectPass(s, xs[..|xs| - 1], frame);
      match xs[|xs| - 1]
      case None => prev
      case Some(a) => DirectStep(prev, a, InteractorOf(frame, a), frame.platform)
  }

  /** The remote step for every live interactor of `xs`, in order. */
  function RemotePass(s: VRState, xs: seq<Option<Actor>>, frame: Frame): (r: VRState)
    ensures r.objects.SameObjects(s.objects)
    decreases |xs|
  {
    if xs == [] then s
    else
      var prev := RemotePass(s, xs[..|xs| - 1], frame);
      match xs[|xs| - 1]
      case None => prev
      case Some(a) => RemoteStep(prev, a, InteractorOf(frame, a), frame.platform)
  }

  /** `UpdateHandler` while enabled: the direct pass when direct grab is on, then the
      remote pass when remote grab is on. */
  function AfterFrame(s: VRState, xs: seq<Option<Actor>>, frame: Frame, direct: bool, remote: bool): (r: VRState)
    ensures r.objects.SameObjects(s.objects)
  {
    var d := if direct then DirectPass(s, xs, frame) else s;
    if remote then RemotePass(d, xs, frame) else d
  }

  // ---------------------------------------------------------------------------------------
  // What the passes do to the dictionary.

  /** The direct pass removes exactly the entries of interactors whose select dropped and
      keeps every other entry as it was. */
  lemma {:induction false} DirectPassRemovals(s: VRState, xs: seq<Option<Actor>>, frame: Frame)
    ensures var r := DirectPass(s, xs, frame);
      && (forall a | a in s.grabs && a !in r.grabs :: Some(a) in xs && !InteractorOf(frame, a).selectActive)
      && (forall a | a in s.grabs && Some(a) in xs && !InteractorOf(frame, a).selectActive :: a !in r.grabs)
      && (forall a | a in r.grabs && a in s.grabs :: r.grabs[a] == s.grabs[a])
    decreases |xs|
  {
    if xs != [] {
      var init := xs[..|xs| - 1];
      DirectPassRemovals(s, init, frame);
      DirectPassAdditions(s, init, frame);
      assert xs == init + [xs[|xs| - 1]];
    }
  }

  /** The direct pass adds entries only for active selects, each holding the interactor's
      target. */
  lemma {:induction false} DirectPassAdditions(s: VRState, xs: seq<Option<Actor>>, frame: Frame)
    ensures var r := DirectPass(s, xs, frame);
      forall a | a in r.grabs && a !in s.grabs ::
        Some(a) in xs && InteractorOf(frame, a).selectActive && r.grabs[a] == TargetAt(InteractorOf(frame, a))
    decreases |xs|
  {
    if xs != [] {
      var init := xs[..|xs| - 1];
      DirectPassAdditions(s, init, frame);
      assert xs == init + [xs[|xs| - 1]];
    }
  }

  /** The remote pass keeps every entry and adds entries only for active selects, each
      holding the interactor's ray hit. */
  lemma {:induction false} RemotePassEntries(s: VRState, xs: seq<Option<Actor>>, frame: Frame)
    ensures var r := RemotePass(s, xs, frame);
      && (forall a | a in s.grabs :: a in r.grabs && r.grabs[a] == s.grabs[a])
      && (forall a | a in r.grabs && a !in s.grabs ::
            Some(a) in xs && InteractorOf(frame, a).selectActive && r.grabs[a] == InteractorOf(frame, a).rayHit)
    decreases |xs|
  {
    if xs != [] {
      var init := xs[..|xs| - 1];
      RemotePassEntries(s, init, frame);
      assert xs == init + [xs[|xs| - 1]];
    }
  }

  /** Both steps keep every entry held by its own interactor: a new entry's object was
      just grabbed by it, a removed entry's object is released, and an eligible object is
      not Grabbed, so it is no other entry's object. */
  lemma DirectStepKeepsGrabsHeld(s: VRState, a: Actor, input: InteractorInput, platform: InteractionPlatform)
    requires GrabsHeld(s)
    ensures GrabsHeld(DirectStep(s, a, input, platform))
  {
  }

  lemma RemoteStepKeepsGrabsHeld(s: VRState, a: Actor, input: InteractorInput, platform: InteractionPlatform)
    requires GrabsHeld(s)
    ensures GrabsHeld(RemoteStep(s, a, input, platform))
  {
  }

  /** A direct step changes one object at most: the object the interactor holds, or else
      the target it touches; and a remote step only the object its ray hits. */
  lemma StepsTouchOneObject(s: VRState, a: Actor, input: InteractorInput, platform: InteractionPlatform, o: GrabbableObject)
    requires o in s.objects.status
    ensures o != (if a in s.grabs then s.grabs[a] else TargetAt(input)) ==>
              DirectStep(s, a, input, platform).objects.status[o] == s.objects.status[o]
    ensures o != input.rayHit ==> RemoteStep(s, a, input, platform).objects.status[o] == s.objects.status[o]
  {
  }

  lemma {:induction false} PassesKeepGrabsHeld(s: VRState, xs: seq<Option<Actor>>, frame: Frame)
    requires GrabsHeld(s)
    ensures GrabsHeld(DirectPass(s, xs, frame))
    ensures GrabsHeld(RemotePass(s, xs, frame))
    decreases |xs|
  {
    if xs != [] {
      var init := xs[..|xs| - 1];
      PassesKeepGrabsHeld(s, init, frame);
      if xs[|xs| - 1].Some? {
        var a := xs[|xs| - 1].value;
        DirectStepKeepsGrabsHeld(DirectPass(s, init, frame), a, InteractorOf(frame, a), frame.platform);
        RemoteStepKeepsGrabsHeld(RemotePass(s, init, frame), a, InteractorOf(frame, a), frame.platform);
      }
    }
  }

  /** An interactor whose select is not active never becomes the grabber of an object. */
  lemma StepsSpareTheIdle(s: VRState, b: Actor, input: InteractorInput, platform: InteractionPlatform,
                          a: Actor, o: GrabbableObject)
    requires b == a ==> !input.selectActive
    requires NotHeldBy(s.objects, a, o)
    ensures NotHeldBy(DirectStep(s, b, input, platform).objects, a, o)
    ensures NotHeldBy(RemoteStep(s, b, input, platform).objects, a, o)
  {
  }

  lemma {:induction false} PassesSpareTheIdle(s: VRState, xs: seq<Option<Actor>>, frame: Frame, a: Actor, o: GrabbableObject)
    requires !InteractorOf(frame, a).selectActive
    requires NotHeldBy(s.objects, a, o)
    ensures NotHeldBy(DirectPass(s, xs, frame).objects, a, o)
    ensures NotHeldBy(RemotePass(s, xs, frame).objects, a, o)
    decreases |xs|
  {
    if xs != [] {
      var init := xs[..|xs| - 1];
      PassesSpareTheIdle(s, init, frame, a, o);
      if xs[|xs| - 1].Some? {
        var b := xs[|xs| - 1].value;
        StepsSpareTheIdle(DirectPass(s, init, frame), b, InteractorOf(frame, b), frame.platform, a, o);
        StepsSpareTheIdle(RemotePass(s, init, frame), b, InteractorOf(frame, b), frame.platform, a, o);
      }
    }
  }

  /** When every entry is held, the direct pass releases the object of each entry it
      removes: that object is no longer held by the interactor. */
  lemma {:induction false} DirectPassReleases(s: VRState, xs: seq<Option<Actor>>, frame: Frame)
    requires GrabsHeld(s)
    ensures var r := DirectPass(s, xs, frame);
      forall a | a in s.grabs && a !in r.grabs :: NotHeldBy(r.objects, a, s.grabs[a])
    decreases |xs|
  {
    if xs != [] {
      var init := xs[..|xs| - 1];
      var prev := DirectPass(s, init, frame);
      DirectPassReleases(s, init, frame);
      DirectPassRemovals(s, init, frame);
      PassesKeepGrabsHeld(s, init, frame);
      if xs[|xs| - 1].Some? {
        var b := xs[|xs| - 1].value;
        var input := InteractorOf(frame, b);
        forall a | a in s.grabs && a !in prev.grabs
          ensures NotHeldBy(DirectStep(prev, b, input, frame.platform).objects, a, s.grabs[a])
        {
          StepsSpareTheIdle(prev, b, input, frame.platform, a, s.grabs[a]);
        }
      }
    }
  }

  // ---------------------------------------------------------------------------------------
  // What a frame does.

  /** How a frame changes the dictionary from `before` to `after`: it removes exactly the
      entries of interactors whose select dropped, and only when direct grab is on; it
      keeps every other entry; a new entry belongs to an active select and holds the
      interactor's direct target or, with remote grab on, its ray hit. */
  predicate EntriesFollow(before: map<Actor, GrabbableObject>, after: map<Actor, GrabbableObject>,
                          xs: seq<Option<Actor>>, frame: Frame, direct: bool, remote: bool)
  {
    && (forall a | a in before && a !in after :: direct && Some(a) in xs && !InteractorOf(frame, a).selectActive)
    && (direct ==> forall a | a in before && Some(a) in xs && !InteractorOf(frame, a).selectActive :: a !in after)
    && (forall a | a in after && a in before :: after[a] == before[a])
    && (forall a | a in after && a !in before ::
          && Some(a) in xs && InteractorOf(frame, a).selectActive
          && ((direct && after[a] == TargetAt(InteractorOf(frame, a)))
              || (remote && after[a] == InteractorOf(frame, a).rayHit)))
  }

  lemma FrameEntries(s: VRState, xs: seq<Option<Actor>>, frame: Frame, direct: bool, remote: bool)
    ensures EntriesFollow(s.grabs, AfterFrame(s, xs, frame, direct, remote).grabs, xs, frame, direct, remote)
  {
    DirectPassRemovals(s, xs, frame);
    DirectPassAdditions(s, xs, frame);
    var d := if direct then DirectPass(s, xs, frame) else s;
    RemotePassEntries(d, xs, frame);
  }

  /** A frame keeps every entry held by its own interactor, and the object of each entry it
      removes is then no longer held by that interactor (another may have grabbed it). */
  lemma FrameReleases(s: VRState, xs: seq<Option<Actor>>, frame: Frame, direct: bool, remote: bool)
    requires GrabsHeld(s)
    ensures var r := AfterFrame(s, xs, frame, direct, remote);
      && GrabsHeld(r)
      && forall a | a in s.grabs && a !in r.grabs :: NotHeldBy(r.objects, a, s.grabs[a])
  {
    PassesKeepGrabsHeld(s, xs, frame);
    var d := if direct then DirectPass(s, xs, frame) else s;
    PassesKeepGrabsHeld(d, xs, frame);
    if direct {
      DirectPassReleases(s, xs, frame);
      DirectPassRemovals(s, xs, frame);
      RemotePassEntries(d, xs, frame);
      if remote {
        forall a | a in s.grabs && a !in d.grabs
          ensures NotHeldBy(RemotePass(d, xs, frame).objects, a, s.grabs[a])
        {
          PassesSpareTheIdle(d, xs, frame, a, s.grabs[a]);
        }
      }
    } else {
      RemotePassEntries(d, xs, frame);
    }
  }

  class VRInteractionHandler {
    const enableDirectGrab: bool
    const enableRemoteGrab: bool
    var isEnabled: bool
    var interactors: seq<Option<Actor>>
    var activeGrabs: map<Actor, GrabbableObject>

    const supportedPlatform: InteractionPlatform := VR

    /** Every recorded grab is still held, by its own interactor.  Since an object records
        one grabber, no object is recorded under two interactors. */
    ghost predicate GrabsCoherent()
      reads this, activeGrabs.Values
    {
      forall a | a in activeGrabs :: activeGrabs[a].state == Grabbed && activeGrabs[a].grabber == Some(a)
    }

    /** The objects the direct pass can reach this frame. */
    function DirectTargets(frame: Frame): set<GrabbableObject>
      reads this`interactors
    {
      set o | o in interactors && o.Some? && TargetAt(InteractorOf(frame, o.value)) != null :: TargetAt(InteractorOf(frame, o.value))
    }

    /** The objects the remote pass can reach this frame. */
    function RemoteHits(frame: Frame): set<GrabbableObject>
      reads this`interactors
    {
      set o | o in interactors && o.Some? && InteractorOf(frame, o.value).rayHit != null :: InteractorOf(frame, o.value).rayHit
    }

    /** Everything a frame may change besides the handler. */
    function Reachable(frame: Frame): set<GrabbableObject>
      reads this
    {
      activeGrabs.Values + DirectTargets(frame) + RemoteHits(frame)
    }

    function State(D: set<GrabbableObject>): (s: VRState)
      reads this, D
      ensures Is(s, D)
    {
      VRState(activeGrabs, ObjectsOf(D))
    }

    /** The dictionary and the objects of `D` are now as `s` gives them. */
    ghost predicate Is(s: VRState, D: set<GrabbableObject>)
      reads this, D
    {
      activeGrabs == s.grabs && Agrees(D, s.objects)
    }

    /** `GrabsCoherent` is `GrabsHeld` of the handler's value. */
    lemma CoherentIsHeld(s: VRState, D: set<GrabbableObject>)
      requires Is(s, D) && activeGrabs.Values <= D
      ensures GrabsCoherent() <==> GrabsHeld(s)
    {
      assert forall a | a in activeGrabs :: activeGrabs[a].Status() == s.objects.status[activeGrabs[a]];
    }

    /** The state a frame leads to from `D` as it was, while enabled. */
    twostate predicate DidFrame(frame: Frame, D: set<GrabbableObject>)
      reads this, D
    {
      Is(AfterFrame(old(State(D)), interactors, frame, enableDirectGrab, enableRemoteGrab), D)
    }

    constructor (enableDirectGrab: bool, enableRemoteGrab: bool)
      ensures this.enableDirectGrab == enableDirectGrab && this.enableRemoteGrab == enableRemoteGrab
      ensures !isEnabled && interactors == [] && activeGrabs == map[]
      ensures GrabsCoherent()
    {
      this.enableDirectGrab := enableDirectGrab;
      this.enableRemoteGrab := enableRemoteGrab;
      isEnabled := false;
      interactors := [];
      activeGrabs := map[];
    }

    /** `Initialize`: the interactors are looked up in the scene. */
    method Initialize(scene: Scene)
      modifies this`interactors
      ensures interactors == scene.interactors
    {
      interactors := scene.interactors;
    }

    method Enable()
      modifies this`isEnabled
      ensures isEnabled
    {
      isEnabled := true;
    }

    /** `Disable`, with `ReleaseAllGrabs`: every held object is released and the dictionary
        is emptied.  The source releases per entry; releasing an object a second time
        changes nothing (`ReleaseIsIdempotent`), so releasing each held object once is the
        same. */
    method Disable()
      modifies this`isEnabled, this`activeGrabs, activeGrabs.Values
      ensures !isEnabled && activeGrabs == map[]
      ensures forall o | o in old(activeGrabs.Values) ::
                o.Status() == AfterRelease(o.freezeRotationWhenGrabbed, old(o.Status()))
      ensures LetGo(old(activeGrabs.Values)) && NoNewGrabs(old(activeGrabs.Values))
      ensures GrabsCoherent()
    {
      isEnabled := false;
      var todo := activeGrabs.Values;
      while todo != {}
        invariant todo <= old(activeGrabs.Values) && activeGrabs == old(activeGrabs) && !isEnabled
        invariant forall o | o in old(activeGrabs.Values) :: o.Settings() == old(o.Settings())
        invariant forall o | o in old(activeGrabs.Values) && o !in todo ::
                    o.Status() == AfterRelease(o.freezeRotationWhenGrabbed, old(o.Status()))
        invariant forall o | o in todo :: o.Status() == old(o.Status())
        decreases todo
      {
        var o :| o in todo;
        o.Release();
        todo := todo - {o};
      }
      activeGrabs := map[];
    }

    /** The interactors whose entry holds `g`. */
    method InteractorsHolding(g: GrabbableObject?) returns (keys: set<Actor>)
      ensures keys == set a | a in activeGrabs && activeGrabs[a] == g
    {
      keys := {};
      var rest := activeGrabs.Keys;
      while rest != {}
        invariant rest <= activeGrabs.Keys
        invariant keys == set a | a in activeGrabs.Keys - rest && activeGrabs[a] == g
        decreases rest
      {
        var a :| a in rest;
        if activeGrabs[a] == g {
          keys := keys + {a};
        }
        rest := rest - {a};
      }
    }

    /** `OnObjectUnregistered`: drop every entry holding `g`, without releasing it. */
    method OnObjectUnregistered(g: GrabbableObject?)
      modifies this`activeGrabs
      ensures g !in activeGrabs.Values && activeGrabs.Values == old(activeGrabs.Values) - Nullable(g)
      ensures activeGrabs.Keys <= old(activeGrabs.Keys)
      ensures forall a | a in old(activeGrabs) ::
                if old(activeGrabs)[a] == g then a !in activeGrabs
                else a in activeGrabs && activeGrabs[a] == old(activeGrabs)[a]
      ensures old(GrabsCoherent()) ==> GrabsCoherent()
    {
      var grabsToRemove := InteractorsHolding(g);
      ghost var before := activeGrabs;
      activeGrabs := activeGrabs - grabsToRemove;
      forall o | o in before.Values - Nullable(g)
        ensures o in activeGrabs.Values
      {
        var a :| a in before && before[a] == o;
        assert activeGrabs[a] == o;
      }
    }

    /** One interactor of `UpdateDirectGrabInteractions`, as `DirectStep`. */
    method DirectGrabStep(a: Actor, input: InteractorInput, platform: InteractionPlatform,
                          ghost D: set<GrabbableObject>, ghost s: VRState)
      requires Is(s, D) && s.grabs.Values <= D && Nullable(TargetAt(input)) <= D
      modifies this`activeGrabs, D
      ensures Is(DirectStep(s, a, input, platform), D)
    {
      if input.selectActive && a !in activeGrabs {
        var target := TargetAt(input);
        if target != null {
          var eligible := CanBeGrabbedIn(target, DirectHand, platform, D, s.objects);
          if eligible {
            var ok := TryGrabIn(target, a, DirectHand, platform, D, s.objects);
            if ok {
              activeGrabs := activeGrabs[a := target];
            }
          }
        }
      } else if !input.selectActive && a in activeGrabs {
        var held := activeGrabs[a];
        ReleaseIn(held, D, s.objects);
        activeGrabs := activeGrabs - {a};
      }
    }

    /** One interactor of `UpdateRemoteGrabInteractions`, as `RemoteStep`. */
    method RemoteGrabStep(a: Actor, input: InteractorInput, platform: InteractionPlatform,
                          ghost D: set<GrabbableObject>, ghost s: VRState)
      requires Is(s, D) && s.grabs.Values <= D && Nullable(input.rayHit) <= D
      modifies this`activeGrabs, D
      ensures Is(RemoteStep(s, a, input, platform), D)
    {
      if a in activeGrabs {
        return;
      }
      var grabbable := input.rayHit;
      if grabbable != null {
        var eligible := CanBeGrabbedIn(grabbable, RemoteGrab, platform, D, s.objects);
        if eligible {
          HighlightIn(grabbable, D, s.objects);
          if input.selectActive {
            ghost var lit := s.objects.Highlight(grabbable);
            var ok := TryGrabIn(grabbable, a, RemoteGrab, platform, D, lit);
            if ok {
              activeGrabs := activeGrabs[a := grabbable];
            }
          }
        }
      }
    }

    /** `UpdateDirectGrabInteractions`: the direct step for every live interactor, in
        order, when direct grab is on. */
    method UpdateDirectGrabInteractions(frame: Frame, ghost D: set<GrabbableObject>, ghost s: VRState)
      requires Is(s, D) && s.grabs.Values <= D && DirectTargets(frame) <= D
      modifies this`activeGrabs, D
      ensures Is(if enableDirectGrab then DirectPass(s, interactors, frame) else s, D)
      ensures activeGrabs.Values <= D
    {
      if !enableDirectGrab {
        return;
      }
      var i := 0;
      while i < |interactors|
        invariant 0 <= i <= |interactors|
        invariant Is(DirectPass(s, interactors[..i], frame), D) && activeGrabs.Values <= D
      {
        ghost var before := DirectPass(s, interactors[..i], frame);
        assert interactors[..i + 1][..i] == interactors[..i];
        var entry := interactors[i];
        if entry.Some? {
          var a := entry.value;
          var input := InteractorOf(frame, a);
          assert TargetAt(input) != null ==> TargetAt(input) in DirectTargets(frame);
          DirectGrabStep(a, input, frame.platform, D, before);
        }
        i := i + 1;
      }
      assert interactors[..i] == interactors;
    }

    /** `UpdateRemoteGrabInteractions`: the remote step for every live interactor, in order. */
    method UpdateRemoteGrabInteractions(frame: Frame, ghost D: set<GrabbableObject>, ghost s: VRState)
      requires Is(s, D) && s.grabs.Values <= D && RemoteHits(frame) <= D
      modifies this`activeGrabs, D
      ensures Is(RemotePass(s, interactors, frame), D)
      ensures activeGrabs.Values <= D
    {
      var i := 0;
      while i < |interactors|
        invariant 0 <= i <= |interactors|
        invariant Is(RemotePass(s, interactors[..i], frame), D) && activeGrabs.Values <= D
      {
        ghost var before := RemotePass(s, interactors[..i], frame);
        assert interactors[..i + 1][..i] == interactors[..i];
        var entry := interactors[i];
        if entry.Some? {
          var a := entry.value;
          var input := InteractorOf(frame, a);
          assert input.rayHit != null ==> input.rayHit in RemoteHits(frame);
          RemoteGrabStep(a, input, frame.platform, D, before);
        }
        i := i + 1;
      }
      assert interactors[..i] == interactors;
    }

    /** The two passes of an enabled frame, as `AfterFrame`. */
    method RunPasses(frame: Frame, ghost D: set<GrabbableObject>, ghost s: VRState)
      requires Is(s, D) && s.grabs.Values <= D && DirectTargets(frame) <= D && RemoteHits(frame) <= D
      modifies this`activeGrabs, D
      ensures Is(AfterFrame(s, interactors, frame, enableDirectGrab, enableRemoteGrab), D)
      ensures activeGrabs.Values <= D
    {
      UpdateDirectGrabInteractions(frame, D, s);
      ghost var direct := if enableDirectGrab then DirectPass(s, interactors, frame) else s;
      if enableRemoteGrab {
        UpdateRemoteGrabInteractions(frame, D, direct);
      }
    }

    /** `UpdateHandler`: nothing while disabled; else the direct pass, then the remote pass
        when remote grab is on.  What that does to the dictionary and to the objects held
        follows from `FrameEntries` and `FrameReleases`: an entry is removed only for a
        dropped select, and its object is released. */
    method UpdateHandler(frame: Frame)
      modifies this`activeGrabs, Reachable(frame)
      ensures !old(isEnabled) ==> unchanged(this) && unchanged(old(Reachable(frame)))
      ensures isEnabled == old(isEnabled) && interactors == old(interactors)
      ensures old(isEnabled) ==> DidFrame(frame, old(Reachable(frame)))
      ensures old(isEnabled) ==> EntriesFollow(old(activeGrabs), activeGrabs, interactors, frame, enableDirectGrab, enableRemoteGrab)
      ensures old(GrabsCoherent()) ==> GrabsCoherent()
      ensures old(GrabsCoherent()) ==>
                forall a | a in old(activeGrabs) && a !in activeGrabs :: old(activeGrabs)[a].grabber != Some(a)
    {
      if !isEnabled {
        return;
      }
      RunFrame(frame);
    }

    /** An enabled frame of `UpdateHandler`. */
    method RunFrame(frame: Frame)
      modifies this`activeGrabs, Reachable(frame)
      ensures DidFrame(frame, old(Reachable(frame)))
      ensures EntriesFollow(old(activeGrabs), activeGrabs, interactors, frame, enableDirectGrab, enableRemoteGrab)
      ensures old(GrabsCoherent()) ==> GrabsCoherent()
      ensures old(GrabsCoherent()) ==>
                forall a | a in old(activeGrabs) && a !in activeGrabs :: old(activeGrabs)[a].grabber != Some(a)
    {
      ghost var D := Reachable(frame);
      ghost var s := State(D);
      CoherentIsHeld(s, D);
      RunPasses(frame, D, s);
      FrameEntries(s, interactors, frame, enableDirectGrab, enableRemoteGrab);
      FrameInHeap(frame, D, s);
    }

    /** `FrameReleases` in terms of the objects themselves, once a frame has run from `s`. */
    lemma FrameInHeap(frame: Frame, D: set<GrabbableObject>, s: VRState)
      requires Is(AfterFrame(s, interactors, frame, enableDirectGrab, enableRemoteGrab), D)
      requires s.grabs.Values <= D && activeGrabs.Values <= D
      ensures GrabsHeld(s) ==> GrabsCoherent()
      ensures GrabsHeld(s) ==> forall a | a in s.grabs && a !in activeGrabs :: s.grabs[a].grabber != Some(a)
    {
      var r := AfterFrame(s, interactors, frame, enableDirectGrab, enableRemoteGrab);
      CoherentIsHeld(r, D);
      if GrabsHeld(s) {
        FrameReleases(s, interactors, frame, enableDirectGrab, enableRemoteGrab);
        assert forall a | a in s.grabs && a !in r.grabs :: s.grabs[a].Status() == r.objects.status[s.grabs[a]];
      }
    }
  }
}
