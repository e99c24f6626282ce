/**
  The dispatcher (Core/InteractionManager.cs): the registry of grabbable objects, the
  platform-to-handler table, the one active handler, and the registry queries.

  The manager is constructed explicitly with the handler components it was given in the
  scene (any may be absent), the scene that handlers are initialised from, and the build
  configuration of handlers it creates itself.  Distances from the query point are the
  parameter `distance`, standing for `GetDistanceFromPoint(position)`.
*/
module Manager {
  import opened Wrappers
  import opened InteractionTypes
  import opened PlatformDetection
  import opened Grabbables
  import opened FrameInputs
  import opened Handlers
  import VRHandling
  import MobileHandling
  import WebHandling

  // ---------------------------------------------------------------------------------------
  // The registry as a list.

  /** `RegisterGrabbableObject` on the list: append when absent. */
  function WithRegistered(s: seq<GrabbableObject?>, g: GrabbableObject?): (r: seq<GrabbableObject?>)
    ensures g in r && |r| == if g in s then |s| else |s| + 1
    ensures g in s ==> r == s
    ensures forall o | o in s :: o in r
    ensures forall i | 0 <= i < |r| :: r[i] in s || r[i] == g
    ensures r[..|s|] == s
    ensures Distinct(s) ==> Distinct(r)
  {
    if g in s then s else s + [g]
  }

  /** `List.Remove`: drop the first occurrence, if any. */
  function RemoveFirst(s: seq<GrabbableObject?>, g: GrabbableObject?): (r: seq<GrabbableObject?>)
    ensures g !in s ==> r == s
    ensures g in s ==> |r| == |s| - 1
    ensures multiset(r) == multiset(s) - multiset{g}
    decreases |s|
  {
    if |s| == 0 then s
    else
      assert s == [s[0]] + s[1..];
      if s[0] == g then s[1..] else [s[0]] + RemoveFirst(s[1..], g)
  }

  /** A list without duplicates stays so with a new element in front. */
  lemma ConsKeepsDistinct(x: GrabbableObject?, s: seq<GrabbableObject?>)
    requires Distinct(s) && x !in s
    ensures Distinct([x] + s)
  {
    var r := [x] + s;
    forall i, j | 0 <= i < j < |r| ensures r[i] != r[j] {
      assert r[j] == s[j - 1];
      if i > 0 {
        assert r[i] == s[i - 1];
      }
    }
  }

  /** The tail of a list without duplicates has none and lacks the head. */
  lemma TailOfDistinct(s: seq<GrabbableObject?>)
    requires Distinct(s) && |s| > 0
    ensures Distinct(s[1..]) && s[0] !in s[1..]
  {
    var t := s[1..];
    forall j | 0 <= j < |t| ensures t[j] != s[0] {
      assert t[j] == s[j + 1];
    }
    forall i, j | 0 <= i < j < |t| ensures t[i] != t[j] {
      assert t[i] == s[i + 1] && t[j] == s[j + 1];
    }
  }

  /** Removal keeps the registry free of duplicates, and then removes every occurrence. */
  lemma {:induction false} RemoveFirstKeepsDistinct(s: seq<GrabbableObject?>, g: GrabbableObject?)
    requires Distinct(s)
    ensures Distinct(RemoveFirst(s, g)) && g !in RemoveFirst(s, g)
    decreases |s|
  {
    if |s| > 0 {
      TailOfDistinct(s);
      if s[0] != g {
        RemoveFirstKeepsDistinct(s[1..], g);
        var rest := RemoveFirst(s[1..], g);
        assert s[0] !in rest by {
          assert multiset(rest)[s[0]] <= multiset(s[1..])[s[0]] == 0;
        }
        ConsKeepsDistinct(s[0], rest);
      }
    }
  }

  /** Removing an element appended to a list that lacked it gives the list back. */
  lemma {:induction false} RemoveFirstOfAppended(s: seq<GrabbableObject?>, g: GrabbableObject?)
    requires g !in s
    ensures RemoveFirst(s + [g], g) == s
    decreases |s|
  {
    var u := s + [g];
    if |s| == 0 {
      assert u[1..] == [];
    } else {
      assert u[0] == s[0] && u[1..] == s[1..] + [g];
      RemoveFirstOfAppended(s[1..], g);
      assert s == [s[0]] + s[1..];
    }
  }

  /** Unregistering what was just registered restores a list that lacked it. */
  lemma UnregisterUndoesRegister(s: seq<GrabbableObject?>, g: GrabbableObject?)
    requires g !in s
    ensures RemoveFirst(WithRegistered(s, g), g) == s
  {
    RemoveFirstOfAppended(s, g);
  }

  // ---------------------------------------------------------------------------------------
  // The range query.

  /** Whether `GetGrabbableObjectsInRange` keeps `o`. */
  predicate InRange(o: GrabbableObject?, distance: GrabbableObject -> real, range: real) {
    o != null && o.IsWithinGrabRange(distance(o)) && distance(o) <= range
  }

  /** The in-range objects of a list, in list order. */
  function ObjectsInRange(s: seq<GrabbableObject?>, distance: GrabbableObject -> real, range: real): (r: seq<GrabbableObject>)
    ensures forall o | o in s && InRange(o, distance, range) :: o in r
    ensures forall i | 0 <= i < |r| :: r[i] in s && InRange(r[i], distance, range)
    ensures |r| <= |s|
    decreases |s|
  {
    if |s| == 0 then []
    else
      var rest := ObjectsInRange(s[..|s| - 1], distance, range);
      assert s == s[..|s| - 1] + [s[|s| - 1]];
      if InRange(s[|s| - 1], distance, range) then rest + [s[|s| - 1]] else rest
  }

  /** The query distributes over concatenation, so the result keeps registration order. */
  lemma {:induction false} ObjectsInRangeOfConcat(a: seq<GrabbableObject?>, b: seq<GrabbableObject?>,
                                                 distance: GrabbableObject -> real, range: real)
    ensures ObjectsInRange(a + b, distance, range) == ObjectsInRange(a, distance, range) + ObjectsInRange(b, distance, range)
    decreases |b|
  {
    if |b| == 0 {
      assert a + b == a;
    } else {
      var b' := b[..|b| - 1];
      assert (a + b)[..|a + b| - 1] == a + b';
      ObjectsInRangeOfConcat(a, b', distance, range);
    }
  }

  /** The candidates of `FindClosestGrabbableObject`. */
  predicate Candidate(o: GrabbableObject?, distance: GrabbableObject -> real, maxRange: real)
    reads if o == null then {} else {o}
  {
    o != null && o.isGrabbable && distance(o) < maxRange
  }

  // ---------------------------------------------------------------------------------------

  /** A handler reference points to one of the given handlers. */
  predicate Among(h: HandlerRef, vr: VRHandling.VRInteractionHandler?, mobile: MobileHandling.MobileInteractionHandler?,
                  web: WebHandling.WebInteractionHandler?)
  {
    match h
    case VRRef(v) => v == vr
    case MobileRef(m) => m == mobile
    case WebRef(w) => w == web
  }

  /** The table `SetupPlatformHandlers` builds from the handlers it ends up with: each
      present handler under its own platform, and under Desktop the web handler when the
      current platform is Desktop. */
  function HandlerTable(vr: VRHandling.VRInteractionHandler?, mobile: MobileHandling.MobileInteractionHandler?,
                        web: WebHandling.WebInteractionHandler?, platform: InteractionPlatform): map<InteractionPlatform, HandlerRef>
  {
    var withVR: map<InteractionPlatform, HandlerRef> := if vr == null then map[] else map[VR := VRRef(vr)];
    var withMobile := if mobile == null then withVR else withVR[Mobile := MobileRef(mobile)];
    var withWeb := if web == null then withMobile else withMobile[Web := WebRef(web)];
    if platform == Desktop && Web in withWeb then withWeb[Desktop := withWeb[Web]] else withWeb
  }

  /** The keys and entries of the table: a platform is a key exactly when its handler
      exists, Desktop exactly when it is current and there is a web handler to share. */
  lemma HandlerTableEntries(vr: VRHandling.VRInteractionHandler?, mobile: MobileHandling.MobileInteractionHandler?,
                            web: WebHandling.WebInteractionHandler?, platform: InteractionPlatform)
    ensures var t := HandlerTable(vr, mobile, web, platform);
      && t.Keys <= {VR, Mobile, Web, Desktop}
      && (VR in t <==> vr != null) && (vr != null ==> t[VR] == VRRef(vr))
      && (Mobile in t <==> mobile != null) && (mobile != null ==> t[Mobile] == MobileRef(mobile))
      && (Web in t <==> web != null) && (web != null ==> t[Web] == WebRef(web))
      && (Desktop in t <==> platform == Desktop && web != null) && (Desktop in t ==> t[Desktop] == WebRef(web))
      && forall p | p in t :: Among(t[p], vr, mobile, web)
  {
    assert VR != Mobile && VR != Web && VR != Desktop && Mobile != Web && Mobile != Desktop && Web != Desktop;
  }

  /** A registration callback delivered to a handler. */
  datatype Notice = Registered(object: GrabbableObject?) | Unregistered(object: GrabbableObject?)

  class InteractionManager {
    var vrHandler: VRHandling.VRInteractionHandler?
    var mobileHandler: MobileHandling.MobileInteractionHandler?
    var webHandler: WebHandling.WebInteractionHandler?
    /** What handler initialisation finds in the scene. */
    const scene: Scene
    /** The build configuration compiled into a mobile handler the manager creates. */
    const touchCompiled: bool
    const mouseCompiled: bool

    var registered: seq<GrabbableObject?>
    var handlers: map<InteractionPlatform, HandlerRef>
    var activeHandler: Option<HandlerRef>
    var currentPlatform: InteractionPlatform
    /** Every registration callback delivered, with the handler it went to. */
    ghost var notices: seq<(HandlerRef, Notice)>

    function HandlerObjects(): set<object>
      reads this`vrHandler, this`mobileHandler, this`webHandler
    {
      (if vrHandler == null then {} else {vrHandler})
      + (if mobileHandler == null then {} else {mobileHandler})
      + (if webHandler == null then {} else {webHandler})
    }

    /** The handler a reference points to is one of the manager's own. */
    predicate Owns(h: HandlerRef)
      reads this`vrHandler, this`mobileHandler, this`webHandler
    {
      Among(h, vrHandler, mobileHandler, webHandler)
    }

    /** The active handler's object, if any. */
    function ActiveObjects(): set<object>
      reads this`activeHandler
    {
      if activeHandler.Some? then {HandlerObject(activeHandler.value)} else {}
    }

    /** The object of the handler the table has for `p`, if any. */
    function TableObjects(p: InteractionPlatform): set<object>
      reads this`handlers
    {
      if p in handlers then {HandlerObject(handlers[p])} else {}
    }

    /** The VR handler's object, if any: what setting up may change of the handlers. */
    function VRObjects(): set<object>
      reads this`vrHandler
    {
      if vrHandler == null then {} else {vrHandler}
    }

    /** The handler already assigned that setting up for `p` makes active, if any. */
    function AssignedTarget(p: InteractionPlatform): set<object>
      reads this`vrHandler, this`mobileHandler, this`webHandler
    {
      var table := HandlerTable(vrHandler, mobileHandler, webHandler, p);
      if p in table then {HandlerObject(table[p])} else {}
    }

    /** Every object the active handler keeps track of: what disabling it may touch. */
    function ActiveTracked(): set<GrabbableObject>
      reads this`activeHandler, ActiveObjects()
    {
      if activeHandler.Some? then Tracked(activeHandler.value) else {}
    }

    /** The handlers the manager holds keep their own invariants. */
    ghost predicate HandlersValid()
      reads this`mobileHandler, this`webHandler, mobileHandler, webHandler
    {
      && (mobileHandler != null ==> mobileHandler.Valid())
      && (webHandler != null ==> webHandler.Valid())
    }

    /** The table and the active handler refer only to the manager's own handlers. */
    predicate TableOwned()
      reads this`handlers, this`activeHandler, this`vrHandler, this`mobileHandler, this`webHandler
    {
      && (forall p | p in handlers :: Owns(handlers[p]))
      && (activeHandler.Some? ==> Owns(activeHandler.value))
    }

    ghost predicate Valid()
      reads this`vrHandler, this`mobileHandler, this`webHandler, this`handlers, this`activeHandler, this`registered,
            HandlerObjects()
    {
      HandlersValid() && TableOwned() && Distinct(registered)
    }

    constructor (vrHandler: VRHandling.VRInteractionHandler?, mobileHandler: MobileHandling.MobileInteractionHandler?,
                 webHandler: WebHandling.WebInteractionHandler?, scene: Scene, touchCompiled: bool, mouseCompiled: bool)
      requires mobileHandler != null ==> mobileHandler.Valid()
      requires webHandler != null ==> webHandler.Valid()
      ensures this.vrHandler == vrHandler && this.mobileHandler == mobileHandler && this.webHandler == webHandler
      ensures this.scene == scene && this.touchCompiled == touchCompiled && this.mouseCompiled == mouseCompiled
      ensures registered == [] && handlers == map[] && activeHandler == None && currentPlatform == NoPlatform
      ensures notices == []
      ensures Valid()
    {
      this.vrHandler := vrHandler;
      this.mobileHandler := mobileHandler;
      this.webHandler := webHandler;
      this.scene := scene;
      this.touchCompiled := touchCompiled;
      this.mouseCompiled := mouseCompiled;
      registered := [];
      handlers := map[];
      activeHandler := None;
      currentPlatform := NoPlatform;
      notices := [];
    }

    /** `RegisterGrabbableObject`: add when absent and tell the active handler, once. */
    method RegisterGrabbableObject(g: GrabbableObject?)
      requires Valid()
      modifies this`registered, this`notices
      ensures registered == WithRegistered(old(registered), g)
      ensures notices == old(notices) + if g !in old(registered) && activeHandler.Some?
                                        then [(activeHandler.value, Registered(g))] else []
      ensures Valid()
    {
      if g !in registered {
        registered := registered + [g];
        if activeHandler.Some? {
          Handlers.OnObjectRegistered(activeHandler.value, g);
          notices := notices + [(activeHandler.value, Registered(g))];
        }
      }
    }

    /** `UnregisterGrabbableObject`: remove when present and tell the active handler, once. */
    method UnregisterGrabbableObject(g: GrabbableObject?)
      requires Valid()
      modifies this`registered, this`notices, ActiveObjects()
      ensures registered == RemoveFirst(old(registered), g) && g !in registered
      ensures notices == old(notices) + if g in old(registered) && activeHandler.Some?
                                        then [(activeHandler.value, Unregistered(g))] else []
      ensures g in old(registered) && activeHandler.Some? && g != null ==> g !in Tracked(activeHandler.value)
      ensures g in old(registered) && activeHandler.Some? ==>
                && PointerOf(activeHandler.value) == old(PointerOf(activeHandler.value))
                && ReferencesOf(activeHandler.value) == Forget(old(ReferencesOf(activeHandler.value)), g)
      ensures g !in old(registered) ==> unchanged(HandlerObjects())
      ensures unchanged(HandlerObjects() - ActiveObjects())
      ensures handlers == old(handlers) && activeHandler == old(activeHandler) && currentPlatform == old(currentPlatform)
      ensures vrHandler == old(vrHandler) && mobileHandler == old(mobileHandler) && webHandler == old(webHandler)
      ensures activeHandler.Some? ==> IsEnabled(activeHandler.value) == old(IsEnabled(activeHandler.value))
      ensures Valid()
    {
      if g !in registered {
        return;
      }
      RemoveFirstKeepsDistinct(registered, g);
      registered := RemoveFirst(registered, g);
      if activeHandler.Some? {
        Handlers.OnObjectUnregistered(activeHandler.value, g);
        notices := notices + [(activeHandler.value, Unregistered(g))];
      }
    }

    /** `GetRegisteredObjects`: a copy of the registry, which is a value here. */
    method GetRegisteredObjects() returns (objects: seq<GrabbableObject?>)
      ensures objects == registered
    {
      objects := registered;
    }

    /** `GetGrabbableObjectsInRange`. */
    method GetGrabbableObjectsInRange(distance: GrabbableObject -> real, range: real) returns (objects: seq<GrabbableObject>)
      ensures objects == ObjectsInRange(registered, distance, range)
    {
      objects := [];
      var i := 0;
      while i < |registered|
        invariant 0 <= i <= |registered|
        invariant objects == ObjectsInRange(registered[..i], distance, range)
      {
        var obj := registered[i];
        assert registered[..i + 1][..i] == registered[..i];
        if obj != null && obj.IsWithinGrabRange(distance(obj)) && distance(obj) <= range {
          objects := objects + [obj];
        }
        i := i + 1;
      }
      assert registered[..i] == registered;
    }

    /** `FindClosestGrabbableObject`: the grabbable-enabled registered object nearest the
        point, strictly inside `maxRange`; of equally near ones the earliest registered. */
    method FindClosestGrabbableObject(distance: GrabbableObject -> real, maxRange: real) returns (closest: GrabbableObject?)
      ensures closest == null <==> forall o | o in registered :: !Candidate(o, distance, maxRange)
      ensures closest != null ==>
                && closest in registered && Candidate(closest, distance, maxRange)
                && forall o | o in registered && Candidate(o, distance, maxRange) :: distance(closest) <= distance(o)
      ensures closest != null ==>
                exists k | 0 <= k < |registered| && registered[k] == closest ::
                  forall j | 0 <= j < k && Candidate(registered[j], distance, maxRange) ::
                    distance(closest) < distance(registered[j])
    {
      closest := null;
      var closestDistance := maxRange;
      ghost var at := 0;
      var i := 0;
      while i < |registered|
        invariant 0 <= i <= |registered|
        invariant closest == null <==> forall j | 0 <= j < i :: !Candidate(registered[j], distance, maxRange)
        invariant closest != null ==>
                    && 0 <= at < i && registered[at] == closest && Candidate(closest, distance, maxRange)
                    && closestDistance == distance(closest)
        invariant closest == null ==> closestDistance == maxRange
        invariant forall j | 0 <= j < i && Candidate(registered[j], distance, maxRange) :: closestDistance <= distance(registered[j])
        invariant closest != null ==>
                    forall j | 0 <= j < at && Candidate(registered[j], distance, maxRange) :: closestDistance < distance(registered[j])
      {
        var obj := registered[i];
        if obj != null && obj.isGrabbable {
          var d := distance(obj);
          if d < closestDistance {
            closest := obj;
            closestDistance := d;
            at := i;
          }
        }
        i := i + 1;
      }
      if closest != null {
        assert registered[at] == closest;
      }
    }

    /** The VR part of `SetupPlatformHandlers`: initialise the assigned handler, or create
        one when the current platform is VR. */
    method SetupVRHandler()
      requires Valid()
      modifies this`vrHandler, if vrHandler == null then {} else {vrHandler}
      ensures old(vrHandler) != null ==>
                && vrHandler == old(vrHandler)
                && vrHandler.activeGrabs == old(vrHandler.activeGrabs) && vrHandler.isEnabled == old(vrHandler.isEnabled)
      ensures old(vrHandler) == null ==>
                if currentPlatform == VR
                then fresh(vrHandler) && vrHandler.enableDirectGrab && vrHandler.enableRemoteGrab && !vrHandler.isEnabled
                     && vrHandler.activeGrabs == map[]
                else vrHandler == null
      ensures vrHandler != null ==> vrHandler.interactors == scene.interactors
      ensures vrHandler != null <==> old(vrHandler) != null || currentPlatform == VR
      ensures mobileHandler == old(mobileHandler) && webHandler == old(webHandler)
      ensures ActiveTracked() == old(ActiveTracked())
      ensures activeHandler.Some? ==> ReferencesOf(activeHandler.value) == old(ReferencesOf(activeHandler.value))
      ensures Valid()
    {
      if vrHandler != null {
        vrHandler.Initialize(scene);
      } else if currentPlatform == VR {
        vrHandler := new VRHandling.VRInteractionHandler(true, true);
        vrHandler.Initialize(scene);
      }
    }

    /** The mobile part of `SetupPlatformHandlers`: keep the assigned handler, or create
        one when the current platform is Mobile.  `Initialize` of a mobile handler only
        looks up the camera, which the model fixes when the handler is created. */
    method SetupMobileHandler()
      requires Valid()
      modifies this`mobileHandler
      ensures old(mobileHandler) != null ==> mobileHandler == old(mobileHandler)
      ensures old(mobileHandler) == null ==>
                if currentPlatform == Mobile
                then fresh(mobileHandler) && DefaultMobile(mobileHandler) && mobileHandler.Valid()
                     && !mobileHandler.isEnabled && mobileHandler.Tracked() == {}
                else mobileHandler == null
      ensures mobileHandler != null <==> old(mobileHandler) != null || currentPlatform == Mobile
      ensures vrHandler == old(vrHandler) && webHandler == old(webHandler)
      ensures ActiveTracked() == old(ActiveTracked())
      ensures activeHandler.Some? ==> ReferencesOf(activeHandler.value) == old(ReferencesOf(activeHandler.value))
      ensures Valid()
    {
      if mobileHandler == null && currentPlatform == Mobile {
        mobileHandler := new MobileHandling.MobileInteractionHandler(true, true, true, 0.3, 10.0, 2.0,
                                                                     touchCompiled, mouseCompiled, scene.camera);
      }
    }

    /** The web part of `SetupPlatformHandlers`: keep the assigned handler, or create one
        when the current platform is Web.  `Initialize` of a web handler only looks up the
        camera, which the model fixes when the handler is created. */
    method SetupWebHandler()
      requires Valid()
      modifies this`webHandler
      ensures old(webHandler) != null ==> webHandler == old(webHandler)
      ensures old(webHandler) == null ==>
                if currentPlatform == Web
                then fresh(webHandler) && DefaultWeb(webHandler) && webHandler.Valid()
                     && !webHandler.isEnabled && webHandler.Tracked() == {}
                else webHandler == null
      ensures webHandler != null <==> old(webHandler) != null || currentPlatform == Web
      ensures vrHandler == old(vrHandler) && mobileHandler == old(mobileHandler)
      ensures ActiveTracked() == old(ActiveTracked())
      ensures activeHandler.Some? ==> ReferencesOf(activeHandler.value) == old(ReferencesOf(activeHandler.value))
      ensures Valid()
    {
      if webHandler == null && currentPlatform == Web {
        webHandler := new WebHandling.WebInteractionHandler(true, true, 0.3, 5.0, scene.camera);
      }
    }

    /** `SetupPlatformHandlers`: set up the handler of each platform (creating the missing
        one of the current platform), then rebuild the table from empty as `HandlerTable`
        describes it. */
    method SetupPlatformHandlers()
      requires Valid()
      modifies this`handlers, this`vrHandler, this`mobileHandler, this`webHandler, VRObjects()
      ensures handlers == HandlerTable(vrHandler, mobileHandler, webHandler, currentPlatform)
      ensures vrHandler != null <==> old(vrHandler) != null || currentPlatform == VR
      ensures mobileHandler != null <==> old(mobileHandler) != null || currentPlatform == Mobile
      ensures webHandler != null <==> old(webHandler) != null || currentPlatform == Web
      ensures old(vrHandler) != null ==>
                && vrHandler == old(vrHandler)
                && vrHandler.activeGrabs == old(vrHandler.activeGrabs) && vrHandler.isEnabled == old(vrHandler.isEnabled)
      ensures old(vrHandler) == null && vrHandler != null ==>
                && fresh(vrHandler) && vrHandler.enableDirectGrab && vrHandler.enableRemoteGrab
                && !vrHandler.isEnabled && vrHandler.activeGrabs == map[]
      ensures vrHandler != null ==> vrHandler.interactors == scene.interactors
      ensures old(mobileHandler) != null ==> mobileHandler == old(mobileHandler) && unchanged(mobileHandler)
      ensures old(mobileHandler) == null && mobileHandler != null ==>
                && fresh(mobileHandler) && DefaultMobile(mobileHandler) && mobileHandler.Valid()
                && !mobileHandler.isEnabled && mobileHandler.Tracked() == {}
      ensures old(webHandler) != null ==> webHandler == old(webHandler) && unchanged(webHandler)
      ensures old(webHandler) == null && webHandler != null ==>
                && fresh(webHandler) && DefaultWeb(webHandler) && webHandler.Valid()
                && !webHandler.isEnabled && webHandler.Tracked() == {}
      ensures currentPlatform in handlers <==> IsSinglePlatform(currentPlatform) && (currentPlatform == Desktop ==> webHandler != null)
      ensures fresh(HandlerObjects() - old(HandlerObjects()))
      ensures ActiveTracked() == old(ActiveTracked())
      ensures activeHandler.Some? ==> ReferencesOf(activeHandler.value) == old(ReferencesOf(activeHandler.value))
      ensures Valid()
    {
      SetupVRHandler();
      SetupMobileHandler();
      SetupWebHandler();
      RebuildTable();
      HandlerTableEntries(vrHandler, mobileHandler, webHandler, currentPlatform);
    }

    /** The table part of `SetupPlatformHandlers`: cleared, then refilled from the handlers. */
    method RebuildTable()
      requires Valid()
      modifies this`handlers
      ensures handlers == HandlerTable(vrHandler, mobileHandler, webHandler, currentPlatform)
      ensures vrHandler == old(vrHandler) && mobileHandler == old(mobileHandler) && webHandler == old(webHandler)
      ensures ActiveTracked() == old(ActiveTracked())
      ensures activeHandler.Some? ==> ReferencesOf(activeHandler.value) == old(ReferencesOf(activeHandler.value))
      ensures Valid()
    {
      handlers := HandlerTable(vrHandler, mobileHandler, webHandler, currentPlatform);
      HandlerTableEntries(vrHandler, mobileHandler, webHandler, currentPlatform);
    }

    /** The settings a created mobile handler has. */
    predicate DefaultMobile(m: MobileHandling.MobileInteractionHandler)
      reads this
    {
      && m.enableTapInteraction && m.enableGazePick && m.enableDragInteraction
      && m.tapTimeThreshold == 0.3 && m.dragThreshold == 10.0 && m.gazeTimeToSelect == 2.0
      && m.touchCompiled == touchCompiled && m.mouseCompiled == mouseCompiled && m.camera == scene.camera
    }

    /** The settings a created web handler has. */
    predicate DefaultWeb(w: WebHandling.WebInteractionHandler)
      reads this
    {
      && w.enableClickInteraction && w.enableDragInteraction
      && w.clickTimeThreshold == 0.3 && w.dragThreshold == 5.0 && w.camera == scene.camera
    }

    /** `_activeHandler?.Disable()`, the first step of `ActivateHandler` and `SwitchPlatform`:
        the active handler, if any, is disabled and lets go of everything it held; no object
        of `D`, which holds all it tracks, becomes Grabbed. */
    method DisableActive(ghost D: set<GrabbableObject>)
      requires Valid() && ActiveTracked() <= D
      modifies ActiveObjects(), ActiveTracked()
      ensures activeHandler.Some? ==> !IsEnabled(activeHandler.value) && Held(activeHandler.value) == {}
      ensures activeHandler.Some? ==>
                && PointerOf(activeHandler.value) == old(PointerOf(activeHandler.value))
                && ReferencesOf(activeHandler.value) == Cleared(old(ReferencesOf(activeHandler.value)))
      ensures unchanged(HandlerObjects() - ActiveObjects())
      ensures activeHandler.Some? ==> LetGo(old(Held(activeHandler.value)))
      ensures ActiveTracked() <= old(ActiveTracked()) && NoNewGrabs(D)
      ensures activeHandler.Some? ==>
                forall o | o in D ::
                  o.Status() == AfterLetGo(o.freezeRotationWhenGrabbed, old(o.Status()),
                                           Holds(old(ReferencesOf(activeHandler.value)), o),
                                           Lights(old(ReferencesOf(activeHandler.value)), o))
      ensures activeHandler.Some? ==> IsCleared(ReferencesOf(activeHandler.value))
      ensures vrHandler != null ==> vrHandler.interactors == old(vrHandler.interactors)
      ensures activeHandler == old(activeHandler) && handlers == old(handlers) && currentPlatform == old(currentPlatform)
      ensures vrHandler == old(vrHandler) && mobileHandler == old(mobileHandler) && webHandler == old(webHandler)
      ensures Valid()
    {
      if activeHandler.Some? {
        ReferencesCover(activeHandler.value);
        Handlers.Disable(activeHandler.value);
      }
    }

    /** `ActivateHandler`: disable the active handler; if the current platform has one,
        it becomes active and enabled, otherwise the disabled one stays recorded as active.
        No object of `D`, which holds all the active handler tracks, becomes Grabbed. */
    method ActivateHandler(ghost D: set<GrabbableObject>)
      requires Valid() && ActiveTracked() <= D
      modifies this`activeHandler, ActiveObjects(), ActiveTracked(), TableObjects(currentPlatform)
      ensures currentPlatform in handlers ==>
                activeHandler == Some(handlers[currentPlatform]) && IsEnabled(activeHandler.value)
      ensures currentPlatform !in handlers ==>
                activeHandler == old(activeHandler) && (activeHandler.Some? ==> !IsEnabled(activeHandler.value))
      ensures old(activeHandler).Some? && old(activeHandler) != activeHandler ==> !IsEnabled(old(activeHandler).value)
      ensures old(activeHandler).Some? ==> LetGo(old(Held(activeHandler.value)))
      ensures old(activeHandler).Some? ==>
                forall o | o in D ::
                  o.Status() == AfterLetGo(o.freezeRotationWhenGrabbed, old(o.Status()),
                                           Holds(old(ReferencesOf(activeHandler.value)), o),
                                           Lights(old(ReferencesOf(activeHandler.value)), o))
      ensures old(activeHandler).Some? ==>
                && PointerOf(old(activeHandler).value) == old(PointerOf(activeHandler.value))
                && ReferencesOf(old(activeHandler).value) == Cleared(old(ReferencesOf(activeHandler.value)))
      ensures currentPlatform in handlers && activeHandler != old(activeHandler) ==>
                && PointerOf(activeHandler.value) == old(PointerOf(handlers[currentPlatform]))
                && ReferencesOf(activeHandler.value) == old(ReferencesOf(handlers[currentPlatform]))
      ensures old(activeHandler).Some? && IsCleared(old(ReferencesOf(activeHandler.value))) ==>
                forall o | o in D :: o.Status() == old(o.Status())
      ensures vrHandler != null ==> vrHandler.interactors == old(vrHandler.interactors)
      ensures NoNewGrabs(D)
      ensures handlers == old(handlers) && currentPlatform == old(currentPlatform)
      ensures vrHandler == old(vrHandler) && mobileHandler == old(mobileHandler) && webHandler == old(webHandler)
      ensures Valid()
    {
      if activeHandler.Some? && currentPlatform in handlers && activeHandler.value != handlers[currentPlatform] {
        DistinctHandlers(activeHandler.value, handlers[currentPlatform]);
      }
      if activeHandler.Some? {
        ClearedHoldsNothing(ReferencesOf(activeHandler.value));
      }
      DisableActive(D);
      EnableCurrent(D);
    }

    /** The second half of `ActivateHandler`: the current platform's handler, if any,
        becomes the active one and is enabled; no other handler and no object changes. */
    method EnableCurrent(ghost D: set<GrabbableObject>)
      requires Valid()
      modifies this`activeHandler, TableObjects(currentPlatform)
      ensures unchanged(D)
      ensures currentPlatform in handlers ==>
                activeHandler == Some(handlers[currentPlatform]) && IsEnabled(activeHandler.value)
      ensures currentPlatform !in handlers ==> activeHandler == old(activeHandler) && unchanged(HandlerObjects())
      ensures old(activeHandler).Some? && old(activeHandler) != activeHandler ==>
                IsEnabled(old(activeHandler).value) == old(IsEnabled(activeHandler.value))
      ensures currentPlatform in handlers ==>
                && PointerOf(activeHandler.value) == old(PointerOf(handlers[currentPlatform]))
                && ReferencesOf(activeHandler.value) == old(ReferencesOf(handlers[currentPlatform]))
      ensures vrHandler != null ==> vrHandler.interactors == old(vrHandler.interactors)
      ensures unchanged(HandlerObjects() - ActiveObjects())
      ensures Valid()
    {
      if currentPlatform in handlers {
        activeHandler := Some(handlers[currentPlatform]);
        Handlers.Enable(activeHandler.value);
      }
    }

    /** `SwitchPlatform`: nothing without a handler for the target; otherwise disable the
        active handler, switch, and activate the target's handler.  No object the old
        handler held is Grabbed afterwards. */
    method SwitchPlatform(platform: InteractionPlatform)
      requires Valid()
      modifies this`activeHandler, this`currentPlatform, ActiveObjects(), ActiveTracked(), TableObjects(platform)
      ensures platform !in handlers ==>
                activeHandler == old(activeHandler) && currentPlatform == old(currentPlatform)
                && unchanged(HandlerObjects()) && unchanged(old(ActiveTracked()))
      ensures platform in handlers ==>
                && currentPlatform == platform
                && activeHandler == Some(handlers[platform]) && IsEnabled(activeHandler.value)
                && (old(activeHandler).Some? && old(activeHandler) != activeHandler ==> !IsEnabled(old(activeHandler).value))
      ensures platform in handlers && old(activeHandler).Some? ==>
                forall o | o in old(Held(activeHandler.value)) :: o.Status().state != Grabbed
      ensures platform in handlers && old(activeHandler).Some? ==> LetGo(old(Held(activeHandler.value)))
      ensures platform in handlers && old(activeHandler).Some? ==>
                forall o | o in old(ActiveTracked()) ::
                  o.Status() == AfterLetGo(o.freezeRotationWhenGrabbed, old(o.Status()),
                                           Holds(old(ReferencesOf(activeHandler.value)), o),
                                           Lights(old(ReferencesOf(activeHandler.value)), o))
      ensures platform in handlers ==> NoNewGrabs(old(ActiveTracked()))
      ensures platform in handlers && old(activeHandler).Some? ==>
                && PointerOf(old(activeHandler).value) == old(PointerOf(activeHandler.value))
                && ReferencesOf(old(activeHandler).value) == Cleared(old(ReferencesOf(activeHandler.value)))
      ensures platform in handlers && activeHandler != old(activeHandler) ==>
                && PointerOf(activeHandler.value) == old(PointerOf(handlers[platform]))
                && ReferencesOf(activeHandler.value) == old(ReferencesOf(handlers[platform]))
      ensures Valid()
    {
      if platform in handlers {
        ghost var D := ActiveTracked();
        DisableActive(D);
        SwitchTo(platform, D);
      }
    }

    /** `_currentPlatform = platform` then `ActivateHandler()`, the last two steps of
        `SwitchPlatform`: the target's handler becomes active and enabled; a previously
        active handler whose references are already cleared lets go of nothing more. */
    method SwitchTo(platform: InteractionPlatform, ghost D: set<GrabbableObject>)
      requires Valid() && ActiveTracked() <= D && platform in handlers
      modifies this`activeHandler, this`currentPlatform, ActiveObjects(), ActiveTracked(), TableObjects(platform)
      ensures currentPlatform == platform
      ensures activeHandler == Some(handlers[platform]) && IsEnabled(activeHandler.value)
      ensures old(activeHandler).Some? && old(activeHandler) != activeHandler ==> !IsEnabled(old(activeHandler).value)
      ensures old(activeHandler).Some? ==>
                && PointerOf(old(activeHandler).value) == old(PointerOf(activeHandler.value))
                && ReferencesOf(old(activeHandler).value) == Cleared(old(ReferencesOf(activeHandler.value)))
      ensures activeHandler != old(activeHandler) ==>
                && PointerOf(activeHandler.value) == old(PointerOf(handlers[platform]))
                && ReferencesOf(activeHandler.value) == old(ReferencesOf(handlers[platform]))
      ensures old(activeHandler).Some? && IsCleared(old(ReferencesOf(activeHandler.value))) ==>
                forall o | o in D :: o.Status() == old(o.Status())
      ensures NoNewGrabs(D)
      ensures Valid()
    {
      currentPlatform := platform;
      ActivateHandler(D);
    }

    /** The two steps `Initialize` takes once the platform is known. */
    method SetupAndActivate()
      requires Valid()
      modifies this`handlers, this`vrHandler, this`mobileHandler, this`webHandler, this`activeHandler,
               VRObjects(), ActiveObjects(), ActiveTracked(), AssignedTarget(currentPlatform)
      ensures currentPlatform == old(currentPlatform)
      ensures handlers == HandlerTable(vrHandler, mobileHandler, webHandler, currentPlatform)
      ensures currentPlatform in handlers <==> IsSinglePlatform(currentPlatform) && (currentPlatform == Desktop ==> webHandler != null)
      ensures currentPlatform in handlers ==>
                activeHandler == Some(handlers[currentPlatform]) && IsEnabled(activeHandler.value)
      ensures vrHandler != null ==> vrHandler.interactors == scene.interactors
      ensures old(activeHandler).Some? ==>
                ReferencesOf(old(activeHandler).value) == Cleared(old(ReferencesOf(activeHandler.value)))
      ensures Valid()
    {
      SetupPlatformHandlers();
      ActivateHandler(ActiveTracked());
    }

    /** `Initialize` (and `Start`, which repeats it): read the platform, set up the table,
        activate.  A handler for the detected platform exists afterwards exactly when it is
        one of the four named platforms, except that Desktop needs a web handler to borrow. */
    method Initialize(detector: PlatformDetector, env: Environment)
      requires Valid() && detector.Valid()
      modifies this`currentPlatform, this`handlers, this`vrHandler, this`mobileHandler, this`webHandler,
               this`activeHandler, detector, VRObjects(), ActiveObjects(), ActiveTracked(),
               AssignedTarget(if detector.cachedPlatform.Some? then detector.cachedPlatform.value else DetectPlatform(env))
      ensures currentPlatform == if old(detector.cachedPlatform).Some? then old(detector.cachedPlatform).value else DetectPlatform(env)
      ensures detector.cachedPlatform == Some(currentPlatform) && detector.Valid()
      ensures handlers == HandlerTable(vrHandler, mobileHandler, webHandler, currentPlatform)
      ensures currentPlatform in handlers <==> IsSinglePlatform(currentPlatform) && (currentPlatform == Desktop ==> webHandler != null)
      ensures currentPlatform in handlers ==>
                activeHandler == Some(handlers[currentPlatform]) && IsEnabled(activeHandler.value)
      ensures vrHandler != null ==> vrHandler.interactors == scene.interactors
      ensures old(activeHandler).Some? ==>
                ReferencesOf(old(activeHandler).value) == Cleared(old(ReferencesOf(activeHandler.value)))
      ensures Valid()
    {
      currentPlatform := detector.CurrentPlatform(env);
      SetupAndActivate();
    }

    /** `Update`: one frame of the active handler, as that handler's `AfterFrame` has it; a
        VR interactor whose entry the frame removes no longer holds its object. */
    method Update(frame: Frame)
      requires Valid()
      modifies ActiveObjects(), if activeHandler.Some? then Reachable(activeHandler.value, frame) else {}
      ensures activeHandler.Some? && activeHandler.value.VRRef? ==>
                activeHandler.value.vr.interactors == old(activeHandler.value.vr.interactors)
      ensures activeHandler.Some? ==> IsEnabled(activeHandler.value) == old(IsEnabled(activeHandler.value))
      ensures activeHandler.None? || !old(IsEnabled(activeHandler.value)) ==>
                unchanged(HandlerObjects()) && (activeHandler.Some? ==> unchanged(old(Reachable(activeHandler.value, frame))))
      ensures activeHandler.Some? && old(IsEnabled(activeHandler.value)) ==>
                FrameEffect(activeHandler.value, frame, old(Reachable(activeHandler.value, frame)))
      ensures activeHandler.Some? && activeHandler.value.VRRef? && old(activeHandler.value.vr.GrabsCoherent()) ==>
                && activeHandler.value.vr.GrabsCoherent()
                && forall a | a in old(activeHandler.value.vr.activeGrabs) && a !in activeHandler.value.vr.activeGrabs ::
                     old(activeHandler.value.vr.activeGrabs)[a].grabber != Some(a)
      ensures Valid()
    {
      if activeHandler.Some? {
        Handlers.UpdateHandler(activeHandler.value, frame);
      }
    }
  }
}
