# Grab interaction, modelled in Dafny

This project models the runtime core of the warehouse grab-interaction package
(`com.onvr.warehouse.grabinteraction`). The package lets a user pick up scene objects in VR,
on mobile and in a web build.

- **Grabbable objects.** Each object runs a small state machine: Idle, Highlighted, Grabbed,
  Released.
  - A grab is accepted only when the object is enabled, supports the current platform, allows
    the interaction type and is not already held.
  - A grab saves the rigidbody's kinematic flag and a release restores it.
  - Each release schedules a `ReturnToIdle` call.
- **Platform detector.** It classifies the running build as VR, Mobile, Web or Desktop and
  caches the answer until it is refreshed.
  - Two tables hang off the platform: which interaction types it supports, and which it
    prefers.
- **Interaction manager.** It holds a duplicate-free registry of objects and a platform →
  handler table.
  - Exactly one handler is active. Activation and platform switches disable the old handler
    and enable the new one.
  - It answers "closest object" and "objects in range" queries.
- **Three input handlers** sit behind one handler interface:
  - VR keeps an interactor → object dictionary, fed by a direct pass and a remote pass.
  - Mobile tracks touch press, drag promotion, tap pulses and a gaze dwell timer.
  - Web tracks mouse press, drag, click pulses, grab and release keys, and hover
    highlighting.

## Modules

Each source file becomes one module. Engine services become inputs.

| file | module | source |
|---|---|---|
| `interaction_types.dfy` | `InteractionTypes` | the flag enum `InteractionPlatform`, `GrabInteractionType`, `GrabState` |
| `platform_detector.dfy` | `PlatformDetection` | `PlatformDetector`: pure classification and tables, plus a class holding the memo |
| `grabbable_object.dfy` | `Grabbables` | `GrabbableObject` as a class. Pure transition functions specify its methods, and a trace semantics carries the invariants |
| `frame_inputs.dfy` | `FrameInputs` | one frame of engine input: select signals, raycast and overlap results, touch, mouse, keys, `deltaTime` |
| `vr_interaction_handler.dfy` | `VRHandling` | `VRInteractionHandler` |
| `mobile_interaction_handler.dfy` | `MobileHandling` | `MobileInteractionHandler` |
| `web_interaction_handler.dfy` | `WebHandling` | `WebInteractionHandler` |
| `grab_interaction_handler.dfy` | `Handlers` | `IGrabInteractionHandler`: a tagged reference `VRRef`/`MobileRef`/`WebRef` with dispatch methods |
| `interaction_manager.dfy` | `Manager` | `InteractionManager` |
| `wrappers.dfy` | `Wrappers` | `Option` |

Design choices:

- **Platform flags.** `InteractionPlatform` is a 32-bit pattern, so `HasFlag` is the C# subset
  test on the bits.
- **C# events.** Events (`OnGrabStart`, `GrabStarted`, …) are recorded in an event log.
- **Registration callbacks.** The manager records the callbacks it delivers to handlers in a
  ghost log, `notices`.
- **Delayed return to Idle.** `Invoke(nameof(ReturnToIdle), 0.1f)` becomes a counter of
  pending calls, `pendingReturns`, plus an explicit `ReturnToIdle` step. That step may fire at
  any later point of a trace.

Where the code behaves otherwise than its names and comments suggest, the model follows the code:

- **Mobile `Disable` keeps the gaze.** It releases the grab and clears the highlight, but
  the gaze reference and the gaze timer stay. The gazed object stays highlighted unless it was
  also the touch highlight, which `Disable` unhighlights (see
  `MobileHandling.MobileInteractionHandler.Disable`).
- **VR never clears remote highlights.** The remote pass highlights every eligible object its
  ray hits, and nothing in the VR handler unhighlights it again.
- **Desktop prefers an unsupported type.** Desktop's preferred types include GazePick, which
  the support table refuses on Desktop (`PlatformDetection.DesktopPrefersUnsupportedGaze`).

## Model

| member | source | states |
|---|---|---|
| `InteractionTypes.PlatformsAreDistinctSingleBits` | Packages/com.onvr.warehouse.grabinteraction/Runtime/Scripts/Core/InteractionTypes.cs:11-15 | VR, Mobile, Web and Desktop are four different one-bit values, pairwise disjoint, none of them `None` |
| `InteractionTypes.AllIsUnionOfPlatforms` | Packages/com.onvr.warehouse.grabinteraction/Runtime/Scripts/Core/InteractionTypes.cs:16 | `All` is exactly the four platform bits (15). It has the flag of a mask iff the mask has no other bit, so it has every single platform's flag |
| `InteractionTypes.HasFlagOfSinglePlatform` | Packages/com.onvr.warehouse.grabinteraction/Runtime/Scripts/Core/InteractionTypes.cs:8-17 | for a single platform, `HasFlag` is bit membership, so a mask lacking the bit rejects the platform |
| `InteractionTypes.HasFlagOfNone` | Packages/com.onvr.warehouse.grabinteraction/Runtime/Scripts/Core/InteractionTypes.cs:11 | every value has the flag `None`, which carries no bits |
| `InteractionTypes.EnumerationsAreComplete` | Packages/com.onvr.warehouse.grabinteraction/Runtime/Scripts/Core/InteractionTypes.cs:22-40 | `GrabInteractionType` has exactly five distinct values and `GrabState` exactly four |
| `PlatformDetection.DetectPlatform` | Packages/com.onvr.warehouse.grabinteraction/Runtime/Scripts/Core/PlatformDetector.cs:62-103 | the result is one single platform, never `None` or `All`. VR iff an XR device runs. Otherwise Mobile on a mobile platform, otherwise Web in a WebGL player. Outside the editor Desktop is the fallback. In the editor the build target decides: Android and iOS give Mobile, WebGL gives Web, any other target Desktop |
| `PlatformDetection.PreferredTypes` | Packages/com.onvr.warehouse.grabinteraction/Runtime/Scripts/Core/PlatformDetector.cs:108-118 | the preference list is never empty and has no repeats. Desktop's has TapClick and GazePick but not Drag. Any value that is not a single platform gets `[TapClick]`. For VR, Mobile and Web every preferred type is supported |
| `PlatformDetection.SupportTable` | Packages/com.onvr.warehouse.grabinteraction/Runtime/Scripts/Core/PlatformDetector.cs:42-60 | on a single platform: DirectHand and RemoteGrab iff VR; TapClick iff Mobile, Web or Desktop; GazePick iff Mobile, Web or VR; Drag iff Mobile or Web |
| `PlatformDetection.DesktopPrefersUnsupportedGaze` | Packages/com.onvr.warehouse.grabinteraction/Runtime/Scripts/Core/PlatformDetector.cs:108-118 | preferred ⊆ supported fails for Desktop: GazePick is preferred there but not supported |
| `PlatformDetection.PlatformDetector.constructor` | Packages/com.onvr.warehouse.grabinteraction/Runtime/Scripts/Core/PlatformDetector.cs:14 | the cache starts empty |
| `PlatformDetection.PlatformDetector.CurrentPlatform` | Packages/com.onvr.warehouse.grabinteraction/Runtime/Scripts/Core/PlatformDetector.cs:19-29 | a filled cache is returned as is. An empty cache is filled with `DetectPlatform` of the environment, which is returned |
| `PlatformDetection.PlatformDetector.RefreshPlatformDetection` | Packages/com.onvr.warehouse.grabinteraction/Runtime/Scripts/Core/PlatformDetector.cs:34-37 | the cache is emptied |
| `PlatformDetection.PlatformDetector.SupportsInteractionType` | Packages/com.onvr.warehouse.grabinteraction/Runtime/Scripts/Core/PlatformDetector.cs:42-60 | the answer is the support table at the (memoised) current platform; the cache is filled as by `CurrentPlatform` |
| `PlatformDetection.PlatformDetector.GetPreferredInteractionTypes` | Packages/com.onvr.warehouse.grabinteraction/Runtime/Scripts/Core/PlatformDetector.cs:108-118 | the answer is the preference list at the (memoised) current platform, never empty |
| `PlatformDetection.ReadsAreMemoised` | Packages/com.onvr.warehouse.grabinteraction/Runtime/Scripts/Core/PlatformDetector.cs:19-37 | two reads with no refresh between them agree even when the environment changed. The read after a refresh detects again from the new environment |
| `Grabbables.AfterLetGo` | Packages/com.onvr.warehouse.grabinteraction/Runtime/Scripts/Platforms/MobileInteractionHandler.cs:63-70 | what a handler's `Disable` does to one object: a held object is no longer Grabbed and a Grabbed one is released as `Release` releases it; a highlighted one is no longer Highlighted; only a Grabbed object can stay Grabbed; an object neither held nor highlighted is unchanged |
| `Grabbables.GrabbableObject.constructor` | Packages/com.onvr.warehouse.grabinteraction/Runtime/Scripts/Core/GrabbableObject.cs:63-106 | the object as `Awake` leaves it: Idle, no grabber, a new non-kinematic rigidbody when physics is on and none exists, the platform's preferred types when none were given, nothing pending, no events |
| `Grabbables.GrabbableObject.SetupDefaultInteractionTypes` | Packages/com.onvr.warehouse.grabinteraction/Runtime/Scripts/Core/GrabbableObject.cs:108-114 | an empty allowed-type list becomes the platform's preferred types, a non-empty one is kept; afterwards the list is non-empty |
| `Grabbables.GrabbableObject.SetIsGrabbable` | Packages/com.onvr.warehouse.grabinteraction/Runtime/Scripts/Core/GrabbableObject.cs:48-52 | the enable flag takes the new value |
| `Grabbables.GrabbableObject.CanBeGrabbed` | Packages/com.onvr.warehouse.grabinteraction/Runtime/Scripts/Core/GrabbableObject.cs:172-196 | the loop's answer is `Eligible`: enabled, the platform's flag set, the type allowed (or the list empty), and not Grabbed |
| `Grabbables.GrabbableObject.TryGrab` | Packages/com.onvr.warehouse.grabinteraction/Runtime/Scripts/Core/GrabbableObject.cs:119-126 | returns exactly whether the object was eligible. Refused: nothing changes. Accepted: Grabbed, with the given grabber. Keeps "grabber recorded iff Grabbed" |
| `Grabbables.GrabbableObject.Release` | Packages/com.onvr.warehouse.grabinteraction/Runtime/Scripts/Core/GrabbableObject.cs:131-137 | a no-op unless Grabbed. Otherwise the object is Released with no grabber. Afterwards it is never Grabbed. Keeps the grabber invariant |
| `Grabbables.GrabbableObject.Highlight` | Packages/com.onvr.warehouse.grabinteraction/Runtime/Scripts/Core/GrabbableObject.cs:142-152 | from Idle or Released it becomes Highlighted and logs the highlight event. It is ignored in Highlighted and Grabbed |
| `Grabbables.GrabbableObject.Unhighlight` | Packages/com.onvr.warehouse.grabinteraction/Runtime/Scripts/Core/GrabbableObject.cs:157-167 | only Highlighted changes, to Idle, with the unhighlight event |
| `Grabbables.GrabbableObject.StartGrab` | Packages/com.onvr.warehouse.grabinteraction/Runtime/Scripts/Core/GrabbableObject.cs:198-222 | Grabbed by the grabber. Snapshots `isKinematic`, forces it only for DirectHand, freezes rotation when configured, logs the grab event |
| `Grabbables.GrabbableObject.EndGrab` | Packages/com.onvr.warehouse.grabinteraction/Runtime/Scripts/Core/GrabbableObject.cs:224-245 | Released, no grabber, `isKinematic` restored from the snapshot, rotation unfrozen when configured, the end event logged, one `ReturnToIdle` scheduled |
| `Grabbables.GrabbableObject.ReturnToIdle` | Packages/com.onvr.warehouse.grabinteraction/Runtime/Scripts/Core/GrabbableObject.cs:247-250 | as written: Idle whatever the state, consuming one scheduled call |
| `Grabbables.AfterReturnToIdleFixed` | Packages/com.onvr.warehouse.grabinteraction/Runtime/Scripts/Core/GrabbableObject.cs:244-250 | corrected: only Released becomes Idle, every other state stays, one scheduled call is consumed, and nothing else changes |
| `Grabbables.StepKeepsCoherent` | Packages/com.onvr.warehouse.grabinteraction/Runtime/Scripts/Core/GrabbableObject.cs:119-250 | every public operation, and a fired (corrected) `ReturnToIdle`, keeps "a grabber is recorded exactly while Grabbed" |
| `Grabbables.RunKeepsCoherent` | Packages/com.onvr.warehouse.grabinteraction/Runtime/Scripts/Core/GrabbableObject.cs:119-250 | the grabber invariant holds after any sequence of operations, with the corrected `ReturnToIdle` |
| `Grabbables.StepKeepsKinematic` | Packages/com.onvr.warehouse.grabinteraction/Runtime/Scripts/Core/GrabbableObject.cs:204-237 | every operation keeps the save/restore relation between `isKinematic`, the snapshot and the flag's value before the first grab |
| `Grabbables.RunKeepsKinematic` | Packages/com.onvr.warehouse.grabinteraction/Runtime/Scripts/Core/GrabbableObject.cs:204-237 | after any number of grab cycles, an object that is not Grabbed has its original kinematic flag back |
| `Grabbables.GrabThenReleaseRestoresSnapshot` | Packages/com.onvr.warehouse.grabinteraction/Runtime/Scripts/Core/GrabbableObject.cs:204-234 | one cycle: the grab snapshots `isKinematic` and forces it only for DirectHand, and the release restores exactly the snapshot |
| `Grabbables.ReleaseDoesNotRestoreFreezeRotation` | Packages/com.onvr.warehouse.grabinteraction/Runtime/Scripts/Core/GrabbableObject.cs:212-237 | with `freezeRotationWhenGrabbed`, the release leaves `freezeRotation` false even when it was true before the grab: it is not restored |
| `Grabbables.TryGrabRefusalChangesNothing` | Packages/com.onvr.warehouse.grabinteraction/Runtime/Scripts/Core/GrabbableObject.cs:172-196 | each failing condition of `CanBeGrabbed` (disabled, platform flag missing, type not allowed, already Grabbed) makes `TryGrab` leave the object unchanged |
| `Grabbables.HighlightKeepsEligibility` | Packages/com.onvr.warehouse.grabinteraction/Runtime/Scripts/Core/GrabbableObject.cs:142-196 | highlighting or unhighlighting an eligible object keeps it eligible: Highlighted objects can be grabbed |
| `Grabbables.PulseIsGrabThenRelease` | Packages/com.onvr.warehouse.grabinteraction/Runtime/Scripts/Core/GrabbableObject.cs:119-137 | a successful grab-then-release leaves the object Released with no grabber, the start and end events logged in that order, and one `ReturnToIdle` scheduled |
| `Grabbables.Pulse` | Packages/com.onvr.warehouse.grabinteraction/Runtime/Scripts/Platforms/MobileInteractionHandler.cs:225-233 | the tap, click and gaze handlers' `TryGrab` followed, when it succeeds, by `Release`: the status is the pulse function, and the grabber invariant is kept |
| `Grabbables.ReleaseIsIdempotent` | Packages/com.onvr.warehouse.grabinteraction/Runtime/Scripts/Core/GrabbableObject.cs:131-137 | releasing twice is releasing once |
| `Grabbables.GrabbableObject.IsWithinGrabRange` | Packages/com.onvr.warehouse.grabinteraction/Runtime/Scripts/Core/GrabbableObject.cs:293-296 | true exactly when the distance from the point is at most `maxGrabDistance`, the bound itself included |
| `Grabbables.GrabRangeIsDownwardClosed` | Packages/com.onvr.warehouse.grabinteraction/Runtime/Scripts/Core/GrabbableObject.cs:293-296 | a point nearer than one in range is in range too, and the bound distance is in range |
| `Grabbables.RegrabBeforeReturnToIdleCounterexample` | Packages/com.onvr.warehouse.grabinteraction/Runtime/Scripts/Core/GrabbableObject.cs:244-250 | as written: release, re-grab within the delay, then the pending `ReturnToIdle` leaves an Idle object with a grabber. Its next `Release` is then ignored, and the kinematic flag forced by the grab stays set |
| `Manager.WithRegistered` | Packages/com.onvr.warehouse.grabinteraction/Runtime/Scripts/Core/InteractionManager.cs:91-103 | registering appends an absent object and leaves a present one's list unchanged. The old list is a prefix of the new one, and the list stays duplicate-free |
| `Manager.RemoveFirst` | Packages/com.onvr.warehouse.grabinteraction/Runtime/Scripts/Core/InteractionManager.cs:108-120 | `List.Remove`: an absent object changes nothing; a present one is removed once (the multiset loses one copy) |
| `Manager.ConsKeepsDistinct` | Packages/com.onvr.warehouse.grabinteraction/Runtime/Scripts/Core/InteractionManager.cs:108-120 | a duplicate-free list with a new head stays duplicate-free |
| `Manager.TailOfDistinct` | Packages/com.onvr.warehouse.grabinteraction/Runtime/Scripts/Core/InteractionManager.cs:108-120 | the tail of a duplicate-free list is duplicate-free and lacks the head |
| `Manager.RemoveFirstKeepsDistinct` | Packages/com.onvr.warehouse.grabinteraction/Runtime/Scripts/Core/InteractionManager.cs:108-120 | on a duplicate-free registry, removal keeps it duplicate-free and removes the object entirely |
| `Manager.RemoveFirstOfAppended` | Packages/com.onvr.warehouse.grabinteraction/Runtime/Scripts/Core/InteractionManager.cs:108-120 | removing an object appended to a list that lacked it gives the list back |
| `Manager.UnregisterUndoesRegister` | Packages/com.onvr.warehouse.grabinteraction/Runtime/Scripts/Core/InteractionManager.cs:91-120 | unregistering an object just registered restores the registry |
| `Manager.ObjectsInRange` | Packages/com.onvr.warehouse.grabinteraction/Runtime/Scripts/Core/InteractionManager.cs:133-146 | exactly the non-null registered objects within their grab range and within `range`, none added |
| `Manager.ObjectsInRangeOfConcat` | Packages/com.onvr.warehouse.grabinteraction/Runtime/Scripts/Core/InteractionManager.cs:133-146 | the query distributes over concatenation, so results keep registration order |
| `Manager.HandlerTableEntries` | Packages/com.onvr.warehouse.grabinteraction/Runtime/Scripts/Core/InteractionManager.cs:185-234 | the VR, Mobile and Web keys are present iff that handler exists, each mapped to its own handler. The Desktop key exists iff the current platform is Desktop and a web handler exists, and it aliases the web handler. No other key exists, and every entry is one of the three handlers |
| `Manager.InteractionManager.constructor` | Packages/com.onvr.warehouse.grabinteraction/Runtime/Scripts/Core/InteractionManager.cs:42-48 | an empty registry and table, no active handler, platform `None`, the assigned handlers kept |
| `Manager.InteractionManager.RegisterGrabbableObject` | Packages/com.onvr.warehouse.grabinteraction/Runtime/Scripts/Core/InteractionManager.cs:91-103 | the registry becomes `WithRegistered`. The active handler gets one notice iff the object was absent, and registering twice adds nothing |
| `Manager.InteractionManager.UnregisterGrabbableObject` | Packages/com.onvr.warehouse.grabinteraction/Runtime/Scripts/Core/InteractionManager.cs:108-120 | the registry becomes `RemoveFirst` and no longer holds the object. A notice goes out iff something was removed. The active handler then forgets the object (its references become `Handlers.Forget` of the old ones, its pointer state is kept) and no longer tracks it. Only the active handler may change, and an absent object changes no handler. Table, handler fields and platform are unchanged |
| `Manager.InteractionManager.GetRegisteredObjects` | Packages/com.onvr.warehouse.grabinteraction/Runtime/Scripts/Core/InteractionManager.cs:125-128 | the registry's contents, as a value that later changes cannot alias |
| `Manager.InteractionManager.GetGrabbableObjectsInRange` | Packages/com.onvr.warehouse.grabinteraction/Runtime/Scripts/Core/InteractionManager.cs:133-146 | the loop returns `ObjectsInRange` of the registry |
| `Manager.InteractionManager.FindClosestGrabbableObject` | Packages/com.onvr.warehouse.grabinteraction/Runtime/Scripts/Core/InteractionManager.cs:151-170 | null iff no registered, enabled object is strictly within `maxRange`. Otherwise such an object of least distance, and strictly nearer than every earlier candidate, so ties go to the earliest registered |
| `Manager.InteractionManager.SetupVRHandler` | Packages/com.onvr.warehouse.grabinteraction/Runtime/Scripts/Core/InteractionManager.cs:190-201 | an assigned VR handler is re-initialised with the scene's interactors. A missing one is created only when the platform is VR. The other handlers are unchanged |
| `Manager.InteractionManager.SetupMobileHandler` | Packages/com.onvr.warehouse.grabinteraction/Runtime/Scripts/Core/InteractionManager.cs:203-214 | an assigned mobile handler is kept. A missing one is created with default settings only when the platform is Mobile |
| `Manager.InteractionManager.SetupWebHandler` | Packages/com.onvr.warehouse.grabinteraction/Runtime/Scripts/Core/InteractionManager.cs:216-227 | an assigned web handler is kept. A missing one is created with default settings only when the platform is Web |
| `Manager.InteractionManager.RebuildTable` | Packages/com.onvr.warehouse.grabinteraction/Runtime/Scripts/Core/InteractionManager.cs:187-233 | the table is rebuilt from empty as `HandlerTable` of the handlers the manager holds |
| `Manager.InteractionManager.SetupPlatformHandlers` | Packages/com.onvr.warehouse.grabinteraction/Runtime/Scripts/Core/InteractionManager.cs:185-234 | the table is rebuilt as `HandlerTable`; each handler exists iff it was assigned or its platform is the current one. The current platform has an entry iff it is a single platform, and Desktop needs a web handler. An assigned VR handler keeps its grabs and enabled flag and takes the scene's interactors; assigned mobile and web handlers are unchanged. A created handler is fresh, disabled, tracks nothing and has the default settings. No other object changes, and the active handler's references are kept |
| `Manager.InteractionManager.DisableActive` | Packages/com.onvr.warehouse.grabinteraction/Runtime/Scripts/Core/InteractionManager.cs:239-242 | the active handler ends disabled and holds nothing; its pointer state is kept and its references become `Handlers.Cleared` of the old ones, so disabling it again lets go of nothing. Each tracked object ends as `AfterLetGo` says: one it held is no longer Grabbed and one that was Grabbed is released as `Release` releases it; the object a mobile or web handler highlighted is then unhighlighted; any other (a mobile gaze target) is unchanged. No object it tracked becomes Grabbed or changes its settings. Every other handler, the VR interactors, the table, the handler fields and the platform are unchanged |
| `Manager.InteractionManager.EnableCurrent` | Packages/com.onvr.warehouse.grabinteraction/Runtime/Scripts/Core/InteractionManager.cs:241-253 | with a table entry for the platform, that handler becomes active and enabled, with its pointer state and references as they were. Without one, the active handler and every handler stay as they were. No other handler and no object changes, and the VR interactors are kept |
| `Manager.InteractionManager.ActivateHandler` | Packages/com.onvr.warehouse.grabinteraction/Runtime/Scripts/Core/InteractionManager.cs:236-254 | the old active handler is disabled first: its pointer state is kept, its references become `Handlers.Cleared`, and each tracked object ends as `AfterLetGo` says (held ones released and not Grabbed, the highlighted one unhighlighted, others unchanged); if its references were already cleared no tracked object changes. With a table entry for the platform, that handler becomes active and enabled with its pointer state and references as they were; without one, the old handler stays recorded as active but disabled. Only the old and the new active handler and the tracked objects may change; the VR interactors, the table, the platform and the three handler fields are unchanged, and no tracked object becomes Grabbed |
| `Manager.InteractionManager.SwitchPlatform` | Packages/com.onvr.warehouse.grabinteraction/Runtime/Scripts/Core/InteractionManager.cs:175-183 | a target without a handler changes nothing. Otherwise the platform becomes the target, the target's handler is active and enabled with its pointer state and references as they were, and the old one is disabled with its pointer state kept and its references `Handlers.Cleared`. Disabled twice, the old handler lets go once: every tracked object ends as one `AfterLetGo` says (held ones released as `Release` releases them and not Grabbed, the highlighted one unhighlighted, the gaze target unchanged), and no tracked object becomes Grabbed or changes its settings. Only those two handlers and the tracked objects may change |
| `Manager.InteractionManager.SwitchTo` | Packages/com.onvr.warehouse.grabinteraction/Runtime/Scripts/Core/InteractionManager.cs:180-181 | the platform becomes the target and its handler is active and enabled with its pointer state and references as they were; a previously active handler keeps its pointer state and gets `Handlers.Cleared` references, and when its references were already cleared no tracked object changes. No tracked object becomes Grabbed |
| `Manager.InteractionManager.SetupAndActivate` | Packages/com.onvr.warehouse.grabinteraction/Runtime/Scripts/Core/InteractionManager.cs:78-86 | setting up and activating yields the table `HandlerTable`, and the current platform's handler, if any, active and enabled. The VR handler, if any, holds the scene's interactors, the previous active handler's references are `Handlers.Cleared`, and the platform is unchanged. Only the VR handler, the old and the new active handler, fresh handlers and the tracked objects may change |
| `Manager.InteractionManager.Initialize` | Packages/com.onvr.warehouse.grabinteraction/Runtime/Scripts/Core/InteractionManager.cs:78-86 | the platform is the detector's memoised answer, which fills its cache. The table and the active handler are as `SetupAndActivate` leaves them: the VR handler holds the scene's interactors and the previous active handler's references are `Handlers.Cleared`. Only the detector, the VR handler, the old active handler, the handler assigned to the detected platform, fresh handlers and the tracked objects may change |
| `Manager.InteractionManager.Update` | Packages/com.onvr.warehouse.grabinteraction/Runtime/Scripts/Core/InteractionManager.cs:256-259 | without an active handler, or with a disabled one, nothing changes. For an enabled active handler, the handler's fields and the objects it can reach this frame end as its implementation's `AfterFrame` gives them (`Handlers.FrameEffect`). In VR the entries change only as `VRHandling.EntriesFollow` allows, a removed entry's object is no longer held by its interactor, coherence is kept and the interactor list is kept. The enabled flag is kept. Only the active handler and the objects it can reach this frame may change |
| `Handlers.SupportedPlatform` | Packages/com.onvr.warehouse.grabinteraction/Runtime/Scripts/Core/IGrabInteractionHandler.cs:46 | a constant per implementation: VR, Mobile or Web, never Desktop |
| `Handlers.Initialize` | Packages/com.onvr.warehouse.grabinteraction/Runtime/Scripts/Core/IGrabInteractionHandler.cs:11 | the VR handler takes the scene's interactors and keeps its grabs. Mobile and web handlers are unchanged |
| `Handlers.Enable` | Packages/com.onvr.warehouse.grabinteraction/Runtime/Scripts/Core/IGrabInteractionHandler.cs:16 | every implementation ends enabled; its pointer state, its references and the objects it tracks are kept |
| `Handlers.Disable` | Packages/com.onvr.warehouse.grabinteraction/Runtime/Scripts/Core/IGrabInteractionHandler.cs:21 | every implementation ends disabled and holding nothing. Its pointer state, and so the VR interactors, is kept and its references become `Cleared`: VR keeps no grab, Mobile and Web null their grab and highlight, and Mobile keeps its gaze target. Each tracked object ends as `AfterLetGo` says, by what the old references hold and highlight: one it held is no longer Grabbed and one that was Grabbed is released as `Release` releases it; the highlighted one is then unhighlighted; any other (the gaze target) is unchanged. No object it tracked becomes Grabbed or changes its settings |
| `Handlers.UpdateHandler` | Packages/com.onvr.warehouse.grabinteraction/Runtime/Scripts/Core/IGrabInteractionHandler.cs:26 | a disabled handler changes nothing, neither itself nor any object. For an enabled one, the handler's fields and the objects it can reach this frame end as its implementation's `AfterFrame` gives them (`FrameEffect`); VR's entries also change only as `VRHandling.EntriesFollow` allows. A VR interactor whose entry the frame removes no longer holds its object, and the VR interactor list is kept. The enabled flag is kept. Only the handler and those objects may change |
| `Handlers.OnObjectRegistered` | Packages/com.onvr.warehouse.grabinteraction/Runtime/Scripts/Core/IGrabInteractionHandler.cs:31 | no implementation changes any state the model keeps: VR only adds an engine component (VRInteractionHandler.cs:70-73), Mobile and Web do nothing |
| `Handlers.OnObjectUnregistered` | Packages/com.onvr.warehouse.grabinteraction/Runtime/Scripts/Core/IGrabInteractionHandler.cs:36 | every implementation forgets the object: its references become `Forget` of the old ones and it tracks exactly the old objects minus this one. Its pointer state and enabled flag are kept, and no object changes |
| `Handlers.Cleared` | Packages/com.onvr.warehouse.grabinteraction/Runtime/Scripts/Platforms/MobileInteractionHandler.cs:63-70 | what `Disable` leaves of a handler's references: no grab and no highlight, and a mobile handler's gaze target kept. Cleared references are `IsCleared`, and clearing cleared references changes nothing |
| `Handlers.Drop` | Packages/com.onvr.warehouse.grabinteraction/Runtime/Scripts/Platforms/MobileInteractionHandler.cs:88-96 | a reference to the unregistered object becomes null; any other reference is kept |
| `Handlers.Forget` | Packages/com.onvr.warehouse.grabinteraction/Runtime/Scripts/Platforms/VRInteractionHandler.cs:75-91 | what `OnObjectUnregistered` leaves of a handler's references: every VR entry holding the object is removed and every other entry kept, and no entry is added |
| `VRHandling.DirectStep` | Packages/com.onvr.warehouse.grabinteraction/Runtime/Scripts/Platforms/VRInteractionHandler.cs:143-170 | one interactor of the direct pass. An active select without an entry adds an entry holding its target exactly when the target is DirectHand-eligible, and grabs it; a dropped select with an entry releases the entry's object and removes the entry; otherwise nothing. No object changes its settings, and any new entry holds the target |
| `VRHandling.RemoteStep` | Packages/com.onvr.warehouse.grabinteraction/Runtime/Scripts/Platforms/VRInteractionHandler.cs:177-219 | one interactor of the remote pass. An interactor with an entry, no ray hit or an ineligible hit changes nothing. An eligible hit is highlighted, and with select active it gets an entry exactly when `TryGrab(RemoteGrab)` succeeds. Settings are kept, and any new entry holds the hit |
| `VRHandling.DirectPass` | Packages/com.onvr.warehouse.grabinteraction/Runtime/Scripts/Platforms/VRInteractionHandler.cs:137-172 | the direct step for every non-null interactor in array order; no object changes its settings |
| `VRHandling.RemotePass` | Packages/com.onvr.warehouse.grabinteraction/Runtime/Scripts/Platforms/VRInteractionHandler.cs:174-220 | the remote step for every non-null interactor in array order; no object changes its settings |
| `VRHandling.AfterFrame` | Packages/com.onvr.warehouse.grabinteraction/Runtime/Scripts/Platforms/VRInteractionHandler.cs:61-68 | an enabled frame: the direct pass when direct grab is on, then the remote pass on its result when remote grab is on. No object changes its settings |
| `VRHandling.DirectPassRemovals` | Packages/com.onvr.warehouse.grabinteraction/Runtime/Scripts/Platforms/VRInteractionHandler.cs:158-164 | the direct pass removes exactly the entries of interactors whose select dropped, and keeps every other entry as it was |
| `VRHandling.DirectPassAdditions` | Packages/com.onvr.warehouse.grabinteraction/Runtime/Scripts/Platforms/VRInteractionHandler.cs:146-156 | every entry the direct pass adds belongs to an interactor with select active and holds that interactor's target |
| `VRHandling.RemotePassEntries` | Packages/com.onvr.warehouse.grabinteraction/Runtime/Scripts/Platforms/VRInteractionHandler.cs:177-219 | the remote pass keeps every entry, and every entry it adds belongs to an interactor with select active and holds its ray hit |
| `VRHandling.DirectStepKeepsGrabsHeld` | Packages/com.onvr.warehouse.grabinteraction/Runtime/Scripts/Platforms/VRInteractionHandler.cs:143-170 | a direct step keeps every entry's object Grabbed by its own interactor |
| `VRHandling.RemoteStepKeepsGrabsHeld` | Packages/com.onvr.warehouse.grabinteraction/Runtime/Scripts/Platforms/VRInteractionHandler.cs:177-219 | a remote step keeps every entry's object Grabbed by its own interactor |
| `VRHandling.StepsTouchOneObject` | Packages/com.onvr.warehouse.grabinteraction/Runtime/Scripts/Platforms/VRInteractionHandler.cs:143-219 | a direct step changes no object but the one the interactor holds or, without an entry, its target; so a release leaves the touched target alone. A remote step changes no object but its ray hit |
| `VRHandling.PassesKeepGrabsHeld` | Packages/com.onvr.warehouse.grabinteraction/Runtime/Scripts/Platforms/VRInteractionHandler.cs:137-220 | both passes keep every entry's object Grabbed by its own interactor |
| `VRHandling.StepsSpareTheIdle` | Packages/com.onvr.warehouse.grabinteraction/Runtime/Scripts/Platforms/VRInteractionHandler.cs:146-203 | an interactor whose select is not active never becomes the grabber of an object in either step |
| `VRHandling.PassesSpareTheIdle` | Packages/com.onvr.warehouse.grabinteraction/Runtime/Scripts/Platforms/VRInteractionHandler.cs:137-220 | no pass makes an interactor whose select is not active the grabber of an object |
| `VRHandling.DirectPassReleases` | Packages/com.onvr.warehouse.grabinteraction/Runtime/Scripts/Platforms/VRInteractionHandler.cs:158-164 | when every entry is held, each object whose entry the direct pass removes is no longer held by that interactor |
| `VRHandling.FrameEntries` | Packages/com.onvr.warehouse.grabinteraction/Runtime/Scripts/Platforms/VRInteractionHandler.cs:61-68 | a frame changes the dictionary as `EntriesFollow` says: removals only with direct grab on and exactly for dropped selects; other entries unchanged; new entries belong to active selects and hold the direct target or, with remote grab on, the ray hit |
| `VRHandling.FrameReleases` | Packages/com.onvr.warehouse.grabinteraction/Runtime/Scripts/Platforms/VRInteractionHandler.cs:61-68 | a frame keeps every entry held by its own interactor, and the object of each removed entry is no longer held by that interactor |
| `VRHandling.VRInteractionHandler.constructor` | Packages/com.onvr.warehouse.grabinteraction/Runtime/Scripts/Platforms/VRInteractionHandler.cs:14-36 | disabled, no interactors, an empty grab dictionary |
| `VRHandling.VRInteractionHandler.Initialize` | Packages/com.onvr.warehouse.grabinteraction/Runtime/Scripts/Platforms/VRInteractionHandler.cs:40-44 | the interactors are the ones found in the scene |
| `VRHandling.VRInteractionHandler.Enable` | Packages/com.onvr.warehouse.grabinteraction/Runtime/Scripts/Platforms/VRInteractionHandler.cs:46-51 | enabled; nothing else changes |
| `VRHandling.VRInteractionHandler.Disable` | Packages/com.onvr.warehouse.grabinteraction/Runtime/Scripts/Platforms/VRInteractionHandler.cs:53-59 | disabled with an empty dictionary. Every held object is released as `Release` releases it (once per object, which `ReleaseIsIdempotent` makes the same as once per entry) and is no longer Grabbed. Settings are kept, and coherence holds |
| `VRHandling.VRInteractionHandler.InteractorsHolding` | Packages/com.onvr.warehouse.grabinteraction/Runtime/Scripts/Platforms/VRInteractionHandler.cs:77-86 | exactly the interactors whose entry holds the object |
| `VRHandling.VRInteractionHandler.OnObjectUnregistered` | Packages/com.onvr.warehouse.grabinteraction/Runtime/Scripts/Platforms/VRInteractionHandler.cs:75-91 | every entry holding the object is removed without a release; every other entry is unchanged, so the held objects are the old ones minus this one; coherence is kept |
| `VRHandling.VRInteractionHandler.DirectGrabStep` | Packages/com.onvr.warehouse.grabinteraction/Runtime/Scripts/Platforms/VRInteractionHandler.cs:143-170 | the dictionary and every object it may touch end as `DirectStep` gives them, settings included |
| `VRHandling.VRInteractionHandler.RemoteGrabStep` | Packages/com.onvr.warehouse.grabinteraction/Runtime/Scripts/Platforms/VRInteractionHandler.cs:177-219 | the dictionary and every object it may touch end as `RemoteStep` gives them, settings included |
| `VRHandling.VRInteractionHandler.UpdateDirectGrabInteractions` | Packages/com.onvr.warehouse.grabinteraction/Runtime/Scripts/Platforms/VRInteractionHandler.cs:137-172 | with direct grab off nothing changes; otherwise the dictionary and the objects end as `DirectPass` gives them, so removals are released (`DirectPassReleases`) |
| `VRHandling.VRInteractionHandler.UpdateRemoteGrabInteractions` | Packages/com.onvr.warehouse.grabinteraction/Runtime/Scripts/Platforms/VRInteractionHandler.cs:174-220 | the dictionary and the objects end as `RemotePass` gives them |
| `VRHandling.VRInteractionHandler.RunPasses` | Packages/com.onvr.warehouse.grabinteraction/Runtime/Scripts/Platforms/VRInteractionHandler.cs:65-67 | the direct pass, then the remote pass when it is on: the state ends as `AfterFrame` |
| `VRHandling.VRInteractionHandler.RunFrame` | Packages/com.onvr.warehouse.grabinteraction/Runtime/Scripts/Platforms/VRInteractionHandler.cs:65-67 | an enabled frame: `AfterFrame` of the old state, the entry changes of `EntriesFollow`, coherence kept, and each removed entry's object no longer held by its interactor |
| `VRHandling.VRInteractionHandler.UpdateHandler` | Packages/com.onvr.warehouse.grabinteraction/Runtime/Scripts/Platforms/VRInteractionHandler.cs:61-68 | nothing while disabled. Enabled: `DidFrame`, that is the direct pass, then the remote pass, as `AfterFrame`; the entries change only as `EntriesFollow` allows, and a removed entry's object is no longer held by its interactor. The enabled flag and the interactor list are kept |
| `MobileHandling.GazeQuietBelowThreshold` | Packages/com.onvr.warehouse.grabinteraction/Runtime/Scripts/Platforms/MobileInteractionHandler.cs:264-279 | while the accumulated gaze stays below the threshold no pulse fires, and the timer is the running sum |
| `MobileHandling.SumOfNonNegative` | Packages/com.onvr.warehouse.grabinteraction/Runtime/Scripts/Platforms/MobileInteractionHandler.cs:267 | frame times are non-negative, so their sum is too |
| `MobileHandling.GazeRunAppend` | Packages/com.onvr.warehouse.grabinteraction/Runtime/Scripts/Platforms/MobileInteractionHandler.cs:264-279 | one more frame of gaze is one more timer step after the earlier frames |
| `MobileHandling.GazeFiresOnceAtThreshold` | Packages/com.onvr.warehouse.grabinteraction/Runtime/Scripts/Platforms/MobileInteractionHandler.cs:264-279 | from a fresh timer, the first frame that carries the sum to the threshold fires exactly one pulse and resets the timer to zero |
| `MobileHandling.MobileInteractionHandler.AfterReleaseGrab` | Packages/com.onvr.warehouse.grabinteraction/Runtime/Scripts/Platforms/MobileInteractionHandler.cs:366-373 | tracks no new object and keeps every object's settings; the gaze target and timer are untouched |
| `MobileHandling.MobileInteractionHandler.AfterClearHighlight` | Packages/com.onvr.warehouse.grabinteraction/Runtime/Scripts/Platforms/MobileInteractionHandler.cs:344-351 | tracks no new object and keeps every object's settings; the gaze target and timer are untouched |
| `MobileHandling.MobileInteractionHandler.AfterClearGaze` | Packages/com.onvr.warehouse.grabinteraction/Runtime/Scripts/Platforms/MobileInteractionHandler.cs:353-364 | tracks no new object and keeps every object's settings |
| `MobileHandling.MobileInteractionHandler.AfterTouchStart` | Packages/com.onvr.warehouse.grabinteraction/Runtime/Scripts/Platforms/MobileInteractionHandler.cs:166-179 | tracks at most the object under the touch besides what it tracked; settings kept; the gaze target and timer are untouched |
| `MobileHandling.MobileInteractionHandler.AfterTouchMove` | Packages/com.onvr.warehouse.grabinteraction/Runtime/Scripts/Platforms/MobileInteractionHandler.cs:181-207 | tracks no new object; settings kept; the gaze target and timer are untouched |
| `MobileHandling.MobileInteractionHandler.AfterTap` | Packages/com.onvr.warehouse.grabinteraction/Runtime/Scripts/Platforms/MobileInteractionHandler.cs:222-234 | tracks the same objects; settings kept; the gaze target and timer are untouched |
| `MobileHandling.MobileInteractionHandler.AfterLift` | Packages/com.onvr.warehouse.grabinteraction/Runtime/Scripts/Platforms/MobileInteractionHandler.cs:211-235 | tracks no new object and keeps the highlight and the drag flag; settings kept; the gaze target and timer are untouched |
| `MobileHandling.MobileInteractionHandler.AfterTouchEnd` | Packages/com.onvr.warehouse.grabinteraction/Runtime/Scripts/Platforms/MobileInteractionHandler.cs:209-240 | tracks no new object; settings kept; the gaze target and timer are untouched |
| `MobileHandling.MobileInteractionHandler.AfterTouch` | Packages/com.onvr.warehouse.grabinteraction/Runtime/Scripts/Platforms/MobileInteractionHandler.cs:131-148 | tracks at most the object under the touch besides what it tracked; settings kept; the gaze target and timer are untouched |
| `MobileHandling.MobileInteractionHandler.AfterMouseInput` | Packages/com.onvr.warehouse.grabinteraction/Runtime/Scripts/Platforms/MobileInteractionHandler.cs:150-164 | tracks at most the object under the pointer besides what it tracked; settings kept; the gaze target and timer are untouched |
| `MobileHandling.MobileInteractionHandler.AfterTouchInteractions` | Packages/com.onvr.warehouse.grabinteraction/Runtime/Scripts/Platforms/MobileInteractionHandler.cs:115-129 | tracks at most the frame's objects besides what it tracked; settings kept; the gaze target and timer are untouched |
| `MobileHandling.MobileInteractionHandler.AfterGazeMoves` | Packages/com.onvr.warehouse.grabinteraction/Runtime/Scripts/Platforms/MobileInteractionHandler.cs:256-263 | tracks at most the new target besides what it tracked; settings kept |
| `MobileHandling.MobileInteractionHandler.AfterGazeDwells` | Packages/com.onvr.warehouse.grabinteraction/Runtime/Scripts/Platforms/MobileInteractionHandler.cs:264-279 | tracks the same objects; settings kept |
| `MobileHandling.MobileInteractionHandler.AfterGaze` | Packages/com.onvr.warehouse.grabinteraction/Runtime/Scripts/Platforms/MobileInteractionHandler.cs:242-293 | tracks at most the gaze hit besides what it tracked; settings kept; a handler without a camera tracks nothing |
| `MobileHandling.MobileInteractionHandler.AfterFrame` | Packages/com.onvr.warehouse.grabinteraction/Runtime/Scripts/Platforms/MobileInteractionHandler.cs:72-81 | an enabled frame keeps the objects' settings, and without a camera nothing is tracked |
| `MobileHandling.MobileInteractionHandler.TouchEndKeepsHolding` | Packages/com.onvr.warehouse.grabinteraction/Runtime/Scripts/Platforms/MobileInteractionHandler.cs:209-240 | a touch end keeps the held object Grabbed by the camera |
| `MobileHandling.MobileInteractionHandler.TouchKeepsHolding` | Packages/com.onvr.warehouse.grabinteraction/Runtime/Scripts/Platforms/MobileInteractionHandler.cs:131-148 | every touch phase keeps the held object Grabbed by the camera |
| `MobileHandling.MobileInteractionHandler.MouseInputKeepsHolding` | Packages/com.onvr.warehouse.grabinteraction/Runtime/Scripts/Platforms/MobileInteractionHandler.cs:150-164 | the mouse fallback keeps the held object Grabbed by the camera |
| `MobileHandling.MobileInteractionHandler.TouchInteractionsKeepHolding` | Packages/com.onvr.warehouse.grabinteraction/Runtime/Scripts/Platforms/MobileInteractionHandler.cs:115-129 | the touch and mouse input of a frame keeps the held object Grabbed by the camera |
| `MobileHandling.MobileInteractionHandler.GazeKeepsHolding` | Packages/com.onvr.warehouse.grabinteraction/Runtime/Scripts/Platforms/MobileInteractionHandler.cs:242-293 | the gaze pass keeps the held object Grabbed by the camera |
| `MobileHandling.MobileInteractionHandler.FrameKeepsHolding` | Packages/com.onvr.warehouse.grabinteraction/Runtime/Scripts/Platforms/MobileInteractionHandler.cs:72-81 | a whole frame keeps the held object Grabbed by the camera |
| `MobileHandling.MobileInteractionHandler.GazeFollowsTheTimer` | Packages/com.onvr.warehouse.grabinteraction/Runtime/Scripts/Platforms/MobileInteractionHandler.cs:264-279 | gazing at the same eligible object is one `GazeTick` of the timer, and the object is pulsed (grabbed and released) exactly when the tick fires |
| `MobileHandling.MobileInteractionHandler.TouchEndSettles` | Packages/com.onvr.warehouse.grabinteraction/Runtime/Scripts/Platforms/MobileInteractionHandler.cs:209-240 | after a touch end nothing is highlighted and no drag is under way; a drag's end leaves nothing held, a tap keeps the grab |
| `MobileHandling.MobileInteractionHandler.TouchEndTouchesOnlyItsObjects` | Packages/com.onvr.warehouse.grabinteraction/Runtime/Scripts/Platforms/MobileInteractionHandler.cs:209-240 | a touch end changes no object the handler does not track, and the object under the touch only when there was no drag |
| `MobileHandling.MobileInteractionHandler.FrameWithoutGazeKeepsGaze` | Packages/com.onvr.warehouse.grabinteraction/Runtime/Scripts/Platforms/MobileInteractionHandler.cs:72-81 | with gaze pick off a frame leaves the gaze target and its timer alone |
| `MobileHandling.MobileInteractionHandler.LettingGo` | Packages/com.onvr.warehouse.grabinteraction/Runtime/Scripts/Platforms/MobileInteractionHandler.cs:63-70 | releasing the grab, then clearing the highlight, leaves the held object not Grabbed, released as `Release` releases it, and makes no tracked object Grabbed. Each object ends as `AfterLetGo` says: released if it was the grab, then unhighlighted if it was the highlight, otherwise unchanged |
| `MobileHandling.MobileInteractionHandler.constructor` | Packages/com.onvr.warehouse.grabinteraction/Runtime/Scripts/Platforms/MobileInteractionHandler.cs:14-54 | disabled, nothing tracked, not dragging, the timer at zero, the configured thresholds kept |
| `MobileHandling.MobileInteractionHandler.Enable` | Packages/com.onvr.warehouse.grabinteraction/Runtime/Scripts/Platforms/MobileInteractionHandler.cs:56-61 | enabled; nothing else changes |
| `MobileHandling.MobileInteractionHandler.Disable` | Packages/com.onvr.warehouse.grabinteraction/Runtime/Scripts/Platforms/MobileInteractionHandler.cs:63-70 | disabled; state as `AfterClearHighlight(AfterReleaseGrab(...))`: the grab is released and nulled, the highlight cleared and nulled, the gaze target and timer and the touch state untouched. Each object ends as `AfterLetGo` says, so the gazed object is untouched unless it was also the grab or the highlight. Nothing it held is Grabbed, and nothing tracked becomes Grabbed |
| `MobileHandling.MobileInteractionHandler.ReleaseCurrentGrab` | Packages/com.onvr.warehouse.grabinteraction/Runtime/Scripts/Platforms/MobileInteractionHandler.cs:366-373 | the handler and the objects end as `AfterReleaseGrab`: the held object is released and forgotten |
| `MobileHandling.MobileInteractionHandler.ClearHighlight` | Packages/com.onvr.warehouse.grabinteraction/Runtime/Scripts/Platforms/MobileInteractionHandler.cs:344-351 | as `AfterClearHighlight`: the highlighted object is unhighlighted and forgotten |
| `MobileHandling.MobileInteractionHandler.ClearGaze` | Packages/com.onvr.warehouse.grabinteraction/Runtime/Scripts/Platforms/MobileInteractionHandler.cs:353-364 | as `AfterClearGaze`: the gazed object is unhighlighted and forgotten, and the timer is zero |
| `MobileHandling.MobileInteractionHandler.OnObjectUnregistered` | Packages/com.onvr.warehouse.grabinteraction/Runtime/Scripts/Platforms/MobileInteractionHandler.cs:88-96 | exactly the tracked references equal to the object are nulled |
| `MobileHandling.MobileInteractionHandler.HandleTouchStart` | Packages/com.onvr.warehouse.grabinteraction/Runtime/Scripts/Platforms/MobileInteractionHandler.cs:166-179 | as `AfterTouchStart`: the start position and time recorded, dragging off, the object under the touch, if any, highlighted and recorded |
| `MobileHandling.MobileInteractionHandler.HandleTouchMove` | Packages/com.onvr.warehouse.grabinteraction/Runtime/Scripts/Platforms/MobileInteractionHandler.cs:181-207 | as `AfterTouchMove`: only the first move strictly past the drag threshold starts a drag, grabbing the highlighted object iff it is Drag-eligible |
| `MobileHandling.MobileInteractionHandler.Tap` | Packages/com.onvr.warehouse.grabinteraction/Runtime/Scripts/Platforms/MobileInteractionHandler.cs:222-234 | as `AfterTap`: an eligible object under the touch is grabbed and released |
| `MobileHandling.MobileInteractionHandler.Lift` | Packages/com.onvr.warehouse.grabinteraction/Runtime/Scripts/Platforms/MobileInteractionHandler.cs:211-235 | as `AfterLift`: a drag releases its grab; otherwise a touch within the tap threshold taps |
| `MobileHandling.MobileInteractionHandler.HandleTouchEnd` | Packages/com.onvr.warehouse.grabinteraction/Runtime/Scripts/Platforms/MobileInteractionHandler.cs:209-240 | as `AfterTouchEnd`, on every object it may touch: an untracked object, and after a drag the one under the touch, stays unchanged (`TouchEndTouchesOnlyItsObjects`) |
| `MobileHandling.MobileInteractionHandler.HandleTouch` | Packages/com.onvr.warehouse.grabinteraction/Runtime/Scripts/Platforms/MobileInteractionHandler.cs:131-148 | as `AfterTouch`: Began starts, Moved moves, Ended and Canceled end, Stationary does nothing |
| `MobileHandling.MobileInteractionHandler.HandleMouseInput` | Packages/com.onvr.warehouse.grabinteraction/Runtime/Scripts/Platforms/MobileInteractionHandler.cs:150-164 | as `AfterMouseInput`: button down starts, held moves, up ends, no button does nothing |
| `MobileHandling.MobileInteractionHandler.UpdateTouchInteractions` | Packages/com.onvr.warehouse.grabinteraction/Runtime/Scripts/Platforms/MobileInteractionHandler.cs:115-129 | as `AfterTouchInteractions`: the first touch when the touch branch is compiled in, then the mouse when the fallback is |
| `MobileHandling.MobileInteractionHandler.GazeMoves` | Packages/com.onvr.warehouse.grabinteraction/Runtime/Scripts/Platforms/MobileInteractionHandler.cs:256-263 | as `AfterGazeMoves`: the old target unhighlighted, the new one highlighted, the timer at zero |
| `MobileHandling.MobileInteractionHandler.GazeDwells` | Packages/com.onvr.warehouse.grabinteraction/Runtime/Scripts/Platforms/MobileInteractionHandler.cs:266-278 | as `AfterGazeDwells`: one `GazeTick` of the timer, with a GazePick pulse when it fires |
| `MobileHandling.MobileInteractionHandler.UpdateGazeInteractions` | Packages/com.onvr.warehouse.grabinteraction/Runtime/Scripts/Platforms/MobileInteractionHandler.cs:242-293 | as `AfterGaze`: without a camera nothing; an eligible new target takes over; the same target dwells; anything else clears the gaze |
| `MobileHandling.MobileInteractionHandler.UpdateHandler` | Packages/com.onvr.warehouse.grabinteraction/Runtime/Scripts/Platforms/MobileInteractionHandler.cs:72-81 | nothing while disabled. Enabled: `DidFrame`, that is touch when tap or drag is on, then gaze when gaze pick is on, as `AfterFrame` |
| `WebHandling.WebInteractionHandler.AfterReleaseGrab` | Packages/com.onvr.warehouse.grabinteraction/Runtime/Scripts/Platforms/WebInteractionHandler.cs:291-298 | tracks no new object and keeps every object's settings |
| `WebHandling.WebInteractionHandler.AfterClearHighlight` | Packages/com.onvr.warehouse.grabinteraction/Runtime/Scripts/Platforms/WebInteractionHandler.cs:282-289 | tracks no new object and keeps every object's settings |
| `WebHandling.WebInteractionHandler.AfterMouseDown` | Packages/com.onvr.warehouse.grabinteraction/Runtime/Scripts/Platforms/WebInteractionHandler.cs:109-122 | tracks at most the object under the pointer besides what it tracked; settings kept |
| `WebHandling.WebInteractionHandler.AfterMouseHold` | Packages/com.onvr.warehouse.grabinteraction/Runtime/Scripts/Platforms/WebInteractionHandler.cs:124-151 | tracks no new object; settings kept |
| `WebHandling.WebInteractionHandler.AfterClick` | Packages/com.onvr.warehouse.grabinteraction/Runtime/Scripts/Platforms/WebInteractionHandler.cs:166-178 | tracks the same objects; settings kept |
| `WebHandling.WebInteractionHandler.AfterMouseUp` | Packages/com.onvr.warehouse.grabinteraction/Runtime/Scripts/Platforms/WebInteractionHandler.cs:153-183 | tracks no new object; settings kept |
| `WebHandling.WebInteractionHandler.AfterMouse` | Packages/com.onvr.warehouse.grabinteraction/Runtime/Scripts/Platforms/WebInteractionHandler.cs:93-107 | tracks at most the object under the pointer besides what it tracked; settings kept |
| `WebHandling.WebInteractionHandler.AfterGrabKey` | Packages/com.onvr.warehouse.grabinteraction/Runtime/Scripts/Platforms/WebInteractionHandler.cs:188-202 | tracks at most the object under the pointer besides what it tracked; settings kept |
| `WebHandling.WebInteractionHandler.AfterKeys` | Packages/com.onvr.warehouse.grabinteraction/Runtime/Scripts/Platforms/WebInteractionHandler.cs:185-219 | tracks at most the object under the pointer besides what it tracked; settings kept |
| `WebHandling.WebInteractionHandler.AfterHover` | Packages/com.onvr.warehouse.grabinteraction/Runtime/Scripts/Platforms/WebInteractionHandler.cs:221-239 | tracks at most the object under the pointer besides what it tracked; settings kept |
| `WebHandling.WebInteractionHandler.AfterFrame` | Packages/com.onvr.warehouse.grabinteraction/Runtime/Scripts/Platforms/WebInteractionHandler.cs:61-68 | an enabled frame keeps the objects' settings, and without a camera nothing is tracked |
| `WebHandling.WebInteractionHandler.MouseKeepsHolding` | Packages/com.onvr.warehouse.grabinteraction/Runtime/Scripts/Platforms/WebInteractionHandler.cs:93-183 | the mouse input keeps the held object Grabbed by the camera |
| `WebHandling.WebInteractionHandler.KeysKeepHolding` | Packages/com.onvr.warehouse.grabinteraction/Runtime/Scripts/Platforms/WebInteractionHandler.cs:185-219 | the keys keep the held object Grabbed by the camera |
| `WebHandling.WebInteractionHandler.HoverKeepsHolding` | Packages/com.onvr.warehouse.grabinteraction/Runtime/Scripts/Platforms/WebInteractionHandler.cs:221-239 | hover highlighting keeps the held object Grabbed by the camera |
| `WebHandling.WebInteractionHandler.FrameKeepsHolding` | Packages/com.onvr.warehouse.grabinteraction/Runtime/Scripts/Platforms/WebInteractionHandler.cs:61-68 | a whole frame keeps the held object Grabbed by the camera |
| `WebHandling.WebInteractionHandler.LettingGo` | Packages/com.onvr.warehouse.grabinteraction/Runtime/Scripts/Platforms/WebInteractionHandler.cs:54-59 | releasing the grab, then clearing the highlight, leaves the held object not Grabbed, released as `Release` releases it, and makes no tracked object Grabbed. Each object ends as `AfterLetGo` says: released if it was the grab, then unhighlighted if it was the highlight, otherwise unchanged |
| `WebHandling.WebInteractionHandler.FrameEndsHovering` | Packages/com.onvr.warehouse.grabinteraction/Runtime/Scripts/Platforms/WebInteractionHandler.cs:61-68 | after a frame with no drag and nothing held, the highlighted object is the one under the pointer; with the release key nothing is held |
| `WebHandling.WebInteractionHandler.MouseUpTouchesOnlyItsObjects` | Packages/com.onvr.warehouse.grabinteraction/Runtime/Scripts/Platforms/WebInteractionHandler.cs:153-183 | a mouse-up changes no object the handler does not track, and the one under the pointer only when there was no drag |
| `WebHandling.WebInteractionHandler.GrabKeyNeedsEmptyHands` | Packages/com.onvr.warehouse.grabinteraction/Runtime/Scripts/Platforms/WebInteractionHandler.cs:188-202 | the grab key changes nothing while something is held; a grab it makes holds the object under the pointer, Grabbed by the camera |
| `WebHandling.WebInteractionHandler.KeysTouchOnlyTheGrab` | Packages/com.onvr.warehouse.grabinteraction/Runtime/Scripts/Platforms/WebInteractionHandler.cs:185-219 | without the grab key, the keys change no object but the held one |
| `WebHandling.WebInteractionHandler.constructor` | Packages/com.onvr.warehouse.grabinteraction/Runtime/Scripts/Platforms/WebInteractionHandler.cs:14-47 | disabled, nothing tracked, not dragging, the configured thresholds kept |
| `WebHandling.WebInteractionHandler.Enable` | Packages/com.onvr.warehouse.grabinteraction/Runtime/Scripts/Platforms/WebInteractionHandler.cs:49-52 | enabled; nothing else changes |
| `WebHandling.WebInteractionHandler.Disable` | Packages/com.onvr.warehouse.grabinteraction/Runtime/Scripts/Platforms/WebInteractionHandler.cs:54-59 | disabled and tracking nothing; state as `AfterClearHighlight(AfterReleaseGrab(...))`: grab and highlight are nulled, the mouse state untouched. Each object ends as `AfterLetGo` says: the grab released, the highlight unhighlighted, any other object unchanged. Nothing it held is Grabbed, and nothing tracked becomes Grabbed |
| `WebHandling.WebInteractionHandler.ReleaseCurrentGrab` | Packages/com.onvr.warehouse.grabinteraction/Runtime/Scripts/Platforms/WebInteractionHandler.cs:291-298 | as `AfterReleaseGrab`: the held object is released and forgotten |
| `WebHandling.WebInteractionHandler.ClearHighlight` | Packages/com.onvr.warehouse.grabinteraction/Runtime/Scripts/Platforms/WebInteractionHandler.cs:282-289 | as `AfterClearHighlight`: the highlighted object is unhighlighted and forgotten |
| `WebHandling.WebInteractionHandler.OnObjectUnregistered` | Packages/com.onvr.warehouse.grabinteraction/Runtime/Scripts/Platforms/WebInteractionHandler.cs:75-81 | exactly the tracked references equal to the object are nulled |
| `WebHandling.WebInteractionHandler.HandleMouseDown` | Packages/com.onvr.warehouse.grabinteraction/Runtime/Scripts/Platforms/WebInteractionHandler.cs:109-122 | as `AfterMouseDown`: the start position and time recorded, dragging off, the object under the pointer, if any, highlighted and recorded |
| `WebHandling.WebInteractionHandler.HandleMouseHold` | Packages/com.onvr.warehouse.grabinteraction/Runtime/Scripts/Platforms/WebInteractionHandler.cs:124-151 | as `AfterMouseHold`: only the first hold strictly past the drag threshold starts a drag, grabbing the highlighted object iff it is Drag-eligible |
| `WebHandling.WebInteractionHandler.Click` | Packages/com.onvr.warehouse.grabinteraction/Runtime/Scripts/Platforms/WebInteractionHandler.cs:166-178 | as `AfterClick`: an eligible object under the pointer is grabbed and released |
| `WebHandling.WebInteractionHandler.HandleMouseUp` | Packages/com.onvr.warehouse.grabinteraction/Runtime/Scripts/Platforms/WebInteractionHandler.cs:153-183 | as `AfterMouseUp`, on every object it may touch: an untracked object, and after a drag the one under the pointer, stays unchanged (`MouseUpTouchesOnlyItsObjects`) |
| `WebHandling.WebInteractionHandler.UpdateMouseInteractions` | Packages/com.onvr.warehouse.grabinteraction/Runtime/Scripts/Platforms/WebInteractionHandler.cs:93-107 | as `AfterMouse`: button down starts, held drags, up ends, no button does nothing |
| `WebHandling.WebInteractionHandler.GrabUnderPointer` | Packages/com.onvr.warehouse.grabinteraction/Runtime/Scripts/Platforms/WebInteractionHandler.cs:188-202 | as `AfterGrabKey`: with nothing held, an eligible object under the pointer is grabbed and held |
| `WebHandling.WebInteractionHandler.UpdateKeyboardShortcuts` | Packages/com.onvr.warehouse.grabinteraction/Runtime/Scripts/Platforms/WebInteractionHandler.cs:185-219 | as `AfterKeys`: the grab key, then the release key; without the grab key only the held object can change (`KeysTouchOnlyTheGrab`), and the grab key needs empty hands (`GrabKeyNeedsEmptyHands`) |
| `WebHandling.WebInteractionHandler.UpdateObjectHighlighting` | Packages/com.onvr.warehouse.grabinteraction/Runtime/Scripts/Platforms/WebInteractionHandler.cs:221-239 | as `AfterHover`: only when not dragging and holding nothing, and only when the object under the pointer differs, the old one is unhighlighted and the new one highlighted and recorded |
| `WebHandling.WebInteractionHandler.UpdateHandler` | Packages/com.onvr.warehouse.grabinteraction/Runtime/Scripts/Platforms/WebInteractionHandler.cs:61-68 | nothing while disabled. Enabled: `DidFrame`, that is mouse, then keyboard, then hover, as `AfterFrame` |
| `FrameInputs.DragThresholdIsMonotone` | Packages/com.onvr.warehouse.grabinteraction/Runtime/Scripts/Platforms/MobileInteractionHandler.cs:185-186 | raising the drag threshold never turns a non-drag into a drag |
| `FrameInputs.NoDragInPlace` | Packages/com.onvr.warehouse.grabinteraction/Runtime/Scripts/Platforms/WebInteractionHandler.cs:128-129 | a pointer that has not moved never passes a non-negative drag threshold |

## Left out

- **Physics and positions.**
  - Object following: `Vector3.Lerp` following, `CalculateDragOffset`,
    `UpdateDraggedObjectPosition` and the Mobile drag follow. These are float vector math
    with no effect on grab state.
  - `GetDistanceFromPoint` (collider closest-point math). Distances are a parameter of the
    queries that use them, and `IsWithinGrabRange` takes the distance as given.
- **Engine queries.** Raycasts, `OverlapSphere`, `Input.*`, `Time.time` and `deltaTime` come in
  as fields of a per-frame record. `GetGrabbableAtInteractor`, `GetGrabbableAtScreenPosition`
  and `GetGrabbableAtMousePosition` keep only their null-camera guard and priority order.
- **Presentation.** Haptics, the line renderer, the gaze reticle, materials and highlight
  effects, and the cursor (`SetCursor`, `ResetCursor`) do not affect state.
- **Lifecycle.**
  - The lazy singleton `Instance`, `Awake`, `Start`, `OnDestroy`, `OnValidate`,
    `DontDestroyOnLoad` and `FindObjectOfType`: the manager is constructed explicitly. Handler
    instances are passed in, or created with their default settings.
  - The camera of the Mobile and Web handlers is fixed at construction, so their `Initialize`
    (a camera lookup) changes nothing.
  - `OnObjectRegistered` changes nothing the model keeps. In VR it only adds an
    `XRGrabInteractable` component.
- **Null references.**
  - `RegisterGrabbableObject` accepts null (InteractionManager.cs:91-101) and passes it to the
    active handler. The VR `OnObjectRegistered` then dereferences it and throws
    (VRInteractionHandler.cs:266-271). The model accepts null and delivers the notice, but
    its `OnObjectRegistered` changes no state, so this exception is not modelled.
  - The VR remote pass iterates `_interactors` without the null test the direct pass makes
    (VRInteractionHandler.cs:177 against 139). Before `Initialize` that throws; the model
    starts with an empty interactor list, so the exception is not modelled.
- **Default arguments.** `FindClosestGrabbableObject`'s `maxRange` defaults to
  `float.MaxValue` (InteractionManager.cs:151). The model always takes `maxRange` explicitly, and
  has no largest `real` to stand for the default.
- **Per-frame following.** `UpdateGrabbedObjectPosition` (the third branch of the direct pass),
  haptics and the remote-grab line change no grab state and are left out, as are
  `CalculateDragOffset` and `UpdateDraggedObjectPosition` after the keyboard grab.
- **Timing.** The 0.1 s delay of `ReturnToIdle` is not modelled. A pending call may fire at
  any later step of a trace.
- **Numbers.** C# `float` is modelled as `real`, so rounding is not modelled.
- **Events.** UnityEvent and C# event listeners are outside the model; only the order of
  notifications is logged.
- **Out of scope.** Editor tools, debug UI, test scaffolding and Articy integration.
- `Grabbables.GrabbableObject.ReturnToIdle`: models the code as written. The traces behind
  `Grabbables.RunKeepsCoherent` and `Grabbables.RunKeepsKinematic` use the corrected
  `Grabbables.AfterReturnToIdleFixed` instead (see Findings).
- Manager.InteractionManager.SetupAndActivate: states the table, the activation, the VR
  interactors, the previous handler's cleared references and which handlers may change, but
  does not repeat what `SetupPlatformHandlers` states handler by handler (the kept grabs of an
  assigned VR handler, the defaults of a created handler) or what `ActivateHandler` states of
  the new handler's pointer state and references and of each tracked object's `AfterLetGo`
  outcome. Carrying every one of those through two
  calls made the proof too costly for the verifier.
- Manager.InteractionManager.Initialize: states the same as `SetupAndActivate`, plus the
  detector's cache, and leaves out the same handler-by-handler facts for the same reason.

## Findings

| source | as written | input that shows it | evidently intended | confidence | as-written member | corrected member |
|---|---|---|---|---|---|---|
| Packages/com.onvr.warehouse.grabinteraction/Runtime/Scripts/Core/GrabbableObject.cs:247-250 | `ReturnToIdle`, scheduled 0.1 s after every release, sets Idle whatever the state | release an object, grab it again (DirectHand) within 0.1 s, then let the pending `ReturnToIdle` fire: the object is Idle with a grabber, its holder's `Release` is ignored, and the kinematic flag forced by the grab is never restored | only a Released object returns to Idle | not executed | `Grabbables.RegrabBeforeReturnToIdleCounterexample` | `Grabbables.RunKeepsCoherent` |
