/**
  Platform classification (Core/PlatformDetector.cs).

  The Unity runtime signals that `DetectPlatform` reads become an `Environment` record, and
  the static cache `_cachedPlatform` becomes the field of a `PlatformDetector` object.
  The two tables are pure functions of the platform that `CurrentPlatform` yields.
*/
module PlatformDetection {
  import opened Wrappers
  import opened InteractionTypes

  /** The editor's `EditorUserBuildSettings.activeBuildTarget`, with every other target as `OtherTarget`. */
  datatype BuildTarget = Android | IOS | WebGL | StandaloneWindows | StandaloneOSX | StandaloneLinux64 | OtherTarget

  /** What `DetectPlatform` can observe about the running process. `isEditor` is the
      compile-time symbol `UNITY_EDITOR`; `activeBuildTarget` only matters when it is set. */
  datatype Environment = Environment(
    xrEnabled: bool,
    loadedDeviceName: string,
    isMobilePlatform: bool,
    isWebGLPlayer: bool,
    isEditor: bool,
    activeBuildTarget: BuildTarget)

  /** An XR device is running: `XRSettings.enabled` and a device name other than "None". */
  predicate XRActive(env: Environment) {
    env.xrEnabled && env.loadedDeviceName != "None"
  }

  /** Classification in priority order; the first signal that matches wins. */
  function DetectPlatform(env: Environment): (p: InteractionPlatform)
    ensures IsSinglePlatform(p) && p != NoPlatform && p != AllPlatforms
    ensures p == VR <==> XRActive(env)
    ensures !XRActive(env) && env.isMobilePlatform ==> p == Mobile
    ensures !XRActive(env) && !env.isMobilePlatform && env.isWebGLPlayer ==> p == Web
    ensures !env.isEditor ==> (p == Desktop <==> !XRActive(env) && !env.isMobilePlatform && !env.isWebGLPlayer)
    ensures p == Desktop ==> !env.isEditor || env.activeBuildTarget !in {Android, IOS, WebGL}
    ensures env.isEditor && !XRActive(env) && !env.isMobilePlatform && !env.isWebGLPlayer ==>
              && (p == Mobile <==> env.activeBuildTarget in {Android, IOS})
              && (p == Web <==> env.activeBuildTarget == WebGL)
  {
    if XRActive(env) then VR
    else if env.isMobilePlatform then Mobile
    else if env.isWebGLPlayer then Web
    else if env.isEditor then
      match env.activeBuildTarget
      case Android => Mobile
      case IOS => Mobile
      case WebGL => Web
      case StandaloneWindows => Desktop
      case StandaloneOSX => Desktop
      case StandaloneLinux64 => Desktop
      case OtherTarget => Desktop
    else Desktop
  }

  /** The `SupportsInteractionType` switch, for a given current platform. */
  predicate Supports(platform: InteractionPlatform, t: GrabInteractionType) {
    match t
    case DirectHand => HasFlag(platform, VR)
    case RemoteGrab => HasFlag(platform, VR)
    case TapClick => HasFlag(platform, Mobile) || HasFlag(platform, Web) || HasFlag(platform, Desktop)
    case GazePick => HasFlag(platform, Mobile) || HasFlag(platform, Web) || HasFlag(platform, VR)
    case Drag => HasFlag(platform, Mobile) || HasFlag(platform, Web)
  }

  /** The `GetPreferredInteractionTypes` switch, for a given current platform. */
  function PreferredTypes(platform: InteractionPlatform): (r: seq<GrabInteractionType>)
    ensures |r| > 0 && Distinct(r)
    ensures platform == Desktop ==> TapClick in r && GazePick in r && Drag !in r
    ensures !IsSinglePlatform(platform) ==> r == [TapClick]
    ensures platform in {VR, Mobile, Web} ==> forall t :: t in r ==> Supports(platform, t)
  {
    if platform == VR then [DirectHand, RemoteGrab, GazePick]
    else if platform == Mobile then [TapClick, GazePick, Drag]
    else if platform == Web then [TapClick, GazePick, Drag]
    else if platform == Desktop then [TapClick, GazePick]
    else [TapClick]
  }

  /** The table seen from a detected (single) platform: which kinds each platform accepts. */
  lemma SupportTable(p: InteractionPlatform)
    requires IsSinglePlatform(p)
    ensures Supports(p, DirectHand) <==> p == VR
    ensures Supports(p, RemoteGrab) <==> p == VR
    ensures Supports(p, TapClick) <==> p in {Mobile, Web, Desktop}
    ensures Supports(p, GazePick) <==> p in {Mobile, Web, VR}
    ensures Supports(p, Drag) <==> p in {Mobile, Web}
  {
  }

  /** Desktop prefers GazePick although the support table refuses it there: the preference
      list is not contained in the supported kinds for every platform. */
  lemma DesktopPrefersUnsupportedGaze()
    ensures GazePick in PreferredTypes(Desktop) && !Supports(Desktop, GazePick)
    ensures exists t :: t in PreferredTypes(Desktop) && !Supports(Desktop, t)
  {
  }

  /** The static `_cachedPlatform` of `PlatformDetector`, with the operations that use it. */
  class PlatformDetector {
    var cachedPlatform: Option<InteractionPlatform>

    /** A filled cache always holds a result of detection. */
    ghost predicate Valid()
      reads this
    {
      cachedPlatform.Some? ==> IsSinglePlatform(cachedPlatform.value)
    }

    constructor ()
      ensures Valid() && cachedPlatform == None
    {
      cachedPlatform := None;
    }

    /** `CurrentPlatform`: the cached value if there is one, else detect now and remember it. */
    method CurrentPlatform(env: Environment) returns (p: InteractionPlatform)
      requires Valid()
      modifies this`cachedPlatform
      ensures Valid() && cachedPlatform == Some(p) && IsSinglePlatform(p)
      ensures old(cachedPlatform).Some? ==> p == old(cachedPlatform).value
      ensures old(cachedPlatform).None? ==> p == DetectPlatform(env)
    {
      if cachedPlatform.Some? {
        return cachedPlatform.value;
      }
      cachedPlatform := Some(DetectPlatform(env));
      p := cachedPlatform.value;
    }

    /** `RefreshPlatformDetection`: forget the cached value, so the next read detects again. */
    method RefreshPlatformDetection()
      modifies this`cachedPlatform
      ensures Valid() && cachedPlatform == None
    {
      cachedPlatform := None;
    }

    /** `SupportsInteractionType`: the support table at the current platform. */
    method SupportsInteractionType(env: Environment, t: GrabInteractionType) returns (b: bool)
      requires Valid()
      modifies this`cachedPlatform
      ensures Valid() && cachedPlatform.Some?
      ensures old(cachedPlatform).Some? ==> cachedPlatform == old(cachedPlatform)
      ensures old(cachedPlatform).None? ==> cachedPlatform == Some(DetectPlatform(env))
      ensures b == Supports(cachedPlatform.value, t)
    {
      var p := CurrentPlatform(env);
      b := Supports(p, t);
    }

    /** `GetPreferredInteractionTypes`: the preference list at the current platform. */
    method GetPreferredInteractionTypes(env: Environment) returns (r: seq<GrabInteractionType>)
      requires Valid()
      modifies this`cachedPlatform
      ensures Valid() && cachedPlatform.Some?
      ensures old(cachedPlatform).Some? ==> cachedPlatform == old(cachedPlatform)
      ensures old(cachedPlatform).None? ==> cachedPlatform == Some(DetectPlatform(env))
      ensures r == PreferredTypes(cachedPlatform.value) && |r| > 0
    {
      var p := CurrentPlatform(env);
      r := PreferredTypes(p);
    }
  }

  /** Two reads with no refresh between them agree, even if the environment changed; after
      a refresh the next read reflects the environment at that time. */
  method ReadsAreMemoised(d: PlatformDetector, env1: Environment, env2: Environment)
    returns (first: InteractionPlatform, second: InteractionPlatform, afterRefresh: InteractionPlatform)
    requires d.Valid()
    modifies d
    ensures second == first
    ensures afterRefresh == DetectPlatform(env2)
  {
    first := d.CurrentPlatform(env1);
    second := d.CurrentPlatform(env2);
    d.RefreshPlatformDetection();
    afterRefresh := d.CurrentPlatform(env2);
  }
}
