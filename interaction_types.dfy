/**
  The enumerations shared by the grab-interaction package (Core/InteractionTypes.cs).

  `InteractionPlatform` is a C# `[Flags]` enum over `int`, so a value of it carries a 32-bit
  vector, with one constant per named member.  The two plain enums become datatypes.
*/
module InteractionTypes {

  /** A value of the `[Flags]` enum `InteractionPlatform`: any 32-bit pattern. */
  datatype InteractionPlatform = Flags(bits: bv32)

  /** `InteractionPlatform.None` */
  const NoPlatform := Flags(0)
  const VR := Flags(1 << 0)
  const Mobile := Flags(1 << 1)
  const Web := Flags(1 << 2)
  const Desktop := Flags(1 << 3)
  /** `InteractionPlatform.All` */
  const AllPlatforms := Flags(VR.bits | Mobile.bits | Web.bits | Desktop.bits)

  /** The four named single platforms, in declaration order. */
  const SinglePlatforms: seq<InteractionPlatform> := [VR, Mobile, Web, Desktop]

  /** `Enum.HasFlag` on a flags enum: every bit of `flag` is set in `value`. */
  predicate HasFlag(value: InteractionPlatform, flag: InteractionPlatform) {
    value.bits & flag.bits == flag.bits
  }

  /** One of the four named platforms. */
  predicate IsSinglePlatform(p: InteractionPlatform) {
    p == VR || p == Mobile || p == Web || p == Desktop
  }

  datatype GrabInteractionType = DirectHand | RemoteGrab | TapClick | GazePick | Drag

  datatype GrabState = Idle | Highlighted | Grabbed | Released

  const AllInteractionTypes: seq<GrabInteractionType> := [DirectHand, RemoteGrab, TapClick, GazePick, Drag]
  const AllGrabStates: seq<GrabState> := [Idle, Highlighted, Grabbed, Released]

  /** Every element of `s` occurs once. */
  predicate Distinct<T(==)>(s: seq<T>) {
    forall i, j :: 0 <= i < j < |s| ==> s[i] != s[j]
  }

  /** VR, Mobile, Web and Desktop are four different single bits, none of them `None`. */
  lemma PlatformsAreDistinctSingleBits()
    ensures Distinct(SinglePlatforms)
    ensures forall k :: 0 <= k < |SinglePlatforms| ==>
      SinglePlatforms[k] != NoPlatform && SinglePlatforms[k].bits & (SinglePlatforms[k].bits - 1) == 0
    ensures forall i, j :: 0 <= i < j < |SinglePlatforms| ==> SinglePlatforms[i].bits & SinglePlatforms[j].bits == 0
  {
  }

  /** `All` carries exactly the four platform bits: it has the flag of a mask iff the mask
      uses no other bit, so in particular every single platform. */
  lemma AllIsUnionOfPlatforms(mask: InteractionPlatform)
    ensures HasFlag(AllPlatforms, mask) <==> mask.bits & !AllPlatforms.bits == 0
    ensures IsSinglePlatform(mask) ==> HasFlag(AllPlatforms, mask)
    ensures AllPlatforms.bits == 15
  {
  }

  /** For a single platform, `HasFlag` is bit membership: a mask lacking the bit rejects it. */
  lemma HasFlagOfSinglePlatform(value: InteractionPlatform, p: InteractionPlatform)
    requires IsSinglePlatform(p)
    ensures HasFlag(value, p) <==> value.bits & p.bits != 0
  {
  }

  /** `HasFlag(None)` holds of every value, because `None` has no bits. */
  lemma HasFlagOfNone(value: InteractionPlatform)
    ensures HasFlag(value, NoPlatform)
  {
  }

  /** The enum `GrabInteractionType` has five values and `GrabState` four. */
  lemma EnumerationsAreComplete(t: GrabInteractionType, s: GrabState)
    ensures t in AllInteractionTypes && |AllInteractionTypes| == 5 && Distinct(AllInteractionTypes)
    ensures s in AllGrabStates && |AllGrabStates| == 4 && Distinct(AllGrabStates)
  {
  }
}
