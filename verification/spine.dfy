/**
 * The part of the Spine runtime that the glue code talks to, reduced to what
 * it observes: an AnimationState is the current entry of every track plus the
 * log of SetAnimation calls issued to it.  What Spine does with those calls
 * (blending, timing, when Complete fires) is not modelled.
 */
module Spine {
  import opened Wrappers

  /** The current entry of one track: the name of its animation and whether it loops. */
  datatype TrackEntry = TrackEntry(name: string, loop: bool)

  /** One call of AnimationState.SetAnimation(trackIndex, clip, loop). */
  datatype Call = SetAnimationCall(trackIndex: int, clip: string, loop: bool)

  /** The value of an AnimationState at one moment. */
  datatype StateView = StateView(tracks: map<int, TrackEntry>, calls: seq<Call>)

  /** A skeleton data asset, by identity. */
  datatype DataAsset = DataAsset(id: nat)

  /** The state after SetAnimation(trackIndex, clip, loop): the track plays the clip and the call is logged. */
  function Issue(v: StateView, trackIndex: int, clip: string, loop: bool): StateView
  {
    StateView(v.tracks[trackIndex := TrackEntry(clip, loop)], v.calls + [SetAnimationCall(trackIndex, clip, loop)])
  }

  /** Whether track `trackIndex` currently plays an animation named `clip`. */
  predicate Plays(v: StateView, trackIndex: int, clip: string)
  {
    trackIndex in v.tracks && v.tracks[trackIndex].name == clip
  }

  class AnimationState {
    var tracks: map<int, TrackEntry>
    var calls: seq<Call>

    constructor ()
      ensures tracks == map[] && calls == []
    {
      tracks := map[];
      calls := [];
    }

    function View(): StateView
      reads this
    {
      StateView(tracks, calls)
    }

    /** GetCurrent(trackIndex): the track's current entry, None for an empty track. */
    function GetCurrent(trackIndex: int): (e: Option<TrackEntry>)
      reads this
      ensures e.Some? <==> trackIndex in tracks
      ensures e.Some? ==> e.value == tracks[trackIndex]
    {
      if trackIndex in tracks then Some(tracks[trackIndex]) else None
    }

    method SetAnimation(trackIndex: int, clip: string, loop: bool)
      modifies this
      ensures View() == Issue(old(View()), trackIndex, clip, loop)
    {
      tracks := tracks[trackIndex := TrackEntry(clip, loop)];
      calls := calls + [SetAnimationCall(trackIndex, clip, loop)];
    }
  }

  /** A SkeletonAnimation component: its AnimationState (null before it is set up), its data asset, and how often Initialize ran. */
  class SkeletonAnimation {
    var state: AnimationState?
    var skeletonDataAsset: Option<DataAsset>
    var initializations: nat

    constructor (state: AnimationState?, skeletonDataAsset: Option<DataAsset>)
      ensures this.state == state && this.skeletonDataAsset == skeletonDataAsset
      ensures initializations == 0
    {
      this.state := state;
      this.skeletonDataAsset := skeletonDataAsset;
      initializations := 0;
    }

    /**
     * Initialize(true): the skeleton is rebuilt from its data asset with a new
     * AnimationState, which has no tracks and no Complete subscribers yet.
     */
    method Initialize()
      modifies this
      ensures initializations == old(initializations) + 1
      ensures skeletonDataAsset == old(skeletonDataAsset)
      ensures state != null && fresh(state) && state.View() == StateView(map[], [])
    {
      initializations := initializations + 1;
      state := new AnimationState();
    }
  }

  /** A SkeletonGraphic component (UI rendering); only its AnimationState is used. */
  class SkeletonGraphic {
    const animationState: AnimationState

    constructor (animationState: AnimationState)
      ensures this.animationState == animationState
    {
      this.animationState := animationState;
    }
  }
}
