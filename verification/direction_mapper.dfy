/**
 * DirectionMapper: plays clips on the character's SkeletonAnimation without
 * re-issuing a clip a track already plays, and swaps the skeleton data asset
 * when the character's facing direction changes.
 */
module DirectionMapping {
  import opened Wrappers
  import opened Spine

  /**
   * PlayClip's effect on an animation state: the request is dropped when the
   * track already plays an animation of that name, whatever its loop flag;
   * otherwise SetAnimation is issued.
   */
  function PlayClipOn(v: StateView, clip: string, trackIndex: int, doLoop: bool): (r: StateView)
    ensures Plays(r, trackIndex, clip)
    ensures Plays(v, trackIndex, clip) ==> r == v
    ensures !Plays(v, trackIndex, clip) ==> r.tracks[trackIndex] == TrackEntry(clip, doLoop)
    ensures r.calls == v.calls <==> Plays(v, trackIndex, clip)
    ensures r.calls != v.calls ==> r.calls == v.calls + [SetAnimationCall(trackIndex, clip, doLoop)]
    ensures forall t :: t != trackIndex ==> (t in r.tracks <==> t in v.tracks)
    ensures forall t :: t != trackIndex && t in v.tracks ==> r.tracks[t] == v.tracks[t]
  {
    if Plays(v, trackIndex, clip) then v else Issue(v, trackIndex, clip, doLoop)
  }

  /** Playing the same clip twice on a track issues at most one call, whatever the two loop flags. */
  lemma PlayClipIdempotent(v: StateView, clip: string, trackIndex: int, firstLoop: bool, secondLoop: bool)
    ensures PlayClipOn(PlayClipOn(v, clip, trackIndex, firstLoop), clip, trackIndex, secondLoop)
         == PlayClipOn(v, clip, trackIndex, firstLoop)
  {
  }

  /**
   * The first index i with "_" + suffixes[i] == direction (the search loop of
   * SetCurrentDirection), or None when no suffix matches.
   */
  function FirstMatch(suffixes: seq<string>, direction: string): (r: Option<nat>)
    ensures r.Some? ==> r.value < |suffixes| && "_" + suffixes[r.value] == direction
    ensures r.Some? ==> forall j :: 0 <= j < r.value ==> "_" + suffixes[j] != direction
    ensures r.None? ==> forall j :: 0 <= j < |suffixes| ==> "_" + suffixes[j] != direction
  {
    if |suffixes| == 0 then None
    else if "_" + suffixes[0] == direction then Some(0)
    else match FirstMatch(suffixes[1..], direction)
      case None => None
      case Some(k) => Some(k + 1)
  }

  function Max(a: int, b: int): int
  {
    if a < b then b else a
  }

  /**
   * The data asset after SetCurrentDirection(direction): unchanged when the
   * direction is the cached one; otherwise the asset at the selected index
   * (index 0 without sprite directions, the first matching suffix with them),
   * unless there is no match or the asset there is null.
   */
  function NextAsset(current: Option<string>, asset: Option<DataAsset>, assets: seq<Option<DataAsset>>,
                     suffixes: seq<string>, direction: string): (r: Option<DataAsset>)
    requires |assets| >= Max(1, |suffixes|)
    ensures current == Some(direction) ==> r == asset
    ensures r == asset || r.Some?
    ensures current != Some(direction) && |suffixes| == 0 ==> r == (if assets[0].Some? then assets[0] else asset)
    ensures current != Some(direction) && |suffixes| > 0 ==>
              match FirstMatch(suffixes, direction)
              case None => r == asset
              case Some(i) => r == (if assets[i].Some? then assets[i] else asset)
  {
    if current == Some(direction) then asset
    else
      var index := if |suffixes| == 0 then Some(0) else FirstMatch(suffixes, direction);
      match index
      case None => asset
      case Some(i) => if assets[i].Some? then assets[i] else asset
  }

  /** How many SetCurrentDirection calls in `directions`, starting from the cached `current`, change the direction. */
  function Changes(current: Option<string>, directions: seq<string>): nat
    decreases |directions|
  {
    if |directions| == 0 then 0
    else (if current == Some(directions[0]) then 0 else 1) + Changes(Some(directions[0]), directions[1..])
  }

  /** Repeating the last direction of a run of SetCurrentDirection calls costs no further Initialize. */
  lemma {:induction false} RepeatedDirectionIsFree(current: Option<string>, directions: seq<string>)
    requires |directions| > 0
    ensures Changes(current, directions + [directions[|directions| - 1]]) == Changes(current, directions)
    decreases |directions|
  {
    var last := directions[|directions| - 1];
    if |directions| == 1 {
      assert directions + [last] == [last, last];
      assert Changes(Some(last), [last]) == 0;
    } else {
      assert (directions + [last])[1..] == directions[1..] + [last];
      RepeatedDirectionIsFree(Some(directions[0]), directions[1..]);
    }
  }

  class DirectionMapper {
    var skeletonAnimation: SkeletonAnimation?
    var skeletonDataAssets: array<Option<DataAsset>>
    var currentDirection: Option<string>

    constructor (skeletonAnimation: SkeletonAnimation?, skeletonDataAssets: array<Option<DataAsset>>)
      ensures this.skeletonAnimation == skeletonAnimation && this.skeletonDataAssets == skeletonDataAssets
      ensures currentDirection == None
    {
      this.skeletonAnimation := skeletonAnimation;
      this.skeletonDataAssets := skeletonDataAssets;
      currentDirection := None;
    }

    /** The animation state PlayClip acts on, or null when the skeleton or its state is missing. */
    function Target(): AnimationState?
      reads this, skeletonAnimation
    {
      if skeletonAnimation != null then skeletonAnimation.state else null
    }

    method PlayClip(clip: string, trackIndex: int, doLoop: bool)
      modifies Target()
      ensures Target() != null ==> Target().View() == PlayClipOn(old(Target().View()), clip, trackIndex, doLoop)
    {
      if skeletonAnimation != null && skeletonAnimation.state != null {
        var track := skeletonAnimation.state.GetCurrent(trackIndex);
        if track.Some? && track.value.name == clip {
          return;
        }
        skeletonAnimation.state.SetAnimation(trackIndex, clip, doLoop);
      }
    }

    /**
     * `spriteDirections` are the suffixes of the character's sprite directions
     * (AC's code fetches the Char component lazily; here it is an input).
     * The editor keeps skeletonDataAssets at length max(1, directions), which
     * keeps both lookups in bounds.
     */
    method SetCurrentDirection(newDirection: string, spriteDirections: seq<string>)
      requires currentDirection != Some(newDirection) ==> skeletonAnimation != null
      requires skeletonDataAssets.Length >= Max(1, |spriteDirections|)
      modifies this, skeletonAnimation
      ensures currentDirection == Some(newDirection)
      ensures skeletonAnimation == old(skeletonAnimation) && skeletonDataAssets == old(skeletonDataAssets)
      ensures skeletonAnimation != null ==>
                skeletonAnimation.skeletonDataAsset
                  == NextAsset(old(currentDirection), old(skeletonAnimation.skeletonDataAsset),
                               skeletonDataAssets[..], spriteDirections, newDirection)
      ensures skeletonAnimation != null ==>
                skeletonAnimation.initializations
                  == old(skeletonAnimation.initializations) + (if old(currentDirection) == Some(newDirection) then 0 else 1)
      ensures skeletonAnimation != null && old(currentDirection) == Some(newDirection) ==>
                skeletonAnimation.state == old(skeletonAnimation.state)
      ensures skeletonAnimation != null && old(currentDirection) != Some(newDirection) ==>
                skeletonAnimation.state != null && fresh(skeletonAnimation.state)
                && skeletonAnimation.state.View() == StateView(map[], [])
    {
      if currentDirection != Some(newDirection) {
        currentDirection := Some(newDirection);
        if |spriteDirections| == 0 {
          SetSkeleteonDataAsset(skeletonDataAssets[0]);
        } else {
          var i := 0;
          while i < |spriteDirections|
            invariant 0 <= i <= |spriteDirections|
            invariant forall j :: 0 <= j < i ==> "_" + spriteDirections[j] != newDirection
            invariant skeletonAnimation.skeletonDataAsset == old(skeletonAnimation.skeletonDataAsset)
          {
            if newDirection == "_" + spriteDirections[i] {
              SetSkeleteonDataAsset(skeletonDataAssets[i]);
              break;
            }
            i := i + 1;
          }
        }
        skeletonAnimation.Initialize();
      }
    }

    /** A null asset never replaces the current one, and then the SkeletonAnimation is not touched at all. */
    method SetSkeleteonDataAsset(skeletonDataAsset: Option<DataAsset>)
      requires skeletonDataAsset.Some? ==> skeletonAnimation != null
      modifies skeletonAnimation
      ensures skeletonDataAsset.None? && skeletonAnimation != null ==> unchanged(skeletonAnimation)
      ensures skeletonAnimation != null ==>
                skeletonAnimation.skeletonDataAsset
                  == (if skeletonDataAsset.Some? then skeletonDataAsset else old(skeletonAnimation.skeletonDataAsset))
      ensures skeletonAnimation != null ==> skeletonAnimation.state == old(skeletonAnimation.state)
      ensures skeletonAnimation != null ==> skeletonAnimation.initializations == old(skeletonAnimation.initializations)
    {
      if skeletonDataAsset.Some? {
        skeletonAnimation.skeletonDataAsset := skeletonDataAsset;
      }
    }
  }
}
