/**
 * CompletionListener: remembers the name of the clip an action waits for and
 * forgets it when Spine reports that clip complete.  waitingAnimation is a C#
 * string that starts out null (None here); IsWaiting compares it with the
 * empty string only, so a listener that was never told what to wait for
 * counts as waiting.
 */
module Completion {
  import opened Wrappers
  import opened Spine
  import opened DirectionMapping

  /** IsWaiting: anything but the empty string, null included, means waiting. */
  predicate Waiting(waitingAnimation: Option<string>)
    ensures Waiting(waitingAnimation) <==> waitingAnimation.None? || |waitingAnimation.value| > 0
  {
    waitingAnimation != Some("")
  }

  /** waitingAnimation after a Complete event for an animation named `name`. */
  function AfterComplete(waitingAnimation: Option<string>, name: string): (r: Option<string>)
    ensures waitingAnimation == Some(name) ==> !Waiting(r)
    ensures waitingAnimation != Some(name) ==> r == waitingAnimation
  {
    if waitingAnimation == Some(name) then Some("") else waitingAnimation
  }

  /** waitingAnimation after a series of Complete events, in order. */
  function Replay(waitingAnimation: Option<string>, names: seq<string>): Option<string>
    decreases |names|
  {
    if |names| == 0 then waitingAnimation else Replay(AfterComplete(waitingAnimation, names[0]), names[1..])
  }

  /** Once cleared, no completion event makes the listener wait again. */
  lemma {:induction false} ClearedStaysCleared(names: seq<string>)
    ensures Replay(Some(""), names) == Some("")
    decreases |names|
  {
    if |names| > 0 {
      ClearedStaysCleared(names[1..]);
    }
  }

  /** After SetWaitingAnimation(clip) the listener waits until a Complete event for `clip` arrives, and then stops. */
  lemma {:induction false} WaitsUntilCompleted(clip: string, names: seq<string>)
    ensures Waiting(Replay(Some(clip), names)) <==> clip != "" && clip !in names
    decreases |names|
  {
    if |names| > 0 {
      assert names == [names[0]] + names[1..];
      if names[0] == clip {
        ClearedStaysCleared(names[1..]);
      } else {
        WaitsUntilCompleted(clip, names[1..]);
      }
    }
  }

  /** A listener never given a clip keeps waiting whatever completes, since no animation name equals null. */
  lemma {:induction false} NeverSetWaitsForever(names: seq<string>)
    ensures Replay(None, names) == None && Waiting(Replay(None, names))
    decreases |names|
  {
    if |names| > 0 {
      NeverSetWaitsForever(names[1..]);
    }
  }

  /**
   * The handler registrations after `-=` then `+=` on the Complete event of
   * `source`: at least one, and never one more than before.
   */
  function Reregister(handlers: multiset<AnimationState>, source: AnimationState): (r: multiset<AnimationState>)
    ensures r[source] == (if handlers[source] == 0 then 1 else handlers[source])
    ensures r[source := 0] == handlers[source := 0]
  {
    (handlers - multiset{source}) + multiset{source}
  }

  /** What the engine can observe of a CompletionListener: the awaited clip, its two sources and its registrations. */
  datatype ListenerView = ListenerView(waitingAnimation: Option<string>, skeletonAnimation: SkeletonAnimation?,
                                       skeletonGraphic: SkeletonGraphic?, handlers: multiset<AnimationState>)

  /**
   * A listener just added beside a DirectionMapper whose SkeletonAnimation is
   * `skeletonAnimation`, with that animation's `state`, once OnEnable has run:
   * it has no clip yet (and so counts as waiting) and is registered exactly
   * once, on that state, if there is one.
   */
  function Enabled(skeletonAnimation: SkeletonAnimation?, state: AnimationState?): (r: ListenerView)
    ensures r.waitingAnimation.None? && Waiting(r.waitingAnimation)
    ensures r.skeletonAnimation == skeletonAnimation && r.skeletonGraphic == null
    ensures state != null ==> r.handlers[state] == 1 && |r.handlers| == 1
    ensures state == null ==> |r.handlers| == 0
  {
    ListenerView(None, skeletonAnimation, null, if state != null then multiset{state} else multiset{})
  }

  /**
   * A listener after SetWaitingAnimation(clip), when `source` is the state
   * whose Complete event it uses: it awaits the clip, keeps its sources, and
   * is registered on the source at least once but never once more.
   */
  function WaitingFor(v: ListenerView, source: AnimationState?, clip: string): (r: ListenerView)
    ensures r.waitingAnimation == Some(clip) && (Waiting(r.waitingAnimation) <==> clip != "")
    ensures r.skeletonAnimation == v.skeletonAnimation && r.skeletonGraphic == v.skeletonGraphic
    ensures source != null ==>
              r.handlers[source] == (if v.handlers[source] == 0 then 1 else v.handlers[source])
              && r.handlers[source := 0] == v.handlers[source := 0]
    ensures source == null ==> r.handlers == v.handlers
  {
    v.(waitingAnimation := Some(clip), handlers := if source != null then Reregister(v.handlers, source) else v.handlers)
  }

  class CompletionListener {
    var waitingAnimation: Option<string>
    var skeletonAnimation: SkeletonAnimation?
    var skeletonGraphic: SkeletonGraphic?
    /** How many times OnCompleteAnimation is registered on the Complete event of each AnimationState. */
    var handlers: multiset<AnimationState>

    constructor ()
      ensures waitingAnimation == None && skeletonAnimation == null && skeletonGraphic == null
      ensures handlers == multiset{}
    {
      waitingAnimation := None;
      skeletonAnimation := null;
      skeletonGraphic := null;
      handlers := multiset{};
    }

    /**
     * The AnimationState whose Complete event OnEnable, OnDisable and
     * SetWaitingAnimation act on: the SkeletonAnimation's if set, else the
     * SkeletonGraphic's.  Null when there is neither, or when the
     * SkeletonAnimation has no state yet.
     */
    function Source(): AnimationState?
      reads this, skeletonAnimation
    {
      if skeletonAnimation != null then skeletonAnimation.state
      else if skeletonGraphic != null then skeletonGraphic.animationState
      else null
    }

    function View(): ListenerView
      reads this
    {
      ListenerView(waitingAnimation, skeletonAnimation, skeletonGraphic, handlers)
    }

    /** Whether an action still waits on this listener: a clip was set and has not completed, or none was ever set. */
    predicate IsWaiting()
      reads this
      ensures waitingAnimation.None? ==> IsWaiting()
      ensures waitingAnimation.Some? ==> (IsWaiting() <==> waitingAnimation.value != "")
    {
      Waiting(waitingAnimation)
    }

    /**
     * `mapper`, `ownAnimation` and `ownGraphic` are what GetComponent finds on
     * the listener's GameObject.  The SkeletonAnimation is the mapper's, else
     * the object's own; the SkeletonGraphic is looked up only when neither a
     * SkeletonAnimation nor an earlier SkeletonGraphic is known.  One handler
     * is added, to the selected source only.
     */
    method OnEnable(mapper: DirectionMapper?, ownAnimation: SkeletonAnimation?, ownGraphic: SkeletonGraphic?)
      modifies this
      ensures var fromMapper := if mapper != null then mapper.skeletonAnimation else old(skeletonAnimation);
              skeletonAnimation == (if fromMapper != null then fromMapper else ownAnimation)
      ensures skeletonGraphic
                == (if skeletonAnimation == null && old(skeletonGraphic) == null then ownGraphic else old(skeletonGraphic))
      ensures handlers == old(handlers) + (if Source() != null then multiset{Source()} else multiset{})
      ensures waitingAnimation == old(waitingAnimation)
    {
      if mapper != null {
        skeletonAnimation := mapper.skeletonAnimation;
      }
      if skeletonAnimation == null {
        skeletonAnimation := ownAnimation;
      }
      if skeletonAnimation == null && skeletonGraphic == null {
        skeletonGraphic := ownGraphic;
      }
      if skeletonAnimation != null {
        if skeletonAnimation.state != null {
          handlers := handlers + multiset{skeletonAnimation.state};
        }
      } else if skeletonGraphic != null {
        handlers := handlers + multiset{skeletonGraphic.animationState};
      }
    }

    method OnDisable()
      modifies this
      ensures handlers == old(handlers) - (if Source() != null then multiset{Source()} else multiset{})
      ensures waitingAnimation == old(waitingAnimation)
      ensures skeletonAnimation == old(skeletonAnimation) && skeletonGraphic == old(skeletonGraphic)
    {
      if skeletonAnimation != null {
        if skeletonAnimation.state != null {
          handlers := handlers - multiset{skeletonAnimation.state};
        }
      } else if skeletonGraphic != null {
        handlers := handlers - multiset{skeletonGraphic.animationState};
      }
    }

    method SetWaitingAnimation(clip: string)
      modifies this
      ensures waitingAnimation == Some(clip)
      ensures IsWaiting() <==> clip != ""
      ensures handlers == (if Source() != null then Reregister(old(handlers), Source()) else old(handlers))
      ensures Source() == old(Source())
      ensures View() == WaitingFor(old(View()), old(Source()), clip)
      ensures skeletonAnimation == old(skeletonAnimation) && skeletonGraphic == old(skeletonGraphic)
    {
      if skeletonAnimation != null {
        if skeletonAnimation.state != null {
          handlers := Reregister(handlers, skeletonAnimation.state);
        }
      } else if skeletonGraphic != null {
        handlers := Reregister(handlers, skeletonGraphic.animationState);
      }
      waitingAnimation := Some(clip);
    }

    /** The Complete handler; Spine supplies the name of the animation of the completed track entry. */
    method OnCompleteAnimation(name: string)
      modifies this
      ensures waitingAnimation == AfterComplete(old(waitingAnimation), name)
      ensures skeletonAnimation == old(skeletonAnimation) && skeletonGraphic == old(skeletonGraphic)
      ensures handlers == old(handlers)
    {
      if Some(name) == waitingAnimation {
        waitingAnimation := Some("");
      }
    }
  }
}
