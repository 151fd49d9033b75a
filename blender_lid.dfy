/**
 * `BlenderLidController`: the blender lid as a small state machine. Two
 * flags say whether the lid rests open or closed; at most one tween, the
 * opening or the closing one, is in flight. A tween is identified by a
 * number; the completion of a tween is an event of its own, and a tween
 * that was killed never completes (DOTween's `Kill` skips `OnComplete`).
 */
module BlenderLid {

  datatype Option<T> = None | Some(value: T)

  /** What a caller of `OpenAsync` or `CloseAsync` awaits. */
  datatype Wait =
    | AlreadyDone                  // the shared completed task `_emptyTask`
    | TweenCompletion(tween: nat)  // `AsyncWaitForCompletion()` of that tween

  /** The four situations the invariant allows. */
  datatype LidPhase = Closed | Opening | Opened | Closing

  class BlenderLidController {
    /** Serialized settings with their inspector defaults. */
    const animationDuration: real
    const animationJumpPower: real

    var isOpened: bool
    var isClosed: bool
    var openingTween: Option<nat>
    var closingTween: Option<nat>
    /** Tweens created so far; the next one gets this number. */
    var tweensCreated: nat

    /**
     * Never open and closed at once; at most one tween in flight; a tween
     * is in flight exactly when neither flag is set.
     */
    ghost predicate Valid()
      reads this
    {
      && !(isOpened && isClosed)
      && !(openingTween.Some? && closingTween.Some?)
      && ((!isOpened && !isClosed) <==> (openingTween.Some? || closingTween.Some?))
      && (openingTween.Some? ==> openingTween.value < tweensCreated)
      && (closingTween.Some? ==> closingTween.value < tweensCreated)
    }

    function Phase(): LidPhase
      reads this
      requires Valid()
    {
      if isClosed then Closed
      else if isOpened then Opened
      else if openingTween.Some? then Opening
      else Closing
    }

    /**
     * Whether an `await` on `wait` is still suspended. `AsyncWaitForCompletion`
     * also returns when its tween is killed, so the wait is over as soon as
     * the lid no longer holds that tween.
     */
    predicate Pending(wait: Wait)
      reads this
    {
      wait.TweenCompletion? && (openingTween == Some(wait.tween) || closingTween == Some(wait.tween))
    }

    /** The lid starts closed, at rest, with no tween. */
    constructor ()
      ensures Valid() && Phase() == Closed
      ensures isClosed && !isOpened && openingTween == None && closingTween == None
      ensures tweensCreated == 0
      ensures animationDuration == 1.0 && animationJumpPower == 0.5
    {
      animationDuration := 1.0;
      animationJumpPower := 0.5;
      isOpened := false;
      isClosed := true;
      openingTween := None;
      closingTween := None;
      tweensCreated := 0;
    }

    /**
     * `OpenAsync`: nothing to do when already open. Otherwise the lid is no
     * longer closed, a closing tween is killed, and the opening tween in
     * flight is reused or a new one started.
     */
    method OpenAsync() returns (wait: Wait)
      requires Valid()
      modifies this
      ensures Valid()
      ensures old(isOpened) ==> wait == AlreadyDone && unchanged(this)
      ensures !old(isOpened) ==>
                && !isOpened && !isClosed && closingTween == None
                && openingTween.Some? && wait == TweenCompletion(openingTween.value)
                && Phase() == Opening
      ensures !old(isOpened) && old(openingTween).Some? ==>
                openingTween == old(openingTween) && tweensCreated == old(tweensCreated)
      ensures !old(isOpened) && old(openingTween).None? ==>
                openingTween == Some(old(tweensCreated)) && tweensCreated == old(tweensCreated) + 1
    {
      if isOpened {
        return AlreadyDone;
      }
      isClosed := false;
      if closingTween.Some? {
        closingTween := None;
      }
      if openingTween.None? {
        openingTween := Some(tweensCreated);
        tweensCreated := tweensCreated + 1;
      }
      wait := TweenCompletion(openingTween.value);
    }

    /** `CloseAsync`, the mirror image of `OpenAsync`. */
    method CloseAsync() returns (wait: Wait)
      requires Valid()
      modifies this
      ensures Valid()
      ensures old(isClosed) ==> wait == AlreadyDone && unchanged(this)
      ensures !old(isClosed) ==>
                && !isOpened && !isClosed && openingTween == None
                && closingTween.Some? && wait == TweenCompletion(closingTween.value)
                && Phase() == Closing
      ensures !old(isClosed) && old(closingTween).Some? ==>
                closingTween == old(closingTween) && tweensCreated == old(tweensCreated)
      ensures !old(isClosed) && old(closingTween).None? ==>
                closingTween == Some(old(tweensCreated)) && tweensCreated == old(tweensCreated) + 1
    {
      if isClosed {
        return AlreadyDone;
      }
      isOpened := false;
      if openingTween.Some? {
        openingTween := None;
      }
      if closingTween.None? {
        closingTween := Some(tweensCreated);
        tweensCreated := tweensCreated + 1;
      }
      wait := TweenCompletion(closingTween.value);
    }

    /**
     * Tween `tween` runs to its end: the `OnComplete` callback of the opening
     * or closing tween clears it and sets its flag. A tween that is no longer
     * held (it was killed) has no callback left to run.
     */
    method OnTweenCompleted(tween: nat)
      requires Valid()
      modifies this
      ensures Valid()
      ensures old(openingTween) == Some(tween) ==>
                isOpened && !isClosed && openingTween == None && closingTween == None && Phase() == Opened
      ensures old(closingTween) == Some(tween) ==>
                isClosed && !isOpened && openingTween == None && closingTween == None && Phase() == Closed
      ensures old(openingTween) != Some(tween) && old(closingTween) != Some(tween) ==> unchanged(this)
      ensures tweensCreated == old(tweensCreated)
    {
      if openingTween == Some(tween) {
        openingTween := None;
        isOpened := true;
      } else if closingTween == Some(tween) {
        closingTween := None;
        isClosed := true;
      }
    }

    /** Lets whatever is awaited on `wait` finish: the tween, if any, completes. */
    method Settle(wait: Wait)
      requires Valid()
      modifies this
      ensures Valid()
      ensures wait.AlreadyDone? ==> unchanged(this)
      ensures wait.TweenCompletion? && old(openingTween) == Some(wait.tween) ==> Phase() == Opened
      ensures wait.TweenCompletion? && old(closingTween) == Some(wait.tween) ==> Phase() == Closed
      ensures !old(Pending(wait)) ==> unchanged(this)
      ensures !Pending(wait)
      ensures tweensCreated == old(tweensCreated)
    {
      if wait.TweenCompletion? {
        OnTweenCompleted(wait.tween);
      }
    }
  }

  /**
   * Closing while the lid is opening kills the opening tween: whoever awaited
   * the opening resumes at once, and that tween never completes later.
   */
  method CloseWhileOpening() returns (openingAwaitResumed: bool, phaseAfterStaleCompletion: LidPhase, phaseAtEnd: LidPhase)
    ensures openingAwaitResumed
    ensures phaseAfterStaleCompletion == Closing
    ensures phaseAtEnd == Closed
  {
    var lid := new BlenderLidController();
    var opening := lid.OpenAsync();
    var closing := lid.CloseAsync();
    openingAwaitResumed := !lid.Pending(opening);
    lid.Settle(opening);
    phaseAfterStaleCompletion := lid.Phase();
    lid.Settle(closing);
    phaseAtEnd := lid.Phase();
  }

  /** Two `OpenAsync` calls in a row await one and the same tween; a third, once open, awaits nothing. */
  method RepeatedOpen() returns (first: Wait, second: Wait, third: Wait)
    ensures first == second && first.TweenCompletion?
    ensures third == AlreadyDone
  {
    var lid := new BlenderLidController();
    first := lid.OpenAsync();
    second := lid.OpenAsync();
    lid.Settle(second);
    third := lid.OpenAsync();
  }
}
