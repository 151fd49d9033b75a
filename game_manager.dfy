/**
 * `GameManager`: the decisions taken on a click, the placement of one
 * ingredient in the blender as a sequence of explicit events, the report of
 * a mix, the reset between levels and the layout of a level's ingredients.
 *
 * Each `async` method becomes a record of how far it got. A placement
 * (`InteractWithIngredientAsync`) is a `Placement` whose stage advances
 * when what it awaits completes; the game's `Task` for it is
 * `PlacementTask(index)`. A `CancellationTokenSource` is a number; cancelling
 * one puts its number in `cancelled`.
 */
module Game {
  import opened UnityTypes
  import opened Ingredients
  import opened BlenderLid
  import opened Blender
  import ColorCalculations
  import ResultsUI

  /** What the click's raycast reports. */
  datatype Hit =
    | NoHit                                             // no click this frame, or no collider on the interaction layers
    | IngredientHit(controller: IngredientController?)  // a collider tagged "Ingredient"; null when it has no `IngredientController`
    | MixButtonHit                                      // a collider tagged "MixButton"
    | OtherHit                                          // any other collider

  /** `_ingredientMovementTask`. */
  datatype MovementTask =
    | NoTask                     // still null
    | CompletedAtOnce            // the task of a click that placed nothing: it has already completed
    | PlacementTask(index: nat)  // the task of placement `index`

  /** How far one `InteractWithIngredientAsync` got. */
  datatype PlacementStage =
    | OpeningLid(lidWait: Wait)          // awaiting `OpenLidAsync`
    | Moving(moveMs: int)                // awaiting `MoveToAsync`, a delay of `moveMs`
    | Joining(source: nat, delayMs: int, jugResetDone: bool, delayElapsed: bool)
                                         // awaiting the jug reset joined with the delay on `source`'s token
    | ClosingLid(lidWait: Wait)          // awaiting `CloseLidAsync`
    | Finished                           // ran to the end
    | Canceled                           // the delay was cancelled: `Task.WhenAll` threw, the lid stays open
    | Faulted                            // a null reference ended it
    | FaultedAfterJugReset(jugResetDone: bool)
                                         // the delay's token could not be read, so it faulted; the jug reset
                                         // started just before (the arguments of `Task.WhenAll` are evaluated in order) still runs
  {
    predicate Ended() {
      Finished? || Canceled? || Faulted? || FaultedAfterJugReset?
    }
  }

  datatype Placement = Placement(ingredient: IngredientController, stage: PlacementStage)

  /** `InstantiateIngredients` places the instances, or indexes an empty array. */
  datatype Instantiation = Instantiated(instances: seq<IngredientController>) | IndexOutOfRange

  /** `INGREDIENTS_ROTATION_PERSPECTIVE_K`. */
  const IngredientsRotationPerspectiveK: real := 1.0

  function Claimed(c: IngredientController?): set<IngredientController> {
    if c == null then {} else {c}
  }

  function ClickedInstance(hit: Hit): IngredientController? {
    if hit.IngredientHit? then hit.controller else null
  }

  /** The sources cancelled once `source`, if there is one, is cancelled too. */
  function CancelSource(cancelled: set<nat>, source: Option<nat>): set<nat> {
    if source.Some? then cancelled + {source.value} else cancelled
  }

  class GameManager {
    const blender: BlenderController
    const scene: Scene
    const results: ResultsUI.ResultsUIController
    /** `_ingredientsHolder`: its transform, position and axes; the holder does not move. */
    const holder: TransformId
    const holderPosition: Vector3
    const holderRight: Vector3
    const holderForward: Vector3
    /** Serialized settings with their inspector defaults. */
    const ingredientsPlacementWidth: real
    const waitBeforeCloseLid: real

    var mixRequested: bool
    var movementTask: MovementTask
    /** `_lidOpenedWaitCts`: the number of the current source, if any. */
    var lidOpenedWaitCts: Option<nat>
    /** Sources created so far, and those cancelled. */
    var sourcesCreated: nat
    var cancelled: set<nat>
    var sequentialStart: bool
    var currentTargetColor: Color
    /** `_orderColorImage.color`. */
    var orderColor: Color
    /** Every placement started so far, in order. */
    var placements: seq<Placement>
    /** The task the mix continuation (`ContinueWith`) waits for, until it runs. */
    var mixContinuation: Option<MovementTask>
    /** The number of placements started before the current level. */
    ghost var levelStart: nat
    /** The instances some placement claimed. */
    ghost var placed: set<IngredientController>

    /**
     * What holds whatever the clicks do: the blender and scene are sound,
     * every source but the current one has been cancelled, the tasks name
     * placements that exist, and every placement claimed its own instance,
     * which is no longer interactable.
     */
    ghost predicate Sound()
      reads this, blender, blender.lid, scene, placed
    {
      blender.Valid() && scene.Valid() && Sources() && Tasks() && Claims()
    }

    /** At most one source is live: the current one; it and every delay's source were created. */
    ghost predicate Sources()
      reads this`lidOpenedWaitCts, this`sourcesCreated, this`cancelled, this`placements
    {
      && (lidOpenedWaitCts.Some? ==> lidOpenedWaitCts.value < sourcesCreated)
      && (forall s: nat :: s < sourcesCreated && lidOpenedWaitCts != Some(s) ==> s in cancelled)
      && (forall k :: 0 <= k < |placements| && placements[k].stage.Joining? ==> placements[k].stage.source < sourcesCreated)
    }

    /** The movement task and the task the mix waits for name placements that exist. */
    ghost predicate Tasks()
      reads this`movementTask, this`mixContinuation, this`placements
    {
      && (movementTask.PlacementTask? ==> movementTask.index < |placements|)
      && (mixContinuation.Some? ==>
            && mixContinuation.value != NoTask
            && (mixContinuation.value.PlacementTask? ==> mixContinuation.value.index < |placements|))
    }

    /** Each placement claimed a different instance, and no claimed instance is interactable again. */
    ghost predicate Claims()
      reads this`placements, this`placed, placed`interactable
    {
      && (forall k :: 0 <= k < |placements| ==> placements[k].ingredient in placed)
      && (forall c :: c in placed ==> !c.interactable)
      && (forall j, k :: 0 <= j < k < |placements| ==> placements[j].ingredient != placements[k].ingredient)
    }

    /**
     * What the corrected click handling and reset also keep: the movement
     * task is the latest placement of the current level, or none when the
     * level has none; a requested mix waits for that task.
     */
    ghost predicate Valid()
      reads this, blender, blender.lid, scene, placed
    {
      Sound() && Tracking()
    }

    ghost predicate Tracking()
      reads this`levelStart, this`placements, this`movementTask, this`mixRequested, this`mixContinuation
    {
      && levelStart <= |placements|
      && movementTask != CompletedAtOnce
      && (movementTask == NoTask <==> |placements| == levelStart)
      && (movementTask.PlacementTask? ==> movementTask.index == |placements| - 1)
      && (mixRequested && mixContinuation.Some? ==> mixContinuation.value == movementTask)
    }

    /** Whether the awaited task has completed, in whatever way. */
    predicate TaskComplete(task: MovementTask)
      reads this
    {
      match task
      case NoTask => false
      case CompletedAtOnce => true
      case PlacementTask(k) => k < |placements| && placements[k].stage.Ended()
    }

    constructor (blender: BlenderController, scene: Scene, results: ResultsUI.ResultsUIController,
                 holder: TransformId, holderPosition: Vector3, holderRight: Vector3, holderForward: Vector3,
                 ingredientsPlacementWidth: real := 0.5, waitBeforeCloseLid: real := 2.0)
      requires blender.Valid() && scene.Valid()
      ensures Valid()
      ensures this.blender == blender && this.scene == scene && this.results == results
      ensures this.holder == holder && this.holderPosition == holderPosition
      ensures this.holderRight == holderRight && this.holderForward == holderForward
      ensures this.ingredientsPlacementWidth == ingredientsPlacementWidth && this.waitBeforeCloseLid == waitBeforeCloseLid
      ensures !mixRequested && movementTask == NoTask && !sequentialStart
      ensures lidOpenedWaitCts == None && sourcesCreated == 0 && cancelled == {}
      ensures placements == [] && mixContinuation == None && placed == {}
    {
      this.blender := blender;
      this.scene := scene;
      this.results := results;
      this.holder := holder;
      this.holderPosition := holderPosition;
      this.holderRight := holderRight;
      this.holderForward := holderForward;
      this.ingredientsPlacementWidth := ingredientsPlacementWidth;
      this.waitBeforeCloseLid := waitBeforeCloseLid;
      mixRequested := false;
      movementTask := NoTask;
      lidOpenedWaitCts := None;
      sourcesCreated := 0;
      cancelled := {};
      sequentialStart := false;
      currentTargetColor := Black;
      orderColor := White;
      placements := [];
      mixContinuation := None;
      levelStart := 0;
      placed := {};
    }

    // -------------------------------------------------------------------------
    // Clicks

    /**
     * The synchronous part of `InteractWithIngredientAsync` on an interactable
     * instance: it is claimed, the previous source is cancelled, a new one is
     * installed, and the lid is asked to open; the placement then awaits it.
     */
    twostate predicate PlacementStarted(c: IngredientController)
      reads this, blender.lid, c
    {
      && old(c.interactable) && !c.interactable
      && placed == old(placed) + {c}
      && cancelled == CancelSource(old(cancelled), old(lidOpenedWaitCts))
      && lidOpenedWaitCts == Some(old(sourcesCreated)) && sourcesCreated == old(sourcesCreated) + 1
      && (old(blender.lid.isOpened) ==>
            unchanged(blender.lid) && placements == old(placements) + [Placement(c, OpeningLid(AlreadyDone))])
      && (!old(blender.lid.isOpened) ==>
            && !blender.lid.isOpened && !blender.lid.isClosed && blender.lid.openingTween.Some?
            && placements == old(placements) + [Placement(c, OpeningLid(TweenCompletion(blender.lid.openingTween.value)))])
    }

    /** The mix click: the current source is cancelled (and kept), the mix requested and chained to the movement task. */
    twostate predicate MixPressed()
      reads this
    {
      && mixRequested
      && mixContinuation == Some(old(movementTask))
      && cancelled == CancelSource(old(cancelled), old(lidOpenedWaitCts))
    }

    /**
     * `HandleTouch`, with the movement task replaced only by a placement that
     * started. While a mix is requested every click is ignored; a mix click
     * counts only once some placement of the level started.
     */
    method HandleTouch(hit: Hit)
      requires Valid()
      modifies this`mixRequested, this`movementTask, this`mixContinuation, this`placements
      modifies this`lidOpenedWaitCts, this`sourcesCreated, this`cancelled, this`placed
      modifies blender.lid, Claimed(ClickedInstance(hit))`interactable
      ensures Valid()
      ensures old(mixRequested) || hit.NoHit? || hit.OtherHit? || (hit.MixButtonHit? && old(movementTask) == NoTask) ==>
                unchanged(this) && unchanged(blender.lid) && unchanged(Claimed(ClickedInstance(hit)))
      ensures !old(mixRequested) && hit.IngredientHit? ==>
                if hit.controller != null && old(hit.controller.interactable) then
                  && PlacementStarted(hit.controller) && movementTask == PlacementTask(|old(placements)|)
                  && mixRequested == old(mixRequested) && mixContinuation == old(mixContinuation)
                else
                  unchanged(this) && unchanged(blender.lid) && unchanged(Claimed(hit.controller))
      ensures !old(mixRequested) && hit.MixButtonHit? && old(movementTask) != NoTask ==>
                && MixPressed()
                && movementTask == old(movementTask) && placements == old(placements)
                && lidOpenedWaitCts == old(lidOpenedWaitCts) && sourcesCreated == old(sourcesCreated)
                && placed == old(placed) && unchanged(blender.lid)
    {
      if !mixRequested && !hit.NoHit? {
        if hit.IngredientHit? {
          var task := InteractWithIngredient(hit.controller);
          if task.PlacementTask? {
            movementTask := task;
          }
          return;
        }
        var atLeastOneIngredientSentToBlender := movementTask != NoTask;
        if atLeastOneIngredientSentToBlender && hit.MixButtonHit? {
          PressMix();
        }
      }
    }

    /** `HandleTouch` as written: an ingredient click always replaces the movement task. */
    method HandleTouchAsWritten(hit: Hit)
      requires Sound()
      modifies this`mixRequested, this`movementTask, this`mixContinuation, this`placements
      modifies this`lidOpenedWaitCts, this`sourcesCreated, this`cancelled, this`placed
      modifies blender.lid, Claimed(ClickedInstance(hit))`interactable
      ensures Sound()
      ensures old(mixRequested) || hit.NoHit? || hit.OtherHit? || (hit.MixButtonHit? && old(movementTask) == NoTask) ==>
                unchanged(this) && unchanged(blender.lid) && unchanged(Claimed(ClickedInstance(hit)))
      ensures !old(mixRequested) && hit.IngredientHit? ==>
                && mixRequested == old(mixRequested) && mixContinuation == old(mixContinuation)
                && if hit.controller != null && old(hit.controller.interactable) then
                     PlacementStarted(hit.controller) && movementTask == PlacementTask(|old(placements)|)
                   else
                     && movementTask == CompletedAtOnce
                     && placements == old(placements) && lidOpenedWaitCts == old(lidOpenedWaitCts)
                     && sourcesCreated == old(sourcesCreated) && cancelled == old(cancelled) && placed == old(placed)
                     && unchanged(blender.lid) && unchanged(Claimed(hit.controller))
      ensures !old(mixRequested) && hit.MixButtonHit? && old(movementTask) != NoTask ==>
                && MixPressed()
                && movementTask == old(movementTask) && placements == old(placements)
                && lidOpenedWaitCts == old(lidOpenedWaitCts) && sourcesCreated == old(sourcesCreated)
                && placed == old(placed) && unchanged(blender.lid)
    {
      if !mixRequested && !hit.NoHit? {
        if hit.IngredientHit? {
          movementTask := InteractWithIngredient(hit.controller);
          return;
        }
        var atLeastOneIngredientSentToBlender := movementTask != NoTask;
        if atLeastOneIngredientSentToBlender && hit.MixButtonHit? {
          PressMix();
        }
      }
    }

    /**
     * `InteractWithIngredientAsync` up to its first `await`. Only an
     * interactable instance is placed; any other click yields a task that
     * has already completed.
     */
    method InteractWithIngredient(c: IngredientController?) returns (task: MovementTask)
      requires Sound()
      modifies this`placements, this`lidOpenedWaitCts, this`sourcesCreated, this`cancelled, this`placed
      modifies blender.lid, Claimed(c)`interactable
      ensures Sound()
      ensures c != null && old(c.interactable) ==> PlacementStarted(c) && task == PlacementTask(|old(placements)|)
      ensures !(c != null && old(c.interactable)) ==>
                task == CompletedAtOnce && unchanged(this) && unchanged(blender.lid) && unchanged(Claimed(c))
    {
      if c == null || !c.interactable {
        return CompletedAtOnce;
      }
      Claim(c);
      RenewSource();
      var wait := blender.OpenLidAsync();
      placements := placements + [Placement(c, OpeningLid(wait))];
      task := PlacementTask(|placements| - 1);
    }

    /** The mix-button branch of `HandleTouch`, once its guard passed. */
    method PressMix()
      requires Sound() && movementTask != NoTask
      modifies this`cancelled, this`mixRequested, this`mixContinuation
      ensures Sound() && MixPressed()
    {
      CancelCurrentSource();
      mixRequested := true;
      mixContinuation := Some(movementTask);
    }

    /** `interactable = false` on an instance not claimed before: no placement records it yet. */
    method Claim(c: IngredientController)
      requires Claims() && c.interactable
      modifies c`interactable, this`placed
      ensures Claims() && !c.interactable && placed == old(placed) + {c}
      ensures forall k :: 0 <= k < |placements| ==> placements[k].ingredient != c
    {
      c.interactable := false;
      placed := placed + {c};
    }

    /** `_lidOpenedWaitCts?.Cancel()`: the current source, if any, joins the cancelled ones and stays current. */
    method CancelCurrentSource()
      requires Sources()
      modifies this`cancelled
      ensures Sources()
      ensures cancelled == CancelSource(old(cancelled), lidOpenedWaitCts)
      ensures lidOpenedWaitCts.Some? ==> lidOpenedWaitCts.value in cancelled
    {
      if lidOpenedWaitCts.Some? {
        cancelled := cancelled + {lidOpenedWaitCts.value};
      }
    }

    /** The previous source, if any, is cancelled and a new one becomes current. */
    method RenewSource()
      requires Sources()
      modifies this`lidOpenedWaitCts, this`sourcesCreated, this`cancelled
      ensures Sources()
      ensures cancelled == CancelSource(old(cancelled), old(lidOpenedWaitCts))
      ensures lidOpenedWaitCts == Some(old(sourcesCreated)) && sourcesCreated == old(sourcesCreated) + 1
    {
      CancelCurrentSource();
      lidOpenedWaitCts := Some(sourcesCreated);
      sourcesCreated := sourcesCreated + 1;
    }

    /** A mix requested by the corrected click handling starts only once the level's latest placement has ended. */
    lemma MixWaitsForLastPlacement()
      requires Valid() && mixRequested && mixContinuation.Some? && TaskComplete(mixContinuation.value)
      ensures levelStart < |placements|
      ensures placements[|placements| - 1].stage.Ended()
    {
    }

    // -------------------------------------------------------------------------
    // The stages of a placement

    /**
     * The lid is open for placement `k`: a renewal of the instance at its
     * current placement is scheduled, then the instance is launched towards
     * the jug (the trajectory gives `launchVelocity` and `flightTime`). An
     * instance without its ingredient asset ends the placement with a null
     * reference.
     */
    method OnLidOpenedFor(k: nat, launchVelocity: Vector3, flightTime: real)
      requires Sound() && k < |placements| && placements[k].stage.OpeningLid?
      requires !blender.lid.Pending(placements[k].stage.lidWait)
      requires flightTime > 0.0
      modifies this`placements, scene`pendingRenewals, scene`renewalsScheduled
      modifies placements[k].ingredient`constraints, placements[k].ingredient`velocity, placements[k].ingredient`angularVelocity
      ensures Sound() && (old(Valid()) ==> Valid())
      ensures var c := old(placements[k].ingredient);
              if c.ingredientManager == null then
                placements == old(placements)[k := Placement(c, Faulted)] && unchanged(scene) && unchanged(c)
              else
                && scene.pendingRenewals == old(scene.pendingRenewals)
                                            + [Renewal(c.ingredientManager, c.pose, FloorToInt(c.ingredientManager.renewDelay * 1000.0))]
                && c.constraints == ConstraintsNone && c.velocity == launchVelocity
                && c.angularVelocity == ScaleVector(Deg2Rad / flightTime, c.animationRotation)
                && placements == old(placements)[k := Placement(c, Moving(FloorToInt(flightTime * 1000.0)))]
    {
      var c := placements[k].ingredient;
      if c.ingredientManager == null {
        placements := placements[k := Placement(c, Faulted)];
        return;
      }
      c.ingredientManager.RenewAt(scene, c.pose);
      var moveMs := c.MoveTo(launchVelocity, flightTime);
      placements := placements[k := Placement(c, Moving(moveMs))];
    }

    /**
     * The move of placement `k` completes: the jug reset starts, joined with
     * a delay of `waitBeforeCloseLid` on the token of the source current NOW.
     * With no source (the game was disabled) the token cannot be read: the
     * placement faults, but the jug reset has already started and completes
     * later.
     */
    method OnMoveCompletedFor(k: nat)
      requires Sound() && k < |placements| && placements[k].stage.Moving?
      modifies this`placements
      ensures Sound() && (old(Valid()) ==> Valid())
      ensures var c := old(placements[k].ingredient);
              placements == old(placements)[k := Placement(c,
                if lidOpenedWaitCts.None? then FaultedAfterJugReset(false)
                else Joining(lidOpenedWaitCts.value, FloorToInt(waitBeforeCloseLid * 1000.0), false, false))]
    {
      var c := placements[k].ingredient;
      if lidOpenedWaitCts.None? {
        placements := placements[k := Placement(c, FaultedAfterJugReset(false))];
      } else {
        var delayMs := FloorToInt(waitBeforeCloseLid * 1000.0);
        placements := placements[k := Placement(c, Joining(lidOpenedWaitCts.value, delayMs, false, false))];
      }
    }

    /**
     * The jug reset started by placement `k` completes, whether the placement
     * is still joining or has faulted; its callback resets the jug's physics.
     */
    method OnJugResetCompletedFor(k: nat)
      requires Sound() && k < |placements|
      requires (placements[k].stage.Joining? || placements[k].stage.FaultedAfterJugReset?) && !placements[k].stage.jugResetDone
      modifies this`placements, blender`jugVelocity, blender`jugAngularVelocity
      ensures Sound() && (old(Valid()) ==> Valid())
      ensures blender.jugVelocity == Zero3 && blender.jugAngularVelocity == Zero3
      ensures placements == old(placements)[k := old(placements[k]).(stage := old(placements[k].stage).(jugResetDone := true))]
    {
      blender.OnJugTransformResetCompleted();
      placements := placements[k := placements[k].(stage := placements[k].stage.(jugResetDone := true))];
    }

    /** The delay of placement `k` elapses; a delay whose source was cancelled never does. */
    method OnWaitElapsedFor(k: nat)
      requires Sound() && k < |placements| && placements[k].stage.Joining? && !placements[k].stage.delayElapsed
      requires placements[k].stage.source !in cancelled
      modifies this`placements
      ensures Sound() && (old(Valid()) ==> Valid())
      ensures placements == old(placements)[k := old(placements[k]).(stage := old(placements[k].stage).(delayElapsed := true))]
    {
      placements := placements[k := placements[k].(stage := placements[k].stage.(delayElapsed := true))];
    }

    /**
     * Both joined tasks of placement `k` are over: the jug reset completed,
     * and the delay elapsed or was cancelled. After a full delay the lid is
     * asked to close; after a cancelled one `Task.WhenAll` throws and the lid
     * is left as it is.
     */
    method OnJoinedFor(k: nat)
      requires Sound() && k < |placements| && placements[k].stage.Joining? && placements[k].stage.jugResetDone
      requires placements[k].stage.delayElapsed || placements[k].stage.source in cancelled
      modifies this`placements, blender.lid
      ensures Sound() && (old(Valid()) ==> Valid())
      ensures var c := old(placements[k].ingredient);
              if !old(placements[k].stage.delayElapsed) then
                placements == old(placements)[k := Placement(c, Canceled)] && unchanged(blender.lid)
              else if old(blender.lid.isClosed) then
                placements == old(placements)[k := Placement(c, ClosingLid(AlreadyDone))] && unchanged(blender.lid)
              else
                && blender.lid.Phase() == Closing
                && placements == old(placements)[k := Placement(c, ClosingLid(TweenCompletion(blender.lid.closingTween.value)))]
    {
      var c := placements[k].ingredient;
      if !placements[k].stage.delayElapsed {
        placements := placements[k := Placement(c, Canceled)];
        return;
      }
      var wait := blender.CloseLidAsync();
      placements := placements[k := Placement(c, ClosingLid(wait))];
    }

    /** The lid closed behind placement `k`: the placement has run to its end. */
    method OnLidClosedFor(k: nat)
      requires Sound() && k < |placements| && placements[k].stage.ClosingLid?
      requires !blender.lid.Pending(placements[k].stage.lidWait)
      modifies this`placements
      ensures Sound() && (old(Valid()) ==> Valid())
      ensures placements == old(placements)[k := old(placements[k]).(stage := Finished)]
    {
      placements := placements[k := placements[k].(stage := Finished)];
    }

    /** A lid tween runs to its end. */
    method OnLidTweenCompleted(tween: nat)
      requires Sound()
      modifies blender.lid
      ensures Sound() && (old(Valid()) ==> Valid())
      ensures old(blender.lid.openingTween) == Some(tween) ==> blender.lid.Phase() == Opened
      ensures old(blender.lid.closingTween) == Some(tween) ==> blender.lid.Phase() == Closed
      ensures old(blender.lid.openingTween) != Some(tween) && old(blender.lid.closingTween) != Some(tween) ==>
                unchanged(blender.lid)
    {
      blender.lid.OnTweenCompleted(tween);
    }

    // -------------------------------------------------------------------------
    // The mix

    /**
     * `InteractWithMixButtonAsync`, run by the continuation once its task
     * completed, on the enumeration `order` of the jug's content. An empty
     * jug makes `MixAsync` throw inside the continuation, where nobody
     * observes it: nothing is reported and the mix stays requested.
     * Otherwise the target, the result and their similarity are shown and
     * the lid is asked to open.
     */
    method RunMix(order: seq<IngredientController>, sqrt: real -> real) returns (lidWait: Option<Wait>)
      requires Sound() && mixRequested && mixContinuation.Some? && TaskComplete(mixContinuation.value)
      requires multiset(order) == multiset(blender.ingredients) && HaveManagers(order)
      requires ColorCalculations.IsSquareRoot(sqrt)
      modifies this`mixContinuation, blender, blender.lid, scene, results
      ensures Sound() && mixRequested && mixContinuation == None
      ensures old(blender.ingredients) == {} ==>
                lidWait == None && unchanged(blender) && unchanged(blender.lid) && unchanged(scene) && unchanged(results)
      ensures old(blender.ingredients) != {} ==>
                |order| >= 1 &&
                var finalColor := old(MeanOfFirst(ColorsOf(ManagersOf(order)), |order|));
                && blender.ingredients == {} && blender.contentColor == finalColor
                && scene.released == old(scene.released) + order
                && Reported(finalColor, sqrt)
                && lidWait.Some? && blender.lid.Phase() == Opening
                && lidWait.value == TweenCompletion(blender.lid.openingTween.value)
    {
      lidWait := MixAndReport(order, sqrt);
      mixContinuation := None;
    }

    /** The body of `InteractWithMixButtonAsync`: mix what the jug holds, then show how close it came. */
    method MixAndReport(order: seq<IngredientController>, sqrt: real -> real) returns (lidWait: Option<Wait>)
      requires blender.Valid() && scene.Valid()
      requires multiset(order) == multiset(blender.ingredients) && HaveManagers(order)
      requires ColorCalculations.IsSquareRoot(sqrt)
      modifies blender, blender.lid, scene, results
      ensures blender.Valid() && scene.Valid()
      ensures old(blender.ingredients) == {} ==>
                lidWait == None && unchanged(blender) && unchanged(blender.lid) && unchanged(scene) && unchanged(results)
      ensures old(blender.ingredients) != {} ==>
                |order| >= 1 &&
                var finalColor := old(MeanOfFirst(ColorsOf(ManagersOf(order)), |order|));
                && blender.ingredients == {} && blender.contentColor == finalColor
                && scene.released == old(scene.released) + order
                && Reported(finalColor, sqrt)
                && lidWait.Some? && blender.lid.Phase() == Opening
                && lidWait.value == TweenCompletion(blender.lid.openingTween.value)
    {
      EnumerationLength(order, blender.ingredients);
      var result := blender.Mix(order, scene);
      if result.MixFailed? {
        return None;
      }
      var wait := ReportMix(result.finalColor, sqrt);
      lidWait := Some(wait);
    }

    /**
     * The results panel shows the target colour, `resultColor`, and their
     * similarity as a percentage; the next-level button is enabled exactly
     * when the similarity reaches the win threshold.
     */
    ghost predicate Reported(resultColor: Color, sqrt: real -> real)
      reads this, results
      requires ColorCalculations.IsSquareRoot(sqrt)
    {
      && results.targetColorImage == currentTargetColor && results.resultColorImage == resultColor
      && var similarity := ColorCalculations.ColorsSimilarity(resultColor, currentTargetColor, sqrt);
         && results.similarityText == ResultsUI.PercentText(similarity)
         && (results.nextLevelButtonInteractable <==> ResultsUI.Wins(similarity, results.winThreshold))
    }

    /** The reporting half of `InteractWithMixButtonAsync`, once `MixAsync` returned `resultColor`. */
    method ReportMix(resultColor: Color, sqrt: real -> real) returns (wait: Wait)
      requires blender.Valid() && blender.lid.Phase() == Closed
      requires ColorCalculations.IsSquareRoot(sqrt)
      modifies results, blender.lid
      ensures blender.Valid()
      ensures Reported(resultColor, sqrt)
      ensures blender.lid.Phase() == Opening && wait == TweenCompletion(blender.lid.openingTween.value)
    {
      results.SetTargetColor(currentTargetColor);
      results.SetResultColor(resultColor);
      results.SetColorSimilarity(ColorCalculations.ColorsSimilarity(resultColor, currentTargetColor, sqrt));
      wait := blender.OpenLidAsync();
    }

    // -------------------------------------------------------------------------
    // Disabling, resetting and starting a level

    /** `OnDisable`: the current source is cancelled and dropped, so no delay is left to elapse. */
    method OnDisable()
      requires Sound()
      modifies this`lidOpenedWaitCts, this`cancelled
      ensures Sound() && (old(Valid()) ==> Valid())
      ensures lidOpenedWaitCts == None
      ensures cancelled == CancelSource(old(cancelled), old(lidOpenedWaitCts))
      ensures forall s: nat :: s < sourcesCreated ==> s in cancelled
    {
      if lidOpenedWaitCts.Some? {
        cancelled := cancelled + {lidOpenedWaitCts.value};
        lidOpenedWaitCts := None;
      }
    }

    /** The live instances whose parent is the ingredients holder. */
    ghost function InHolder(): set<IngredientController>
      reads this, scene, scene.live
    {
      set c | c in scene.live && c.pose.parent == holder
    }

    /**
     * `CleanIngredientsHolder` over the holder's children: an instance with
     * its ingredient asset is released through it, any other child is
     * destroyed directly (a child without a controller is not an instance
     * and is not tracked here).
     */
    method CleanIngredientsHolder(children: seq<IngredientController?>)
      requires scene.Valid()
      modifies scene`live, scene`released
      ensures scene.Valid()
      ensures scene.live == old(scene.live) - Instances(children)
      ensures scene.released == old(scene.released + Managed(children))
      ensures Instances(children) == old(InHolder()) ==> InHolder() == {}
    {
      for i := 0 to |children|
        invariant scene.Valid()
        invariant scene.live == old(scene.live) - Instances(children[..i])
        invariant scene.released == old(scene.released + Managed(children[..i]))
      {
        var child := children[i];
        assert children[..i + 1] == children[..i] + [child];
        InstancesOfSnoc(children[..i], child);
        if child != null {
          if child.ingredientManager != null {
            child.ingredientManager.Release(scene, child);
            continue;
          }
          scene.Destroy(child);
        }
      }
      assert children[..|children|] == children;
    }

    /**
     * `ResetSceneAsync` as written: the holder is cleaned, the jug content
     * reset, the lid closed, and the mix no longer requested. The movement
     * task is left as it was.
     */
    method ResetSceneAsWritten(children: seq<IngredientController?>)
      requires Sound()
      modifies this`mixRequested, scene`live, scene`released, blender`jugConstraints, blender`contentFill, blender.lid
      ensures Sound()
      ensures !mixRequested && movementTask == old(movementTask)
      ensures scene.live == old(scene.live) - Instances(children)
      ensures scene.released == old(scene.released + Managed(children))
      ensures Instances(children) == old(InHolder()) ==> InHolder() == {}
      ensures blender.contentFill == 0.0 && blender.jugConstraints == ConstraintsNone
      ensures blender.lid.Phase() == Closed
    {
      ResetHolderAndJug(children);
      mixRequested := false;
    }

    /** The awaits of `ResetSceneAsync`, each run to completion: clean the holder, reset the jug, close the lid. */
    method ResetHolderAndJug(children: seq<IngredientController?>)
      requires blender.Valid() && scene.Valid()
      modifies scene`live, scene`released, blender`jugConstraints, blender`contentFill, blender.lid
      ensures blender.Valid() && scene.Valid()
      ensures scene.live == old(scene.live) - Instances(children)
      ensures scene.released == old(scene.released + Managed(children))
      ensures Instances(children) == old(InHolder()) ==> InHolder() == {}
      ensures blender.contentFill == 0.0 && blender.jugConstraints == ConstraintsNone
      ensures blender.lid.Phase() == Closed
    {
      CleanIngredientsHolder(children);
      var _, _ := blender.ResetJugContentAsync();
      blender.OnJugContentResetCompleted();
      var wait := blender.CloseLidAsync();
      blender.lid.Settle(wait);
    }

    /** `ResetSceneAsync`, corrected: the new level also starts with no movement task. */
    method ResetScene(children: seq<IngredientController?>)
      requires Sound()
      modifies this`mixRequested, this`movementTask, this`levelStart
      modifies scene`live, scene`released, blender`jugConstraints, blender`contentFill, blender.lid
      ensures Valid()
      ensures !mixRequested && movementTask == NoTask && levelStart == |placements|
      ensures scene.live == old(scene.live) - Instances(children)
      ensures scene.released == old(scene.released + Managed(children))
      ensures Instances(children) == old(InHolder()) ==> InHolder() == {}
      ensures blender.contentFill == 0.0 && blender.jugConstraints == ConstraintsNone
      ensures blender.lid.Phase() == Closed
    {
      ResetSceneAsWritten(children);
      movementTask := NoTask;
      levelStart := |placements|;
    }

    /**
     * `StartLevelAsync`, with the corrected reset: every start after the first
     * resets the scene and the movement task first; then the target colour is
     * stored and shown and the ingredients laid out in the holder.
     */
    method StartLevel(targetColor: Color, ingredients: seq<IngredientManager>, children: seq<IngredientController?>,
                      lookRotation: Vector3 -> Quaternion) returns (result: Instantiation)
      requires Valid()
      modifies this`mixRequested, this`movementTask, this`levelStart, this`sequentialStart
      modifies this`currentTargetColor, this`orderColor
      modifies scene`live, scene`released, scene`nextInstanceId, blender`jugConstraints, blender`contentFill, blender.lid
      ensures Valid()
      ensures sequentialStart && currentTargetColor == targetColor && orderColor == targetColor
      ensures !old(sequentialStart) ==>
                && mixRequested == old(mixRequested) && movementTask == old(movementTask)
                && scene.released == old(scene.released) && unchanged(blender.lid)
                && blender.contentFill == old(blender.contentFill)
      ensures old(sequentialStart) ==>
                && !mixRequested && movementTask == NoTask
                && scene.released == old(scene.released + Managed(children))
                && blender.contentFill == 0.0 && blender.lid.Phase() == Closed
      ensures var kept := if old(sequentialStart) then old(scene.live) - Instances(children) else old(scene.live);
              if ingredients == [] then
                result == IndexOutOfRange && scene.live == kept
              else
                && result.Instantiated? && LaidOut(ingredients, result.instances, lookRotation)
                && (forall j :: 0 <= j < |result.instances| ==> fresh(result.instances[j]))
                && scene.live == kept + Instances(result.instances)
      ensures old(sequentialStart) && Instances(children) == old(InHolder()) ==>
                forall c :: c in old(scene.live) && c in scene.live ==> c.pose.parent != holder
    {
      if sequentialStart {
        ResetScene(children);
      }
      sequentialStart := true;
      result := ShowLevel(targetColor, ingredients, lookRotation);
    }

    /**
     * `StartLevelAsync` as written: a start after the first resets the scene
     * with `ResetSceneAsync`, which leaves the movement task of the previous
     * level in place; then the level is shown and laid out.
     */
    method StartLevelAsWritten(targetColor: Color, ingredients: seq<IngredientManager>, children: seq<IngredientController?>,
                               lookRotation: Vector3 -> Quaternion) returns (result: Instantiation)
      requires Sound()
      modifies this`mixRequested, this`sequentialStart
      modifies this`currentTargetColor, this`orderColor
      modifies scene`live, scene`released, scene`nextInstanceId, blender`jugConstraints, blender`contentFill, blender.lid
      ensures Sound()
      ensures movementTask == old(movementTask)
      ensures sequentialStart && currentTargetColor == targetColor && orderColor == targetColor
      ensures !old(sequentialStart) ==>
                && mixRequested == old(mixRequested)
                && scene.released == old(scene.released) && unchanged(blender.lid)
                && blender.contentFill == old(blender.contentFill)
      ensures old(sequentialStart) ==>
                && !mixRequested
                && scene.released == old(scene.released + Managed(children))
                && blender.contentFill == 0.0 && blender.lid.Phase() == Closed
      ensures var kept := if old(sequentialStart) then old(scene.live) - Instances(children) else old(scene.live);
              if ingredients == [] then
                result == IndexOutOfRange && scene.live == kept
              else
                && result.Instantiated? && LaidOut(ingredients, result.instances, lookRotation)
                && (forall j :: 0 <= j < |result.instances| ==> fresh(result.instances[j]))
                && scene.live == kept + Instances(result.instances)
      ensures old(sequentialStart) && Instances(children) == old(InHolder()) ==>
                forall c :: c in old(scene.live) && c in scene.live ==> c.pose.parent != holder
    {
      if sequentialStart {
        ResetSceneAsWritten(children);
      }
      sequentialStart := true;
      result := ShowLevel(targetColor, ingredients, lookRotation);
    }

    /** The target colour is stored and shown on the order, then the ingredients are laid out. */
    method ShowLevel(targetColor: Color, ingredients: seq<IngredientManager>, lookRotation: Vector3 -> Quaternion)
      returns (result: Instantiation)
      requires Sound()
      modifies this`currentTargetColor, this`orderColor, scene`live, scene`nextInstanceId
      ensures Sound() && (old(Valid()) ==> Valid())
      ensures currentTargetColor == targetColor && orderColor == targetColor
      ensures ingredients == [] ==> result == IndexOutOfRange && scene.live == old(scene.live)
      ensures ingredients != [] ==>
                && result.Instantiated? && LaidOut(ingredients, result.instances, lookRotation)
                && (forall j :: 0 <= j < |result.instances| ==> fresh(result.instances[j]))
                && scene.live == old(scene.live) + Instances(result.instances)
    {
      currentTargetColor := targetColor;
      SetOrderColor(targetColor);
      result := InstantiateIngredients(ingredients, lookRotation);
    }

    method SetOrderColor(color: Color)
      modifies this`orderColor
      ensures orderColor == color
    {
      orderColor := color;
    }

    // -------------------------------------------------------------------------
    // Layout

    /** The direction an instance at `position` faces: towards a point one unit in front of the holder. */
    function LookDirection(position: Vector3): Vector3 {
      SubVectors(AddVectors(holderPosition, ScaleVector(IngredientsRotationPerspectiveK, holderForward)), position)
    }

    /** Instance `c` is a fresh copy of `manager` at `position`, in the holder, facing as `LookDirection` says. */
    ghost predicate PlacedAt(c: IngredientController, manager: IngredientManager, position: Vector3,
                             lookRotation: Vector3 -> Quaternion)
      reads c
    {
      && c.ingredientManager == manager && c.interactable
      && c.pose == Pose(position, lookRotation(LookDirection(position)), holder)
    }

    /** The instances are distinct and instance `i` is ingredient `i` in slot `i`. */
    ghost predicate LaidOut(ingredients: seq<IngredientManager>, instances: seq<IngredientController>,
                            lookRotation: Vector3 -> Quaternion)
      reads set c | c in instances
    {
      && |instances| == |ingredients| >= 1
      && (forall i :: 0 <= i < |instances| ==>
            PlacedAt(instances[i], ingredients[i],
                     SlotPosition(holderPosition, holderRight, ingredientsPlacementWidth, |ingredients|, i), lookRotation))
      && (forall i, j :: 0 <= i < j < |instances| ==> instances[i] != instances[j])
    }

    /** `InstantiateIngredient`: one `Acquire` in the holder, facing the holder's front. */
    method InstantiateIngredient(manager: IngredientManager, position: Vector3, lookRotation: Vector3 -> Quaternion)
      returns (c: IngredientController)
      requires scene.Valid()
      modifies scene`live, scene`nextInstanceId
      ensures scene.Valid() && fresh(c) && c !in old(scene.live) && scene.live == old(scene.live) + {c}
      ensures PlacedAt(c, manager, position, lookRotation)
    {
      var rotation := lookRotation(LookDirection(position));
      c := manager.Acquire(scene, Pose(position, rotation, holder));
    }

    /**
     * `InstantiateIngredients`: a single ingredient goes to the holder's
     * centre; more are spread evenly over the placement width, the loop
     * moving on by one padding each time. An empty list is indexed anyway
     * and throws.
     */
    method InstantiateIngredients(ingredients: seq<IngredientManager>, lookRotation: Vector3 -> Quaternion)
      returns (result: Instantiation)
      requires scene.Valid()
      modifies scene`live, scene`nextInstanceId
      ensures scene.Valid()
      ensures ingredients == [] ==> result == IndexOutOfRange && unchanged(scene)
      ensures ingredients != [] ==>
                && result.Instantiated? && LaidOut(ingredients, result.instances, lookRotation)
                && (forall j :: 0 <= j < |result.instances| ==> fresh(result.instances[j]))
                && scene.live == old(scene.live) + Instances(result.instances)
    {
      var n := |ingredients|;
      if n == 0 {
        return IndexOutOfRange;
      }
      if n <= 1 {
        SingleSlotAtCentre(holderPosition, holderRight, ingredientsPlacementWidth);
        var c := InstantiateIngredient(ingredients[0], holderPosition, lookRotation);
        assert Instances([c]) == {c};
        return Instantiated([c]);
      }
      var leftPosition := LeftEnd(holderPosition, holderRight, ingredientsPlacementWidth);
      var rightPosition := RightEnd(holderPosition, holderRight, ingredientsPlacementWidth);
      var positionPadding := DivideVector(SubVectors(rightPosition, leftPosition), n as real);
      var position := AddVectors(leftPosition, DivideVector(positionPadding, 2.0));
      var instances := InstantiateRow(ingredients, position, positionPadding, lookRotation);
      forall j | 0 <= j < n
        ensures Advance(position, positionPadding, j)
                == SlotPosition(holderPosition, holderRight, ingredientsPlacementWidth, n, j)
      {
        AdvanceIsSlot(holderPosition, holderRight, ingredientsPlacementWidth, n, j);
      }
      result := Instantiated(instances);
    }

    /** The `foreach` of `InstantiateIngredients`: instance `j` goes `j` paddings on from `first`. */
    method InstantiateRow(ingredients: seq<IngredientManager>, first: Vector3, positionPadding: Vector3,
                          lookRotation: Vector3 -> Quaternion) returns (instances: seq<IngredientController>)
      requires scene.Valid()
      modifies scene`live, scene`nextInstanceId
      ensures scene.Valid()
      ensures |instances| == |ingredients|
      ensures forall j {:trigger instances[j]} :: 0 <= j < |instances| ==>
                fresh(instances[j]) && PlacedAt(instances[j], ingredients[j], Advance(first, positionPadding, j), lookRotation)
      ensures forall j, k :: 0 <= j < k < |instances| ==> instances[j] != instances[k]
      ensures scene.live == old(scene.live) + Instances(instances)
    {
      var position := first;
      instances := [];
      for i := 0 to |ingredients|
        invariant scene.Valid()
        invariant |instances| == i
        invariant position == Advance(first, positionPadding, i)
        invariant forall j {:trigger instances[j]} :: 0 <= j < i ==>
                    fresh(instances[j]) && PlacedAt(instances[j], ingredients[j], Advance(first, positionPadding, j), lookRotation)
        invariant forall j, k :: 0 <= j < k < i ==> instances[j] != instances[k]
        invariant scene.live == old(scene.live) + Instances(instances)
      {
        var c := InstantiateIngredient(ingredients[i], position, lookRotation);
        InstancesOfSnoc(instances, c);
        instances := instances + [c];
        position := AddVectors(position, positionPadding);
      }
    }
  }

  // ---------------------------------------------------------------------------
  // The holder's children

  /** The instances among the children, null entries dropped. */
  function Instances(children: seq<IngredientController?>): set<IngredientController> {
    set c: IngredientController | c in children
  }

  lemma InstancesOfSnoc(children: seq<IngredientController?>, child: IngredientController?)
    ensures Instances(children + [child]) == Instances(children) + Claimed(child)
  {
  }

  /** The children released through their ingredient asset, in holder order. */
  function Managed(children: seq<IngredientController?>): (managed: seq<IngredientController>)
    reads set c: IngredientController | c in children
    ensures forall i :: 0 <= i < |managed| ==> managed[i] in children && managed[i].ingredientManager != null
    ensures forall j :: 0 <= j < |children| && children[j] != null && children[j].ingredientManager != null ==>
              children[j] in managed
  {
    if children == [] then []
    else
      var last := children[|children| - 1];
      Managed(children[..|children| - 1]) + if last != null && last.ingredientManager != null then [last] else []
  }

  // ---------------------------------------------------------------------------
  // Slot arithmetic along the holder's right axis

  /** Offset of slot `i` of `n` from the holder's centre: the left end, then `i + 1/2` paddings of `width / n`. */
  function SlotOffset(width: real, n: nat, i: nat): real
    requires n >= 1
  {
    -width / 2.0 + (i as real + 0.5) * (width / n as real)
  }

  function SlotPosition(center: Vector3, right: Vector3, width: real, n: nat, i: nat): Vector3
    requires n >= 1
  {
    AddVectors(center, ScaleVector(SlotOffset(width, n, i), right))
  }

  /** `holder.position - holder.right * width / 2`. */
  function LeftEnd(center: Vector3, right: Vector3, width: real): Vector3 {
    SubVectors(center, DivideVector(ScaleVector(width, right), 2.0))
  }

  /** `holder.position + holder.right * width / 2`. */
  function RightEnd(center: Vector3, right: Vector3, width: real): Vector3 {
    AddVectors(center, DivideVector(ScaleVector(width, right), 2.0))
  }

  /** `start` moved on `j` times by `step`. */
  function Advance(start: Vector3, step: Vector3, j: nat): Vector3 {
    if j == 0 then start else AddVectors(Advance(start, step, j - 1), step)
  }

  lemma {:induction false} AdvanceClosedForm(start: Vector3, step: Vector3, j: nat)
    ensures Advance(start, step, j) == AddVectors(start, ScaleVector(j as real, step))
  {
    if j > 0 {
      AdvanceClosedForm(start, step, j - 1);
      StepOnce(start.x, step.x, j);
      StepOnce(start.y, step.y, j);
      StepOnce(start.z, step.z, j);
    }
  }

  lemma StepOnce(s: real, d: real, j: nat)
    requires j > 0
    ensures (s + (j - 1) as real * d) + d == s + j as real * d
  {
  }

  /** The padding is `width / n` steps along the right axis. */
  lemma PaddingIsScaled(center: Vector3, right: Vector3, width: real, n: nat)
    requires n >= 1
    ensures DivideVector(SubVectors(RightEnd(center, right, width), LeftEnd(center, right, width)), n as real)
            == ScaleVector(width / n as real, right)
  {
    AxisPadding(center.x, right.x, width, n as real);
    AxisPadding(center.y, right.y, width, n as real);
    AxisPadding(center.z, right.z, width, n as real);
  }

  lemma AxisPadding(c: real, r: real, w: real, n: real)
    requires n > 0.0
    ensures ((c + (w * r) / 2.0) - (c - (w * r) / 2.0)) / n == (w / n) * r
  {
    var q := w / n;
    ColorCalculations.DivideThenMultiply(w, n);
    assert (q * r) * n == w * r by {
      assert (q * r) * n == (q * n) * r;
    }
    QuotientOf(w * r, q * r, n);
  }

  /** Half a step, then `j` steps, from the left end land on slot `j`. */
  lemma SlotFromLeft(center: Vector3, right: Vector3, width: real, n: nat, j: nat)
    requires n >= 1
    ensures var step := ScaleVector(width / n as real, right);
            AddVectors(AddVectors(LeftEnd(center, right, width), DivideVector(step, 2.0)), ScaleVector(j as real, step))
            == SlotPosition(center, right, width, n, j)
  {
    var q := width / n as real;
    AxisSlot(center.x, right.x, width, q, j as real);
    AxisSlot(center.y, right.y, width, q, j as real);
    AxisSlot(center.z, right.z, width, q, j as real);
    assert SlotPosition(center, right, width, n, j) == AddVectors(center, ScaleVector(-width / 2.0 + (j as real + 0.5) * q, right));
  }

  lemma AxisSlot(c: real, r: real, w: real, q: real, j: real)
    ensures ((c - (w * r) / 2.0) + (q * r) / 2.0) + j * (q * r) == c + (-w / 2.0 + (j + 0.5) * q) * r
  {
  }

  lemma QuotientOf(x: real, y: real, n: real)
    requires n != 0.0 && x == y * n
    ensures x / n == y
  {
  }

  /** The loop's `j`-th position is slot `j`. */
  lemma AdvanceIsSlot(center: Vector3, right: Vector3, width: real, n: nat, j: nat)
    requires n >= 1
    ensures var left, rightEnd := LeftEnd(center, right, width), RightEnd(center, right, width);
            var padding := DivideVector(SubVectors(rightEnd, left), n as real);
            Advance(AddVectors(left, DivideVector(padding, 2.0)), padding, j) == SlotPosition(center, right, width, n, j)
  {
    var left, rightEnd := LeftEnd(center, right, width), RightEnd(center, right, width);
    var padding := DivideVector(SubVectors(rightEnd, left), n as real);
    AdvanceClosedForm(AddVectors(left, DivideVector(padding, 2.0)), padding, j);
    PaddingIsScaled(center, right, width, n);
    SlotFromLeft(center, right, width, n, j);
  }

  /** A single ingredient sits at the holder's centre. */
  lemma SingleSlotAtCentre(center: Vector3, right: Vector3, width: real)
    ensures SlotPosition(center, right, width, 1, 0) == center
  {
  }

  /** Slots `i` and `n - 1 - i` mirror each other about the centre. */
  lemma SlotsSymmetric(width: real, n: nat, i: nat)
    requires i < n
    ensures SlotOffset(width, n, i) + SlotOffset(width, n, n - 1 - i) == 0.0
  {
    var q := width / n as real;
    ColorCalculations.DivideThenMultiply(width, n as real);
    assert (i as real + 0.5) * q + ((n - 1 - i) as real + 0.5) * q == n as real * q;
  }

  /** Neighbouring slots are one padding, `width / n`, apart. */
  lemma SlotsEvenlySpaced(width: real, n: nat, i: nat)
    requires n >= 1
    ensures SlotOffset(width, n, i + 1) - SlotOffset(width, n, i) == width / n as real
  {
  }

  /** Every slot lies within the placement width; the outer ones half a padding inside its ends. */
  lemma SlotsInsideWidth(width: real, n: nat, i: nat)
    requires width > 0.0 && i < n
    ensures -width / 2.0 < SlotOffset(width, n, i) < width / 2.0
    ensures SlotOffset(width, n, 0) == -width / 2.0 + (width / n as real) / 2.0
    ensures SlotOffset(width, n, n - 1) == width / 2.0 - (width / n as real) / 2.0
  {
    var q := width / n as real;
    ColorCalculations.DivideThenMultiply(width, n as real);
    SlotsSymmetric(width, n, 0);
    PaddingPositive(width, n as real);
    MulBetween(i as real + 0.5, n as real, q);
    assert SlotOffset(width, n, i) == -width / 2.0 + (i as real + 0.5) * q;
  }

  lemma PaddingPositive(width: real, n: real)
    requires width > 0.0 && n > 0.0
    ensures width / n > 0.0
  {
  }

  /** `0 < (x + 0.5) q` and `(x + 0.5) q + q / 2 <= n q` for a slot index `x` below `n`. */
  lemma MulBetween(x: real, n: real, q: real)
    requires q > 0.0 && 0.5 <= x && x + 0.5 <= n
    ensures 0.0 < x * q && x * q + 0.5 * q <= n * q
  {
    MulNonNegative(n - x - 0.5, q);
  }

  lemma MulNonNegative(a: real, b: real)
    requires a >= 0.0 && b >= 0.0
    ensures a * b >= 0.0
  {
  }
}
