/**
 * Two runs of the game that show where `GameManager` lets a mix start
 * before any ingredient of the level has reached the jug, and the same
 * runs against the corrected click handling and reset.
 */
module Findings {
  import opened UnityTypes
  import opened Ingredients
  import opened BlenderLid
  import opened Blender
  import opened Game
  import ColorCalculations
  import ResultsUI

  /** A fresh game with a closed lid, an empty jug and one interactable instance `c` in the holder. */
  method SetUpGame() returns (g: GameManager, c: IngredientController)
    ensures fresh(g) && fresh(g.blender) && fresh(g.blender.lid) && fresh(g.scene) && fresh(g.results) && fresh(c)
    ensures g.Valid() && c.interactable && c.ingredientManager != null && c !in g.placed
    ensures g.placements == [] && g.movementTask == NoTask && !g.mixRequested && g.mixContinuation == None
    ensures g.lidOpenedWaitCts == None && g.blender.lid.Phase() == Closed && g.blender.ingredients == {}
  {
    var lid := new BlenderLidController();
    var blender := new BlenderController(lid, 1, 2);
    var scene := new Scene();
    var results := new ResultsUI.ResultsUIController(Color(0.0, 1.0, 0.0, 1.0), Color(1.0, 0.0, 0.0, 1.0));
    g := new GameManager(blender, scene, results, 3, Zero3, Vector3(1.0, 0.0, 0.0), Vector3(0.0, 0.0, 1.0));
    var manager := new IngredientManager(Color(1.0, 0.0, 0.0, 1.0), "Tomato");
    c := manager.Acquire(scene, Pose(Zero3, Quaternion(0.0, 0.0, 0.0, 1.0), 3));
  }

  /**
   * As written: the instance is clicked, clicked again while the lid is
   * still opening for it (the second click replaces the movement task by
   * one that has already completed), then the mix button is clicked. The mix may start
   * at once although the only placement has not ended.
   */
  method MixBeforePlacementAsWritten() returns (mixReady: bool, placementEnded: bool)
    ensures mixReady && !placementEnded
  {
    var g, c := SetUpGame();
    g.HandleTouchAsWritten(IngredientHit(c));
    g.HandleTouchAsWritten(IngredientHit(c));
    g.HandleTouchAsWritten(MixButtonHit);
    mixReady := g.mixRequested && g.mixContinuation.Some? && g.TaskComplete(g.mixContinuation.value);
    placementEnded := g.placements[0].stage.Ended();
  }

  /** The same clicks with the corrected handling: the mix waits for the placement. */
  method MixAfterPlacement() returns (mixReady: bool, placementEnded: bool)
    ensures mixReady == placementEnded && !mixReady
  {
    var g, c := SetUpGame();
    g.HandleTouch(IngredientHit(c));
    g.HandleTouch(IngredientHit(c));
    g.HandleTouch(MixButtonHit);
    mixReady := g.mixRequested && g.mixContinuation.Some? && g.TaskComplete(g.mixContinuation.value);
    placementEnded := g.placements[0].stage.Ended();
  }

  /**
   * A level played to its mix: `c` is clicked, the lid opens, `c` flies
   * into the jug, the mix button is clicked during the wait before the lid
   * closes (so that wait is cancelled and the placement ends), and the mix
   * runs on the jug's content.
   */
  method PlayOneLevel(g: GameManager, c: IngredientController, sqrt: real -> real)
    requires g.Valid() && c.interactable && c.ingredientManager != null && c !in g.placed
    requires g.placements == [] && g.movementTask == NoTask && !g.mixRequested
    requires g.blender.lid.Phase() == Closed && g.blender.ingredients == {}
    requires ColorCalculations.IsSquareRoot(sqrt)
    modifies g, g.blender, g.blender.lid, g.scene, g.results, c
    ensures g.Sound() && g.mixRequested && g.mixContinuation == None
    ensures |g.placements| == 1 && g.placements[0].stage == Canceled
    ensures g.movementTask == PlacementTask(0) && g.blender.ingredients == {}
  {
    PlaceWithMixClick(g, c);
    assert multiset([c]) == multiset(g.blender.ingredients);
    var _ := g.RunMix([c], sqrt);
  }

  /** The placement of `c` up to its end, with the mix clicked while the lid waits to close. */
  method PlaceWithMixClick(g: GameManager, c: IngredientController)
    requires g.Valid() && c.interactable && c.ingredientManager != null && c !in g.placed
    requires g.placements == [] && g.movementTask == NoTask && !g.mixRequested
    requires g.blender.lid.Phase() == Closed && g.blender.ingredients == {}
    modifies g, g.blender, g.blender.lid, g.scene, c
    ensures g.Valid() && g.mixRequested && g.mixContinuation == Some(PlacementTask(0))
    ensures |g.placements| == 1 && g.placements[0].stage == Canceled
    ensures g.movementTask == PlacementTask(0) && g.blender.ingredients == {c}
    ensures c.ingredientManager != null
  {
    ClickAndLaunch(g, c);
    g.OnMoveCompletedFor(0);
    g.HandleTouch(MixButtonHit);
    g.OnJugResetCompletedFor(0);
    g.OnJoinedFor(0);
  }

  /** `c` is clicked, the lid opens, and `c` flies into the jug. */
  method ClickAndLaunch(g: GameManager, c: IngredientController)
    requires g.Valid() && c.interactable && c.ingredientManager != null && c !in g.placed
    requires g.placements == [] && g.movementTask == NoTask && !g.mixRequested
    requires g.blender.lid.Phase() == Closed && g.blender.ingredients == {}
    modifies g, g.blender`ingredients, g.blender.lid, g.scene, c
    ensures g.Valid() && !g.mixRequested && g.lidOpenedWaitCts.Some?
    ensures |g.placements| == 1 && g.placements[0].stage.Moving?
    ensures g.movementTask == PlacementTask(0) && g.blender.ingredients == {c}
    ensures c.ingredientManager != null
  {
    g.HandleTouch(IngredientHit(c));
    var tween := g.blender.lid.openingTween.value;
    g.OnLidTweenCompleted(tween);
    g.OnLidOpenedFor(0, Zero3, 1.0);
    g.blender.OnTriggerEnter(c);
  }

  /**
   * As written: after a level was played to its mix, the scene is reset
   * for the next level, whose first click is the mix button. The old
   * movement task passes the button's guard and has completed, so the mix
   * runs on an empty jug, fails unobserved, and leaves the mix requested:
   * every later click is ignored although nothing was placed this level.
   */
  method MixClickAfterResetAsWritten(sqrt: real -> real) returns (mixRan: bool, placedThisLevel: bool, blocked: bool)
    requires ColorCalculations.IsSquareRoot(sqrt)
    ensures mixRan && !placedThisLevel && blocked
  {
    var g, c := SetUpGame();
    PlayOneLevel(g, c, sqrt);
    g.ResetSceneAsWritten([]);
    g.HandleTouchAsWritten(MixButtonHit);
    mixRan := g.mixRequested && g.mixContinuation.Some? && g.TaskComplete(g.mixContinuation.value);
    var lidWait := g.RunMix([], sqrt);
    placedThisLevel := |g.placements| > 1;
    blocked := g.mixRequested && lidWait.None?;
  }

  /** The same run with the corrected reset: the mix click of the new level is ignored. */
  method MixClickAfterReset(sqrt: real -> real) returns (mixRequested: bool)
    requires ColorCalculations.IsSquareRoot(sqrt)
    ensures !mixRequested
  {
    var g, c := SetUpGame();
    PlayOneLevel(g, c, sqrt);
    g.ResetScene([]);
    g.HandleTouch(MixButtonHit);
    mixRequested := g.mixRequested;
  }
}
