/**
 * The older snapshot of the ingredient component and of the level list,
 * kept beside the newer ones: the ingredient jumps to its destination with
 * a fixed tween instead of a computed launch, and a level stores its
 * target colour and ingredients directly instead of a recipe.
 */
module Legacy {
  import opened UnityTypes
  import opened Ingredients
  import opened Levels

  /** The `DOJump` tween `MoveToAsync` starts and awaits. */
  datatype Jump = Jump(destination: Vector3, jumpPower: real, numJumps: nat, duration: real)

  /** The older `IngredientController`. */
  class LegacyIngredientController {
    const animationJumpPower: real
    const animationDuration: real

    var interactable: bool
    var ingredientManager: IngredientManager?
    var constraints: RigidbodyConstraints
    var velocity: Vector3
    var angularVelocity: Vector3

    /** A fresh component: interactable, no asset yet, at rest; the jump settings have their inspector defaults. */
    constructor ()
      ensures interactable && ingredientManager == null
      ensures constraints == ConstraintsNone && velocity == Zero3 && angularVelocity == Zero3
      ensures animationJumpPower == 0.5 && animationDuration == 1.0
    {
      animationJumpPower := 0.5;
      animationDuration := 1.0;
      interactable := true;
      ingredientManager := null;
      constraints := ConstraintsNone;
      velocity := Zero3;
      angularVelocity := Zero3;
    }

    /** The `ingredientManager` setter: the first assignment wins, a later one throws. */
    method SetIngredientManager(value: IngredientManager?) returns (outcome: Outcome)
      modifies this`ingredientManager
      ensures old(ingredientManager) == null ==> outcome == Pass && ingredientManager == value
      ensures old(ingredientManager) != null ==>
                outcome == Fail(ReassignmentForbidden) && ingredientManager == old(ingredientManager)
    {
      if ingredientManager != null {
        return Fail(ReassignmentForbidden);
      }
      ingredientManager := value;
      outcome := Pass;
    }

    /** Freezes X and Z position and every rotation axis, leaving Y position free. */
    method FreezePhysics()
      modifies this`constraints
      ensures Freezes(constraints, FreezePositionX) && Freezes(constraints, FreezePositionZ)
      ensures Freezes(constraints, FreezeRotation)
      ensures constraints & FreezePositionY == 0
      ensures constraints == FreezePositionX | FreezePositionZ | FreezeRotation
    {
      constraints := FreezePositionX | FreezePositionZ | FreezeRotation;
    }

    method UnfreezePhysics()
      modifies this`constraints
      ensures constraints == ConstraintsNone
    {
      constraints := ConstraintsNone;
    }

    /** `MoveToAsync`: every constraint is cleared first, then one jump of the configured power and length. */
    method MoveTo(destination: Vector3) returns (jump: Jump)
      modifies this`constraints
      ensures constraints == ConstraintsNone
      ensures jump == Jump(destination, animationJumpPower, 1, animationDuration)
    {
      UnfreezePhysics();
      jump := Jump(destination, animationJumpPower, 1, animationDuration);
    }

    method ResetPhysics()
      modifies this`velocity, this`angularVelocity
      ensures velocity == Zero3 && angularVelocity == Zero3
    {
      velocity := Zero3;
      angularVelocity := Zero3;
    }
  }

  /**
   * The frozen mask leaves exactly the Y position free: of the six single
   * axis flags, it holds all but `FreezePositionY`.
   */
  lemma FrozenMaskFreesOnlyY(flag: RigidbodyConstraints)
    requires flag in {FreezePositionX, FreezePositionY, FreezePositionZ, FreezeRotationX, FreezeRotationY, FreezeRotationZ}
    ensures Freezes(FreezePositionX | FreezePositionZ | FreezeRotation, flag) <==> flag != FreezePositionY
    ensures !Freezes(ConstraintsNone, flag)
  {
  }

  /** The older `LevelSettings`: the target colour and the ingredients are stored as they are. */
  class LegacyLevelSettings {
    var targetColor: Color
    var ingredients: seq<IngredientManager>

    constructor (targetColor: Color, ingredients: seq<IngredientManager>)
      ensures this.targetColor == targetColor && this.ingredients == ingredients
    {
      this.targetColor := targetColor;
      this.ingredients := ingredients;
    }
  }

  /** The older `LevelManager`: the same index cycling; a start hands the stored level on unchanged. */
  class LegacyLevelManager {
    const levels: seq<LegacyLevelSettings?>
    var currentLevelIndex: nat

    ghost predicate Valid()
      reads this
    {
      currentLevelIndex < |levels| || currentLevelIndex == 0
    }

    constructor (levels: seq<LegacyLevelSettings?>)
      ensures Valid()
      ensures this.levels == levels && currentLevelIndex == 0
    {
      this.levels := levels;
      currentLevelIndex := 0;
    }

    method StartLevel(level: LegacyLevelSettings?) returns (start: LevelStart)
      ensures level == null ==> start == AbsentLevel(currentLevelIndex)
      ensures level != null ==> start == Started(level.targetColor, level.ingredients)
    {
      if level == null {
        return AbsentLevel(currentLevelIndex);
      }
      start := Started(level.targetColor, level.ingredients);
    }

    method RestartLevel() returns (start: LevelStart)
      requires Valid()
      ensures |levels| == 0 ==> start == IndexOutOfRange
      ensures |levels| > 0 ==>
                var level := levels[currentLevelIndex];
                if level == null then start == AbsentLevel(currentLevelIndex)
                else start == Started(level.targetColor, level.ingredients)
    {
      if currentLevelIndex >= |levels| {
        return IndexOutOfRange;
      }
      start := StartLevel(levels[currentLevelIndex]);
    }

    method StartNextLevel() returns (start: LevelStart)
      requires Valid()
      modifies this
      ensures Valid()
      ensures |levels| == 0 ==> start == DivideByZero && currentLevelIndex == old(currentLevelIndex)
      ensures |levels| > 0 ==>
                && currentLevelIndex == NextIndex(old(currentLevelIndex), |levels|)
                && var level := levels[currentLevelIndex];
                   if level == null then start == AbsentLevel(currentLevelIndex)
                   else start == Started(level.targetColor, level.ingredients)
    {
      if |levels| == 0 {
        return DivideByZero;
      }
      NextIndexInRange(currentLevelIndex, |levels|);
      currentLevelIndex := (currentLevelIndex + 1) % |levels|;
      start := StartLevel(levels[currentLevelIndex]);
    }
  }
}
