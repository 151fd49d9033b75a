/**
 * Ingredient instances and their lifecycle: the controller attached to each
 * instance, the ingredient asset (`IngredientManager`) that creates and
 * destroys instances, and the scene registry of live instances those calls
 * act on.
 */
module Ingredients {
  import opened UnityTypes
  import opened Decimal

  datatype Outcome = Pass | Fail(error: Error)

  datatype Error =
    | ReassignmentForbidden   // a second assignment of `ingredientManager`

  /** `Mathf.Deg2Rad` as the single-precision constant Unity ships. */
  const Deg2Rad: real := 0.0174532924

  /**
   * `IngredientController`, the component on every ingredient instance.
   * The transform is kept as `pose`; the rigidbody as its constraint mask
   * and its two velocities.
   */
  class IngredientController {
    /** Serialized settings with their inspector defaults. */
    const animationExtraHeight: real
    const animationRotation: Vector3
    /** `GetInstanceID()`, fixed when the instance is created. */
    const instanceId: int

    var interactable: bool
    /** The backing field `_ingredientManager`; null until assigned. */
    var ingredientManager: IngredientManager?
    var name: string
    var pose: Pose
    var constraints: RigidbodyConstraints
    var velocity: Vector3
    var angularVelocity: Vector3

    /**
     * `Object.Instantiate` of the prefab: Unity names the copy
     * "<prefab>(Clone)"; the prefab itself is taken to be at rest and
     * unconstrained.
     */
    constructor (prefabName: string, instanceId: int, pose: Pose)
      ensures this.instanceId == instanceId && this.pose == pose
      ensures name == prefabName + "(Clone)"
      ensures interactable && ingredientManager == null
      ensures constraints == ConstraintsNone && velocity == Zero3 && angularVelocity == Zero3
      ensures animationExtraHeight == 0.5 && animationRotation == Zero3
    {
      animationExtraHeight := 0.5;
      animationRotation := Zero3;
      this.instanceId := instanceId;
      interactable := true;
      ingredientManager := null;
      name := prefabName + "(Clone)";
      this.pose := pose;
      constraints := ConstraintsNone;
      velocity := Zero3;
      angularVelocity := Zero3;
    }

    /** The `ingredientManager` setter: the first assignment wins, a later one throws. */
    method SetIngredientManager(value: IngredientManager?) returns (outcome: Outcome)
      modifies this`ingredientManager
      ensures old(ingredientManager) == null ==> outcome == Pass && ingredientManager == value
      ensures old(ingredientManager) != null ==>
                outcome == Fail(ReassignmentForbidden) && ingredientManager == old(ingredientManager)
    {
      if ingredientManager != null {
        return Fail(ReassignmentForbidden);
      }
      ingredientManager := value;
      outcome := Pass;
    }

    /** Freezes X and Z position and every rotation axis; Y position stays free so the instance can fall. */
    method FreezePhysics()
      modifies this`constraints
      ensures Freezes(constraints, FreezePositionX) && Freezes(constraints, FreezePositionZ)
      ensures Freezes(constraints, FreezeRotation)
      ensures constraints & FreezePositionY == 0
      ensures constraints == FreezePositionX | FreezePositionZ | FreezeRotation
    {
      constraints := FreezePositionX | FreezePositionZ | FreezeRotation;
    }

    method UnfreezePhysics()
      modifies this`constraints
      ensures constraints == ConstraintsNone
    {
      constraints := ConstraintsNone;
    }

    /**
     * `MoveToAsync`: clears every constraint, then launches the instance.
     * The launch velocity and flight time come from the trajectory
     * calculation, which is not part of this model; the result is the
     * length of the wait, in milliseconds, that ends the move.
     */
    method MoveTo(launchVelocity: Vector3, flightTime: real) returns (waitMs: int)
      requires flightTime > 0.0
      modifies this`constraints, this`velocity, this`angularVelocity
      ensures constraints == ConstraintsNone
      ensures velocity == launchVelocity
      ensures angularVelocity == ScaleVector(Deg2Rad / flightTime, animationRotation)
      ensures waitMs == FloorToInt(flightTime * 1000.0) && waitMs >= 0
    {
      UnfreezePhysics();
      velocity := launchVelocity;
      angularVelocity := ScaleVector(Deg2Rad / flightTime, animationRotation);
      waitMs := FloorToInt(flightTime * 1000.0);
    }

    method ResetPhysics()
      modifies this`velocity, this`angularVelocity
      ensures velocity == Zero3 && angularVelocity == Zero3
    {
      velocity := Zero3;
      angularVelocity := Zero3;
    }
  }

  /** A `RenewAtAsync` call whose delay has not yet elapsed. */
  datatype Renewal = Renewal(manager: IngredientManager, pose: Pose, delayMs: int)

  /**
   * The part of the scene the ingredient assets act on: the live instances,
   * the `Release` calls made so far, and renewals still waiting for their
   * delay. Instance ids are handed out by a counter, so they are unique.
   */
  class Scene {
    var live: set<IngredientController>
    var released: seq<IngredientController>
    var pendingRenewals: seq<Renewal>
    var nextInstanceId: int
    /** How many renewals were scheduled, and how many have acquired their instance. */
    ghost var renewalsScheduled: nat
    ghost var renewalsCompleted: nat

    ghost predicate Valid()
      reads this
    {
      && (forall c :: c in live ==> c.instanceId < nextInstanceId)
      && renewalsCompleted + |pendingRenewals| == renewalsScheduled
    }

    constructor ()
      ensures Valid()
      ensures live == {} && released == [] && pendingRenewals == []
    {
      live, released, pendingRenewals := {}, [], [];
      nextInstanceId := 0;
      renewalsScheduled, renewalsCompleted := 0, 0;
    }

    /** `Object.Destroy` called directly on an instance, without its asset's `Release`. */
    method Destroy(c: IngredientController)
      requires Valid()
      modifies this`live
      ensures Valid()
      ensures live == old(live) - {c}
    {
      live := live - {c};
    }

    /** The delay of pending renewal `k` elapses: it performs its one `Acquire` and leaves the queue. */
    method CompleteRenewal(k: nat) returns (c: IngredientController?)
      requires Valid()
      modifies this
      ensures Valid()
      ensures k >= |old(pendingRenewals)| ==> c == null && unchanged(this)
      ensures k < |old(pendingRenewals)| ==>
                && c != null && fresh(c) && c !in old(live)
                && live == old(live) + {c}
                && c.ingredientManager == old(pendingRenewals[k].manager)
                && c.pose == old(pendingRenewals[k].pose) && c.interactable
                && pendingRenewals == old(pendingRenewals[..k] + pendingRenewals[k + 1..])
                && renewalsCompleted == old(renewalsCompleted) + 1
                && renewalsScheduled == old(renewalsScheduled)
                && released == old(released)
    {
      if k >= |pendingRenewals| {
        return null;
      }
      var renewal := pendingRenewals[k];
      pendingRenewals := pendingRenewals[..k] + pendingRenewals[k + 1..];
      renewalsCompleted := renewalsCompleted + 1;
      c := renewal.manager.Acquire(this, renewal.pose);
    }
  }

  /** `IngredientManager`, the asset describing one kind of ingredient. */
  class IngredientManager {
    const ingredientColor: Color
    const prefabName: string
    const renewDelay: real

    constructor (ingredientColor: Color, prefabName: string, renewDelay: real := 1.0)
      ensures this.ingredientColor == ingredientColor && this.prefabName == prefabName
      ensures this.renewDelay == renewDelay
    {
      this.ingredientColor := ingredientColor;
      this.prefabName := prefabName;
      this.renewDelay := renewDelay;
    }

    /** A new live instance at `pose`, named after its instance id, owned by this asset. */
    method Acquire(scene: Scene, pose: Pose) returns (c: IngredientController)
      requires scene.Valid()
      modifies scene`live, scene`nextInstanceId
      ensures scene.Valid() && fresh(c)
      ensures c !in old(scene.live) && scene.live == old(scene.live) + {c}
      ensures c.instanceId == old(scene.nextInstanceId)
      ensures forall d :: d in old(scene.live) ==> d.instanceId != c.instanceId
      ensures c.name == prefabName + "(Clone)" + " " + IntToString(c.instanceId)
      ensures c.ingredientManager == this && c.pose == pose && c.interactable
      ensures c.constraints == ConstraintsNone && c.velocity == Zero3 && c.angularVelocity == Zero3
    {
      c := new IngredientController(prefabName, scene.nextInstanceId, pose);
      scene.nextInstanceId := scene.nextInstanceId + 1;
      scene.live := scene.live + {c};
      c.name := c.name + " " + IntToString(c.instanceId);
      var _ := c.SetIngredientManager(this);
    }

    /** Destroys exactly the given instance. */
    method Release(scene: Scene, c: IngredientController)
      requires scene.Valid()
      modifies scene`live, scene`released
      ensures scene.Valid()
      ensures scene.live == old(scene.live) - {c}
      ensures scene.released == old(scene.released) + [c]
    {
      scene.live := scene.live - {c};
      scene.released := scene.released + [c];
    }

    /**
     * `RenewAtAsync`: after `floor(renewDelay * 1000)` milliseconds, one
     * `Acquire` at the given placement. The wait is queued here; the
     * scene's `CompleteRenewal` is the moment it elapses.
     */
    method RenewAt(scene: Scene, pose: Pose)
      requires scene.Valid()
      modifies scene`pendingRenewals, scene`renewalsScheduled
      ensures scene.Valid()
      ensures scene.pendingRenewals
              == old(scene.pendingRenewals) + [Renewal(this, pose, FloorToInt(renewDelay * 1000.0))]
      ensures scene.renewalsScheduled == old(scene.renewalsScheduled) + 1
    {
      scene.pendingRenewals := scene.pendingRenewals + [Renewal(this, pose, FloorToInt(renewDelay * 1000.0))];
      scene.renewalsScheduled := scene.renewalsScheduled + 1;
    }
  }
}
