/**
 * `BlenderController`: the set of ingredient instances inside the jug, the
 * mix that blends and disposes of them, and the resets of the jug between
 * levels.
 *
 * `MixAsync` enumerates a `HashSet`, whose order is not specified; the model
 * takes that order as a parameter, a sequence listing every member of the
 * set exactly once. The awaits inside one mix (the lid closing, the joined
 * animation and disposal) run to completion within the one method call.
 */
module Blender {
  import opened UnityTypes
  import opened Ingredients
  import opened BlenderLid
  import ColorCalculations

  datatype MixError =
    | NoIngredients   // `MixAsync` called with an empty jug

  datatype MixResult = Mixed(finalColor: Color) | MixFailed(error: MixError)

  /** One `material.DOColor(target, duration)` tween of the colour animation. */
  datatype ColorTween = ColorTween(target: Color, duration: real)

  /**
   * The sequence `AnimateColorMixing` builds: the colour the material gets
   * at once, the colour tweens played one after another, and the fill
   * tween inserted at time 0.
   */
  datatype ColorAnimation = ColorAnimation(initial: Color, steps: seq<ColorTween>, fillTarget: real, fillDuration: real)

  /** The visible stages of one mix, in the order they happen. */
  datatype MixStage = ButtonSwitchedOn | LidClosed | LidAttachedToJug | ContentAnimated | ButtonSwitchedOff | LidParentRestored

  // ---------------------------------------------------------------------------
  // The running mean, as a specification

  /** Every instance has its ingredient asset. */
  predicate HaveManagers(order: seq<IngredientController>)
    reads order
  {
    forall i :: 0 <= i < |order| ==> order[i].ingredientManager != null
  }

  /** The ingredient assets of the instances, in enumeration order. */
  function ManagersOf(order: seq<IngredientController>): (managers: seq<IngredientManager>)
    reads order
    requires HaveManagers(order)
    ensures |managers| == |order|
    ensures forall i :: 0 <= i < |order| ==> managers[i] == order[i].ingredientManager
  {
    if order == [] then [] else ManagersOf(order[..|order| - 1]) + [order[|order| - 1].ingredientManager]
  }

  /** The colours of the ingredient assets. */
  function ColorsOf(managers: seq<IngredientManager>): (colors: seq<Color>)
    ensures |colors| == |managers|
    ensures forall i :: 0 <= i < |managers| ==> colors[i] == managers[i].ingredientColor
  {
    if managers == [] then [] else ColorsOf(managers[..|managers| - 1]) + [managers[|managers| - 1].ingredientColor]
  }

  /** Σ of the colours, channel by channel (alpha included). */
  function ColorTotal(colors: seq<Color>): Color {
    if colors == [] then Clear else AddColors(ColorTotal(colors[..|colors| - 1]), colors[|colors| - 1])
  }

  /** The plain RGB mean of the first `k` colours, alpha 1. */
  function MeanOfFirst(colors: seq<Color>, k: nat): Color
    requires 1 <= k <= |colors|
  {
    var t := ColorTotal(colors[..k]);
    Color(t.r / k as real, t.g / k as real, t.b / k as real, 1.0)
  }

  /** Every ingredient counted once: the recipe a mix blends. */
  function UnitRecipe(managers: seq<IngredientManager>): (recipe: seq<ColorCalculations.CountedIngredient>)
    ensures |recipe| == |managers|
  {
    if managers == [] then []
    else UnitRecipe(managers[..|managers| - 1]) + [ColorCalculations.CountedIngredient(1, managers[|managers| - 1])]
  }

  // ---------------------------------------------------------------------------
  // The controller

  class BlenderController {
    const lid: BlenderLidController
    const jug: TransformId
    /** Serialized settings with their inspector defaults. */
    const resetJugContentAnimationDuration: real
    const mixDuration: real

    /** `_ingredients`, the instances whose colliders are inside the jug. */
    var ingredients: set<IngredientController>
    /** Whether the mix button is in its pushed position. */
    var mixButtonOn: bool
    /** Parent transform of the lid. */
    var lidParent: TransformId
    /** The jug content material's `_Color` and `_Fill`. */
    var contentColor: Color
    var contentFill: real
    /** The jug's rigidbody. */
    var jugConstraints: RigidbodyConstraints
    var jugVelocity: Vector3
    var jugAngularVelocity: Vector3
    /** The stages every mix so far went through. */
    ghost var history: seq<MixStage>

    ghost predicate Valid()
      reads this, lid
    {
      lid.Valid() && mixDuration >= 0.0
    }

    /** `Start`: the content fill level is reset, the button is up. */
    constructor (lid: BlenderLidController, jug: TransformId, lidParent: TransformId,
                 mixDuration: real := 3.0, resetJugContentAnimationDuration: real := 1.0)
      requires lid.Valid() && mixDuration >= 0.0
      ensures Valid()
      ensures this.lid == lid && this.jug == jug && this.lidParent == lidParent
      ensures this.mixDuration == mixDuration
      ensures this.resetJugContentAnimationDuration == resetJugContentAnimationDuration
      ensures ingredients == {} && !mixButtonOn && contentFill == 0.0 && history == []
    {
      this.lid := lid;
      this.jug := jug;
      this.lidParent := lidParent;
      this.mixDuration := mixDuration;
      this.resetJugContentAnimationDuration := resetJugContentAnimationDuration;
      ingredients := {};
      mixButtonOn := false;
      contentColor := Clear;
      contentFill := 0.0;
      jugConstraints := ConstraintsNone;
      jugVelocity := Zero3;
      jugAngularVelocity := Zero3;
      history := [];
    }

    /** `ingredientsNumber`: the size of the content set. */
    function IngredientsNumber(): nat
      reads this
    {
      |ingredients|
    }

    /** A collider enters the jug's trigger; only ingredient instances are recorded. */
    method OnTriggerEnter(component: IngredientController?)
      modifies this`ingredients
      ensures component != null ==> ingredients == old(ingredients) + {component}
      ensures component == null ==> ingredients == old(ingredients)
      ensures component != null && component in old(ingredients) ==> IngredientsNumber() == old(IngredientsNumber())
      ensures component != null && component !in old(ingredients) ==> IngredientsNumber() == old(IngredientsNumber()) + 1
    {
      if component != null && component !in ingredients {
        ingredients := ingredients + {component};
      }
    }

    /** A collider leaves the jug's trigger. */
    method OnTriggerExit(component: IngredientController?)
      modifies this`ingredients
      ensures component != null ==> ingredients == old(ingredients) - {component}
      ensures component == null ==> ingredients == old(ingredients)
      ensures component != null && component in old(ingredients) ==> IngredientsNumber() == old(IngredientsNumber()) - 1
      ensures component != null && component !in old(ingredients) ==> IngredientsNumber() == old(IngredientsNumber())
    {
      if component != null && component in ingredients {
        ingredients := ingredients - {component};
      }
    }

    method OpenLidAsync() returns (wait: Wait)
      requires Valid()
      modifies lid
      ensures Valid()
      ensures old(lid.isOpened) ==> wait == AlreadyDone && unchanged(lid)
      ensures !old(lid.isOpened) ==> lid.Phase() == Opening && wait == TweenCompletion(lid.openingTween.value)
    {
      wait := lid.OpenAsync();
    }

    method CloseLidAsync() returns (wait: Wait)
      requires Valid()
      modifies lid
      ensures Valid()
      ensures old(lid.isClosed) ==> wait == AlreadyDone && unchanged(lid)
      ensures !old(lid.isClosed) ==> lid.Phase() == Closing && wait == TweenCompletion(lid.closingTween.value)
    {
      wait := lid.CloseAsync();
    }

    /**
     * `MixAsync` on the enumeration `order` of the content set. An empty jug
     * is refused before anything changes. Otherwise: the button goes on, the
     * lid closes and is attached to the jug, the content shows the running
     * mean, every instance is released once, the button goes off and the
     * lid gets its parent back; the result is the mean of all colours.
     */
    method Mix(order: seq<IngredientController>, scene: Scene) returns (result: MixResult)
      requires Valid() && scene.Valid()
      requires multiset(order) == multiset(ingredients)
      requires HaveManagers(order)
      modifies this, lid, scene
      ensures Valid() && scene.Valid()
      ensures old(ingredients) == {} ==>
                result == MixFailed(NoIngredients) && unchanged(this) && unchanged(lid) && unchanged(scene)
      ensures old(ingredients) != {} ==>
                && |order| >= 1
                && result == Mixed(old(MeanOfFirst(ColorsOf(ManagersOf(order)), |order|)))
                && history == old(history) + [ButtonSwitchedOn, LidClosed, LidAttachedToJug,
                                              ContentAnimated, ButtonSwitchedOff, LidParentRestored]
                && !mixButtonOn && lidParent == old(lidParent) && lid.Phase() == Closed
                && contentColor == result.finalColor && contentFill == 1.0
                && ingredients == {}
                && scene.released == old(scene.released) + order
                && scene.live == old(scene.live) - old(ingredients)
                && scene.pendingRenewals == old(scene.pendingRenewals)
    {
      if |ingredients| < 1 {
        return MixFailed(NoIngredients);
      }
      EnumerationLength(order, ingredients);
      SetOfEnumeration(order, ingredients);
      ghost var colors := ColorsOf(ManagersOf(order));
      var finalColor := MixContent(order, colors, scene);
      result := Mixed(finalColor);
    }

    /** The non-empty case of `Mix`, on an enumeration of the content. */
    method MixContent(order: seq<IngredientController>, ghost colors: seq<Color>, scene: Scene) returns (finalColor: Color)
      requires Valid() && scene.Valid() && HaveManagers(order) && |order| >= 1
      requires colors == ColorsOf(ManagersOf(order))
      requires (set c | c in order) == ingredients
      modifies this`mixButtonOn, this`lidParent, this`history, this`ingredients, this`contentColor, this`contentFill
      modifies lid, scene`live, scene`released
      ensures Valid() && scene.Valid()
      ensures finalColor == MeanOfFirst(colors, |order|)
      ensures history == old(history) + [ButtonSwitchedOn, LidClosed, LidAttachedToJug,
                                         ContentAnimated, ButtonSwitchedOff, LidParentRestored]
      ensures !mixButtonOn && lidParent == old(lidParent) && lid.Phase() == Closed
      ensures contentColor == finalColor && contentFill == 1.0 && ingredients == {}
      ensures scene.released == old(scene.released) + order
      ensures scene.live == old(scene.live) - old(ingredients)
    {
      StartMix();
      var originalLidParent := lidParent;
      lidParent := jug;
      history := history + [LidAttachedToJug];
      finalColor := Blend(order, colors, scene);
      FinishMix(originalLidParent);
    }

    /** The button is pushed, then the lid closes and the mix waits for it. */
    method StartMix()
      requires Valid()
      modifies this`mixButtonOn, this`history, lid
      ensures Valid()
      ensures mixButtonOn && lid.Phase() == Closed
      ensures history == old(history) + [ButtonSwitchedOn, LidClosed]
    {
      mixButtonOn := true;
      history := history + [ButtonSwitchedOn];
      var closing := CloseLidAsync();
      lid.Settle(closing);
      history := history + [LidClosed];
    }

    /** The animation is over: the button is released and the lid returns to its own parent. */
    method FinishMix(originalLidParent: TransformId)
      modifies this`mixButtonOn, this`lidParent, this`history
      ensures !mixButtonOn && lidParent == originalLidParent
      ensures history == old(history) + [ContentAnimated, ButtonSwitchedOff, LidParentRestored]
    {
      history := history + [ContentAnimated];
      mixButtonOn := false;
      history := history + [ButtonSwitchedOff];
      lidParent := originalLidParent;
      history := history + [LidParentRestored];
    }

    /**
     * The mix proper: the colour animation joined with the disposal. The
     * content ends showing the last step, full; the result is that step.
     */
    method Blend(order: seq<IngredientController>, ghost colors: seq<Color>, scene: Scene) returns (finalColor: Color)
      requires scene.Valid() && HaveManagers(order) && |order| >= 1 && mixDuration >= 0.0
      requires colors == ColorsOf(ManagersOf(order))
      modifies this`ingredients, this`contentColor, this`contentFill, scene`live, scene`released
      ensures scene.Valid()
      ensures finalColor == MeanOfFirst(colors, |order|)
      ensures contentColor == finalColor && contentFill == 1.0 && ingredients == {}
      ensures scene.released == old(scene.released) + order
      ensures scene.live == old(scene.live) - set c | c in order
    {
      finalColor := AnimateContent(order, colors);
      var _ := DisposeIngredients(order, mixDuration, scene);
    }

    /** The colour steps played on the content; the result is the last step. */
    method AnimateContent(order: seq<IngredientController>, ghost colors: seq<Color>) returns (finalColor: Color)
      requires HaveManagers(order) && |order| >= 1 && colors == ColorsOf(ManagersOf(order))
      modifies this`contentColor, this`contentFill
      ensures finalColor == MeanOfFirst(colors, |order|)
      ensures contentColor == finalColor && contentFill == 1.0
    {
      var colorSteps := GenerateMixColorSteps(order);
      var animation := AnimateColorMixing(colorSteps, mixDuration);
      contentColor := animation.initial;
      PlayToEnd(animation);
      finalColor := colorSteps[colorSteps.Length - 1];
    }

    /** The joined animation completes: the content shows its last colour and is full. */
    method PlayToEnd(animation: ColorAnimation)
      modifies this`contentColor, this`contentFill
      ensures contentColor == (if animation.steps == [] then old(contentColor) else animation.steps[|animation.steps| - 1].target)
      ensures contentFill == animation.fillTarget
    {
      if animation.steps != [] {
        contentColor := animation.steps[|animation.steps| - 1].target;
      }
      contentFill := animation.fillTarget;
    }

    /**
     * `DisposeIngredientsAsync`: for each instance, in enumeration order, half
     * a step of waiting, its release, and another half step; then the
     * content set is emptied. The result is the total time waited.
     */
    method DisposeIngredients(order: seq<IngredientController>, duration: real, scene: Scene) returns (elapsedMs: int)
      requires scene.Valid() && HaveManagers(order) && duration >= 0.0
      modifies this`ingredients, scene`live, scene`released
      ensures scene.Valid()
      ensures ingredients == {}
      ensures scene.released == old(scene.released) + order
      ensures scene.live == old(scene.live) - set c | c in order
      ensures order == [] ==> elapsedMs == 0
      ensures order != [] ==> elapsedMs == 2 * |order| * HalfStepMs(duration, |order|)
      ensures elapsedMs <= FloorToInt(duration * 1000.0)
      ensures order != [] ==> elapsedMs as real > duration * 1000.0 - 2.0 * |order| as real
    {
      elapsedMs := 0;
      if order == [] {
        ingredients := {};
        return;
      }
      var halfStepDuration := HalfStepMs(duration, |order|);
      for i := 0 to |order|
        invariant scene.Valid()
        invariant scene.released == old(scene.released) + order[..i]
        invariant scene.live == old(scene.live) - set c | c in order[..i]
        invariant elapsedMs == 2 * i * halfStepDuration
      {
        elapsedMs := elapsedMs + halfStepDuration;
        order[i].ingredientManager.Release(scene, order[i]);
        elapsedMs := elapsedMs + halfStepDuration;
        assert order[..i + 1] == order[..i] + [order[i]];
      }
      assert order[..|order|] == order;
      ingredients := {};
      DisposalSpansDuration(duration, |order|);
    }

    /**
     * `ResetJugContentAsync`: a negative duration (the default -1) means the
     * configured one. The jug is frozen for the two halves of the reset.
     */
    method ResetJugContentAsync(animationDuration: real := -1.0) returns (moveForward: real, moveBackwards: real)
      modifies this`jugConstraints
      ensures jugConstraints == FreezeAll
      ensures var effective := if animationDuration < 0.0 then resetJugContentAnimationDuration else animationDuration;
              moveForward == effective / 2.0 && moveBackwards == effective / 2.0
              && moveForward + moveBackwards == effective
    {
      var duration := animationDuration;
      if duration < 0.0 {
        duration := resetJugContentAnimationDuration;
      }
      jugConstraints := FreezeAll;
      moveForward := duration / 2.0;
      moveBackwards := duration / 2.0;
    }

    /** The two halves of the content reset complete: the content is empty and the jug free again. */
    method OnJugContentResetCompleted()
      modifies this`contentFill, this`jugConstraints
      ensures contentFill == 0.0 && jugConstraints == ConstraintsNone
    {
      ResetJugContentFillLevel();
      jugConstraints := ConstraintsNone;
    }

    method ResetJugContentFillLevel()
      modifies this`contentFill
      ensures contentFill == 0.0
    {
      contentFill := 0.0;
    }

    /**
     * `ResetJugTransformAsync` (a rotate and a move back to the start, half a
     * second each unless told otherwise) completes: `ResetJugPhysics` runs as
     * its callback.
     */
    method OnJugTransformResetCompleted()
      modifies this`jugVelocity, this`jugAngularVelocity
      ensures jugVelocity == Zero3 && jugAngularVelocity == Zero3
    {
      ResetJugPhysics();
    }

    method ResetJugPhysics()
      modifies this`jugVelocity, this`jugAngularVelocity
      ensures jugVelocity == Zero3 && jugAngularVelocity == Zero3
    {
      jugVelocity := Zero3;
      jugAngularVelocity := Zero3;
    }
  }

  // ---------------------------------------------------------------------------
  // The colour steps and their animation

  /**
   * `GenerateMixColorSteps`: one step per instance; step `i` is the RGB mean
   * of the first `i + 1` colours in enumeration order, with alpha 1. The
   * running sum starts from black, whose RGB is zero.
   */
  method GenerateMixColorSteps(ingredients: seq<IngredientController>) returns (colorSteps: array<Color>)
    requires HaveManagers(ingredients)
    ensures fresh(colorSteps)
    ensures colorSteps.Length == |ingredients|
    ensures forall i :: 0 <= i < colorSteps.Length ==> colorSteps[i] == MeanOfFirst(ColorsOf(ManagersOf(ingredients)), i + 1)
  {
    colorSteps := new Color[|ingredients|](_ => Black);
    ghost var colors := ColorsOf(ManagersOf(ingredients));
    var mixColor := Black;
    for i := 0 to |ingredients|
      invariant mixColor == AddColors(Black, ColorTotal(colors[..i]))
      invariant forall j :: 0 <= j < i ==> colorSteps[j] == MeanOfFirst(colors, j + 1)
    {
      assert colors[i] == ingredients[i].ingredientManager.ingredientColor;
      var sum := AddColors(mixColor, ingredients[i].ingredientManager.ingredientColor);
      var step := DivideColor(sum, (i + 1) as real).(a := 1.0);
      RunningStep(colors, i, mixColor);
      mixColor := sum;
      colorSteps[i] := step;
    }
  }

  /** One turn of the loop above: the running sum takes in colour `i`, and its mean is step `i`. */
  lemma RunningStep(colors: seq<Color>, i: nat, sum: Color)
    requires i < |colors| && sum == AddColors(Black, ColorTotal(colors[..i]))
    ensures AddColors(sum, colors[i]) == AddColors(Black, ColorTotal(colors[..i + 1]))
    ensures DivideColor(AddColors(sum, colors[i]), (i + 1) as real).(a := 1.0) == MeanOfFirst(colors, i + 1)
  {
    assert colors[..i + 1][..i] == colors[..i];
  }

  /** Σ of the colour tweens' durations. */
  function TotalDuration(steps: seq<ColorTween>): real {
    if steps == [] then 0.0 else TotalDuration(steps[..|steps| - 1]) + steps[|steps| - 1].duration
  }

  /**
   * `AnimateColorMixing`: the first step is applied at once; each later step
   * gets an equal share of `duration`, so the tweens together last exactly
   * `duration` (no tween at all for a single step); the fill rises to 1 over
   * the whole `duration`.
   */
  method AnimateColorMixing(colorSteps: array<Color>, duration: real) returns (animation: ColorAnimation)
    requires colorSteps.Length >= 1
    ensures animation.initial == colorSteps[0]
    ensures |animation.steps| == colorSteps.Length - 1
    ensures forall j :: 0 <= j < |animation.steps| ==>
              animation.steps[j] == ColorTween(colorSteps[j + 1], duration / (colorSteps.Length - 1) as real)
    ensures TotalDuration(animation.steps) == if colorSteps.Length > 1 then duration else 0.0
    ensures animation.fillTarget == 1.0 && animation.fillDuration == duration
  {
    var stepsNumber := colorSteps.Length;
    var steps: seq<ColorTween> := [];
    if stepsNumber > 1 {
      var stepDuration := duration / (stepsNumber - 1) as real;
      for i := 1 to stepsNumber
        invariant |steps| == i - 1
        invariant forall j :: 0 <= j < |steps| ==> steps[j] == ColorTween(colorSteps[j + 1], stepDuration)
        invariant TotalDuration(steps) == (i - 1) as real * stepDuration
      {
        assert (steps + [ColorTween(colorSteps[i], stepDuration)])[..|steps|] == steps;
        steps := steps + [ColorTween(colorSteps[i], stepDuration)];
      }
      ColorCalculations.DivideThenMultiply(duration, (stepsNumber - 1) as real);
    }
    animation := ColorAnimation(colorSteps[0], steps, 1.0, duration);
  }

  /** `floor(duration / n * 1000 / 2)`: half of one instance's share of the mix, in milliseconds. */
  function HalfStepMs(duration: real, n: nat): int
    requires n > 0
  {
    FloorToInt(duration / n as real * 1000.0 / 2.0)
  }

  /** The `2n` half steps together last the mix duration, up to the rounding of each half step down. */
  lemma DisposalSpansDuration(duration: real, n: nat)
    requires n > 0 && duration >= 0.0
    ensures 2 * n * HalfStepMs(duration, n) <= FloorToInt(duration * 1000.0)
    ensures (2 * n * HalfStepMs(duration, n)) as real > duration * 1000.0 - 2.0 * n as real
  {
    var h := HalfStepMs(duration, n);
    var y := duration / n as real * 1000.0 / 2.0;
    var k := 2.0 * n as real;
    assert k * y == duration * 1000.0 by {
      ColorCalculations.DivideThenMultiply(duration, n as real);
    }
    FloorScaledAtMost(k, y, h as real, duration * 1000.0);
    FloorScaledAbove(k, y, h as real, duration * 1000.0);
    IntProductAsReal(2 * n, h);
  }

  /** `k` copies of a value rounded down to `h` are at most `k` copies of the value... */
  lemma FloorScaledAtMost(k: real, y: real, h: real, total: real)
    requires k > 0.0 && h <= y && k * y == total
    ensures k * h <= total
  {
    ProductMonotone(k, h, y);
  }

  /** ... and fall short of them by less than `k`. */
  lemma FloorScaledAbove(k: real, y: real, h: real, total: real)
    requires k > 0.0 && y < h + 1.0 && k * y == total
    ensures k * h > total - k
  {
    ProductMonotone(k, y - 1.0, h);
    DistributeOverOne(k, y);
  }

  lemma DistributeOverOne(k: real, y: real)
    ensures k * (y - 1.0) == k * y - k
  {
  }

  /** Converting to `real` commutes with multiplication. */
  lemma {:induction false} IntProductAsReal(a: nat, b: int)
    ensures (a * b) as real == a as real * b as real
  {
    if a > 0 {
      IntProductAsReal(a - 1, b);
      assert a * b == (a - 1) * b + b;
    }
  }

  lemma ProductMonotone(k: real, x: real, y: real)
    requires k > 0.0 && x <= y
    ensures k * x <= k * y
    ensures x < y ==> k * x < k * y
  {
  }

  // ---------------------------------------------------------------------------
  // What the running mean means

  /** An enumeration of a set lists exactly its members. */
  lemma SetOfEnumeration(order: seq<IngredientController>, s: set<IngredientController>)
    requires multiset(order) == multiset(s)
    ensures (set c | c in order) == s
  {
    forall c | c in order ensures c in s {
      assert c in multiset(order);
    }
    forall c | c in s ensures c in order {
      assert c in multiset(s);
    }
  }

  /** An enumeration of a set lists every member once, so it is as long as the set is large. */
  lemma EnumerationLength(order: seq<IngredientController>, s: set<IngredientController>)
    requires multiset(order) == multiset(s)
    ensures |order| == |s|
  {
    assert |order| == |multiset(order)|;
  }

  /** Each step is the mean of its prefix: channel times count gives the prefix's channel total. */
  lemma MeanOfFirstIsMean(colors: seq<Color>, k: nat)
    requires 1 <= k <= |colors|
    ensures var m, t := MeanOfFirst(colors, k), ColorTotal(colors[..k]);
            m.r * k as real == t.r && m.g * k as real == t.g && m.b * k as real == t.b && m.a == 1.0
  {
    var t := ColorTotal(colors[..k]);
    ColorCalculations.DivideThenMultiply(t.r, k as real);
    ColorCalculations.DivideThenMultiply(t.g, k as real);
    ColorCalculations.DivideThenMultiply(t.b, k as real);
  }

  /** The first step is the first colour's own RGB. */
  lemma FirstStepIsFirstColor(colors: seq<Color>)
    requires |colors| >= 1
    ensures SameRgb(MeanOfFirst(colors, 1), colors[0]) && MeanOfFirst(colors, 1).a == 1.0
  {
    var first := colors[..1];
    assert first[..0] == [];
    assert ColorTotal(first) == AddColors(Clear, colors[0]);
  }

  /** The total of the ingredients' colours is the unit recipe's weighted total. */
  lemma {:induction false} ColorTotalIsUnitWeightedTotal(managers: seq<IngredientManager>)
    ensures ColorTotal(ColorsOf(managers)) == ColorCalculations.WeightedTotal(UnitRecipe(managers))
    ensures ColorCalculations.TotalWeight(UnitRecipe(managers)) == |managers|
  {
    if managers != [] {
      var n := |managers| - 1;
      var front, last := managers[..n], managers[n];
      var recipe := UnitRecipe(managers);
      var entry := ColorCalculations.CountedIngredient(1, last);
      ColorTotalIsUnitWeightedTotal(front);
      assert ColorTotal(ColorsOf(managers)) == AddColors(ColorTotal(ColorsOf(front)), last.ingredientColor) by {
        assert ColorsOf(managers)[..n] == ColorsOf(front);
      }
      assert recipe[..n] == UnitRecipe(front) && recipe[n] == entry;
      assert ColorCalculations.Contribution(entry) == last.ingredientColor;
    }
  }

  /**
   * The last step, the colour a mix returns, is what `MixColors` gives for
   * a recipe naming every ingredient in the jug with count 1.
   */
  lemma FinalStepIsUnitMix(managers: seq<IngredientManager>)
    requires |managers| >= 1
    ensures MeanOfFirst(ColorsOf(managers), |managers|) == ColorCalculations.MixOf(UnitRecipe(managers))
  {
    assert ColorsOf(managers)[..|managers|] == ColorsOf(managers);
    ColorTotalIsUnitWeightedTotal(managers);
  }

  lemma {:induction false} ColorTotalOfConcat(xs: seq<Color>, ys: seq<Color>)
    ensures ColorTotal(xs + ys) == AddColors(ColorTotal(xs), ColorTotal(ys))
    decreases |ys|
  {
    if ys == [] {
      assert xs + ys == xs;
    } else {
      var n := |ys| - 1;
      assert (xs + ys)[..|xs + ys| - 1] == xs + ys[..n];
      ColorTotalOfConcat(xs, ys[..n]);
    }
  }

  /** Taking colour `j` out of the list takes it out of the total. */
  lemma ColorTotalWithout(s: seq<Color>, j: nat)
    requires j < |s|
    ensures ColorTotal(s) == AddColors(ColorTotal(s[..j] + s[j + 1..]), s[j])
  {
    ColorCalculations.SplitAt(s, j);
    ColorTotalAround(s[..j], s[j], s[j + 1..]);
  }

  lemma ColorTotalAround(front: seq<Color>, x: Color, back: seq<Color>)
    ensures ColorTotal((front + [x]) + back) == AddColors(ColorTotal(front + back), x)
  {
    var tf, tb := ColorTotal(front), ColorTotal(back);
    assert ColorTotal((front + [x]) + back) == AddColors(AddColors(tf, x), tb) by {
      ColorTotalOfConcat(front + [x], back);
      ColorTotalOfConcat(front, [x]);
      ColorTotalOfSingle(x);
    }
    assert ColorTotal(front + back) == AddColors(tf, tb) by {
      ColorTotalOfConcat(front, back);
    }
    ColorCalculations.AddColorsSwapLast(tf, x, tb);
  }

  lemma ColorTotalOfSingle(c: Color)
    ensures ColorTotal([c]) == c
  {
    assert [c][..0] == [];
  }

  /** Reordering the colours keeps their total. */
  lemma {:induction false} ColorTotalOfPermutation(colors: seq<Color>, others: seq<Color>)
    requires multiset(colors) == multiset(others)
    ensures ColorTotal(colors) == ColorTotal(others)
    decreases |colors|
  {
    if colors != [] {
      var n := |colors| - 1;
      var j := ColorCalculations.MatchLast(colors, others);
      ColorTotalOfPermutation(colors[..n], others[..j] + others[j + 1..]);
      ColorTotalWithout(others, j);
    }
  }

  /**
   * The final colour depends only on which colours went in, not on the
   * enumeration order, although the intermediate steps do (see
   * `StepsDependOnOrder`).
   */
  lemma FinalStepOrderIndependent(colors: seq<Color>, others: seq<Color>)
    requires |colors| >= 1 && multiset(colors) == multiset(others)
    ensures |others| == |colors|
    ensures MeanOfFirst(colors, |colors|) == MeanOfFirst(others, |others|)
  {
    assert |colors| == |multiset(colors)| == |multiset(others)| == |others|;
    assert colors[..|colors|] == colors && others[..|others|] == others;
    ColorTotalOfPermutation(colors, others);
  }

  /** Two colours with different RGB: the first step shows whichever came first, the last step is the same. */
  lemma StepsDependOnOrder(x: Color, y: Color)
    requires !SameRgb(x, y)
    ensures MeanOfFirst([x, y], 1) != MeanOfFirst([y, x], 1)
    ensures MeanOfFirst([x, y], 2) == MeanOfFirst([y, x], 2)
  {
    FirstStepIsFirstColor([x, y]);
    FirstStepIsFirstColor([y, x]);
    assert multiset([x, y]) == multiset([y, x]);
    FinalStepOrderIndependent([x, y], [y, x]);
  }

  /** The colour total of in-gamut colours has every RGB channel between 0 and the number of colours. */
  lemma {:induction false} ColorTotalBounded(colors: seq<Color>)
    requires forall i :: 0 <= i < |colors| ==> InGamut(colors[i])
    ensures ColorCalculations.ChannelsWithin(ColorTotal(colors), |colors| as real)
  {
    if colors != [] {
      var n := |colors| - 1;
      ColorTotalBounded(colors[..n]);
      ColorCalculations.SumWithin(ColorTotal(colors[..n]), n as real, colors[n], 1.0);
    }
  }

  /** Every step of in-gamut colours is in gamut. */
  lemma StepInGamut(colors: seq<Color>, k: nat)
    requires 1 <= k <= |colors|
    requires forall i :: 0 <= i < |colors| ==> InGamut(colors[i])
    ensures InGamut(MeanOfFirst(colors, k))
  {
    var prefix := colors[..k];
    ColorTotalBounded(prefix);
    var t, kr := ColorTotal(prefix), k as real;
    ColorCalculations.QuotientInUnitRange(t.r, kr);
    ColorCalculations.QuotientInUnitRange(t.g, kr);
    ColorCalculations.QuotientInUnitRange(t.b, kr);
  }
}
