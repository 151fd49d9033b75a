/**
 * `LevelManager` and `LevelSettings`: the serialized list of levels, the
 * index of the current one, and the request each start hands on to the
 * game manager — the target colour blended from the level's recipe and the
 * recipe's ingredients in order.
 */
module Levels {
  import opened UnityTypes
  import opened Ingredients
  import opened ColorCalculations

  /** The asset of one level: its recipe. */
  class LevelSettings {
    var countedIngredients: seq<CountedIngredient>

    constructor (countedIngredients: seq<CountedIngredient>)
      ensures this.countedIngredients == countedIngredients
    {
      this.countedIngredients := countedIngredients;
    }
  }

  /** The call `StartLevelAsync(targetColor, ingredients)` a start makes, or the exception that stops it. */
  datatype LevelStart =
    | Started(targetColor: Color, ingredients: seq<IngredientManager>)
    | AbsentLevel(index: int)   // the slot holds no level
    | IndexOutOfRange           // there are no levels to index
    | DivideByZero              // `% _levels.Length` with no levels

  /** `Select(ingredientCounted => ingredientCounted.ingredient)`: the recipe's ingredients, in recipe order. */
  function IngredientsOf(countedIngredients: seq<CountedIngredient>): (ingredients: seq<IngredientManager>)
    ensures |ingredients| == |countedIngredients|
    ensures forall i :: 0 <= i < |ingredients| ==> ingredients[i] == countedIngredients[i].ingredient
  {
    if countedIngredients == [] then []
    else IngredientsOf(countedIngredients[..|countedIngredients| - 1]) + [countedIngredients[|countedIngredients| - 1].ingredient]
  }

  /** The index after `index` among `n` levels, wrapping from the last back to the first. */
  function NextIndex(index: nat, n: nat): nat
    requires n > 0
  {
    (index + 1) % n
  }

  /** `NextIndex` applied `k` times. */
  function Advanced(index: nat, n: nat, k: nat): nat
    requires n > 0
  {
    if k == 0 then index else NextIndex(Advanced(index, n, k - 1), n)
  }

  /** The next index is always a valid one, and it is one more than the current one except after the last. */
  lemma NextIndexInRange(index: nat, n: nat)
    requires n > 0 && index < n
    ensures NextIndex(index, n) < n
    ensures index + 1 < n ==> NextIndex(index, n) == index + 1
    ensures index + 1 == n ==> NextIndex(index, n) == 0
  {
  }

  /** Moving on `k` times from a valid index lands `k` places further, counted round the list. */
  lemma {:induction false} AdvancedClosedForm(index: nat, n: nat, k: nat)
    requires n > 0 && index < n
    ensures Advanced(index, n, k) == (index + k) % n
  {
    if k > 0 {
      var x: nat := index + k - 1;
      AdvancedClosedForm(index, n, k - 1);
      assert Advanced(index, n, k) == NextIndex(x % n, n);
      ModSucc(x, n);
    }
  }

  lemma ModSucc(x: nat, n: nat)
    requires n > 0
    ensures (x % n + 1) % n == (x + 1) % n
  {
    var q := x / n;
    assert x == q * n + x % n;
    ShiftMod(x % n + 1, q, n);
  }

  lemma ShiftMod(r: int, q: int, n: int)
    requires n > 0
    ensures (q * n + r) % n == r % n
  {
    var q2, r2 := (q * n + r) / n, (q * n + r) % n;
    var q3, r3 := r / n, r % n;
    assert q * n + r == q2 * n + r2;
    assert r == q3 * n + r3;
    assert (q2 - q - q3) * n == r3 - r2;
    if q2 - q - q3 > 0 {
      MoreThanOnce(q2 - q - q3, n);
    } else if q2 - q - q3 < 0 {
      MoreThanOnce(q + q3 - q2, n);
    }
  }

  lemma MoreThanOnce(m: int, n: int)
    requires m >= 1 && n > 0
    ensures m * n >= n
  {
  }

  /** Moving on once per level comes back to the level started from. */
  lemma FullCycleReturns(index: nat, n: nat)
    requires n > 0 && index < n
    ensures Advanced(index, n, n) == index
  {
    AdvancedClosedForm(index, n, n);
    ShiftMod(index, 1, n);
    assert 1 * n + index == index + n;
    SmallMod(index, n);
  }

  lemma SmallMod(x: nat, n: nat)
    requires x < n
    ensures x % n == x
  {
  }

  class LevelManager {
    /** `_levels`, serialized; a slot may be empty. */
    const levels: seq<LevelSettings?>
    var currentLevelIndex: nat

    /** The index names a level, or is still the initial 0 when there are none. */
    ghost predicate Valid()
      reads this
    {
      currentLevelIndex < |levels| || currentLevelIndex == 0
    }

    constructor (levels: seq<LevelSettings?>)
      ensures Valid()
      ensures this.levels == levels && currentLevelIndex == 0
    {
      this.levels := levels;
      currentLevelIndex := 0;
    }

    /** What starting `level` asks of the game manager: the recipe's blend and its ingredients. */
    method StartLevel(level: LevelSettings?) returns (start: LevelStart)
      ensures level == null ==> start == AbsentLevel(currentLevelIndex)
      ensures level != null ==>
                start == Started(MixOf(level.countedIngredients), IngredientsOf(level.countedIngredients))
    {
      if level == null {
        return AbsentLevel(currentLevelIndex);
      }
      var targetColor := MixColors(level.countedIngredients);
      var ingredients := IngredientsOf(level.countedIngredients);
      start := Started(targetColor, ingredients);
    }

    /** `RestartLevel`: the current level again; the index stays. */
    method RestartLevel() returns (start: LevelStart)
      requires Valid()
      ensures |levels| == 0 ==> start == IndexOutOfRange
      ensures |levels| > 0 ==> start == Request(levels[currentLevelIndex])
    {
      if currentLevelIndex >= |levels| {
        return IndexOutOfRange;
      }
      start := StartLevel(levels[currentLevelIndex]);
    }

    /** `StartNextLevel`: the index moves on, wrapping after the last level; then that level starts. */
    method StartNextLevel() returns (start: LevelStart)
      requires Valid()
      modifies this
      ensures Valid()
      ensures |levels| == 0 ==> start == DivideByZero && currentLevelIndex == old(currentLevelIndex)
      ensures |levels| > 0 ==>
                && currentLevelIndex == NextIndex(old(currentLevelIndex), |levels|)
                && start == Request(levels[currentLevelIndex])
    {
      if |levels| == 0 {
        return DivideByZero;
      }
      NextIndexInRange(currentLevelIndex, |levels|);
      currentLevelIndex := (currentLevelIndex + 1) % |levels|;
      start := StartLevel(levels[currentLevelIndex]);
    }

    /** The request naming the level in the current slot. */
    ghost function Request(level: LevelSettings?): LevelStart
      reads this, level
    {
      if level == null then AbsentLevel(currentLevelIndex)
      else Started(MixOf(level.countedIngredients), IngredientsOf(level.countedIngredients))
    }
  }
}
