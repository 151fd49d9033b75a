/**
 * `ColorCalculations`: the count-weighted blend of a level's recipe (its
 * target colour) and the similarity score of two colours.
 *
 * The Euclidean distance uses Unity's `Vector3.magnitude`, a square root.
 * Dafny has no square root on `real`, so the functions below take the root
 * as a parameter `sqrt` and require only that it is the non-negative
 * square root on non-negative arguments.
 */
module ColorCalculations {
  import opened UnityTypes
  import opened Ingredients

  /** One entry of a recipe: how many portions of which ingredient. */
  datatype CountedIngredient = CountedIngredient(count: int, ingredient: IngredientManager)

  /** `count * ingredient.color`, one entry's share of the total. */
  function Contribution(e: CountedIngredient): Color {
    ScaleColor(e.count as real, e.ingredient.ingredientColor)
  }

  /** Σ countᵢ · colourᵢ over the entries, in every channel (alpha included). */
  function WeightedTotal(items: seq<CountedIngredient>): Color {
    if items == [] then Clear else AddColors(WeightedTotal(items[..|items| - 1]), Contribution(items[|items| - 1]))
  }

  /** Σ countᵢ over the entries. */
  function TotalWeight(items: seq<CountedIngredient>): int {
    if items == [] then 0 else TotalWeight(items[..|items| - 1]) + items[|items| - 1].count
  }

  /**
   * The blend as a value: white when the counts add up to zero; otherwise
   * the count-weighted average of the colours, with alpha forced to 1.
   */
  function MixOf(items: seq<CountedIngredient>): Color {
    var w := TotalWeight(items);
    if w == 0 then White
    else
      var total := WeightedTotal(items);
      Color(total.r / w as real, total.g / w as real, total.b / w as real, 1.0)
  }

  /** `MixColors`: the loop over the recipe that accumulates the weighted total and the weight. */
  method MixColors(countedIngredients: seq<CountedIngredient>) returns (mix: Color)
    ensures mix == MixOf(countedIngredients)
  {
    var totalColor := Clear;
    var weights := 0;
    for i := 0 to |countedIngredients|
      invariant totalColor == WeightedTotal(countedIngredients[..i])
      invariant weights == TotalWeight(countedIngredients[..i])
    {
      var entry := countedIngredients[i];
      assert countedIngredients[..i + 1][..i] == countedIngredients[..i];
      totalColor := AddColors(totalColor, ScaleColor(entry.count as real, entry.ingredient.ingredientColor));
      assert totalColor == WeightedTotal(countedIngredients[..i + 1]);
      weights := weights + entry.count;
    }
    assert countedIngredients[..|countedIngredients|] == countedIngredients;
    if weights == 0 {
      return White;
    }
    mix := DivideColor(totalColor, weights as real);
    mix := mix.(a := 1.0);
  }

  /** With a non-zero total weight, each RGB channel times the weight is that channel's weighted total. */
  lemma MixOfIsWeightedAverage(items: seq<CountedIngredient>)
    requires TotalWeight(items) != 0
    ensures var mix := MixOf(items);
            var w := TotalWeight(items) as real;
            var total := WeightedTotal(items);
            mix.r * w == total.r && mix.g * w == total.g && mix.b * w == total.b && mix.a == 1.0
  {
    var w := TotalWeight(items) as real;
    var total := WeightedTotal(items);
    DivideThenMultiply(total.r, w);
    DivideThenMultiply(total.g, w);
    DivideThenMultiply(total.b, w);
  }

  // ---------------------------------------------------------------------------
  // Real arithmetic the solver needs spelled out

  lemma DivideThenMultiply(t: real, w: real)
    requires w != 0.0
    ensures (t / w) * w == t
  {
  }

  lemma MultiplyThenDivide(k: real, x: real)
    requires k != 0.0
    ensures (k * x) / k == x
  {
    DivideThenMultiply(k * x, k);
    assert ((k * x) / k) * k == x * k;
  }

  /** `0 <= x <= 1` scales a non-negative `k` into [0, k]. */
  lemma ProductBounded(k: real, x: real)
    requires 0.0 <= k && 0.0 <= x <= 1.0
    ensures 0.0 <= k * x <= k
  {
    assert k - k * x == k * (1.0 - x);
  }

  /** No ingredients, or counts that cancel out: white. */
  lemma MixOfNoWeight(items: seq<CountedIngredient>)
    requires TotalWeight(items) == 0
    ensures MixOf(items) == White
  {
  }

  /** A single entry with a non-zero count gives back its ingredient's colour, opaque. */
  lemma MixOfSingle(count: int, ingredient: IngredientManager)
    requires count != 0
    ensures var mix := MixOf([CountedIngredient(count, ingredient)]);
            SameRgb(mix, ingredient.ingredientColor) && mix.a == 1.0
  {
    var items := [CountedIngredient(count, ingredient)];
    assert items[..0] == [];
    var c := ingredient.ingredientColor;
    var k := count as real;
    assert WeightedTotal(items) == ScaleColor(k, c) by {
      assert WeightedTotal(items) == AddColors(Clear, ScaleColor(k, c));
    }
    assert TotalWeight(items) == count;
    MultiplyThenDivide(k, c.r);
    MultiplyThenDivide(k, c.g);
    MultiplyThenDivide(k, c.b);
  }

  /** The entries' colour alphas never reach the result: only counts and RGB matter. */
  lemma {:induction false} WeightedTotalIgnoresAlpha(items: seq<CountedIngredient>, others: seq<CountedIngredient>)
    requires |items| == |others|
    requires forall i :: 0 <= i < |items| ==>
               items[i].count == others[i].count
               && SameRgb(items[i].ingredient.ingredientColor, others[i].ingredient.ingredientColor)
    ensures SameRgb(WeightedTotal(items), WeightedTotal(others))
    ensures TotalWeight(items) == TotalWeight(others)
  {
    if items != [] {
      var n := |items| - 1;
      WeightedTotalIgnoresAlpha(items[..n], others[..n]);
    }
  }

  lemma MixOfIgnoresAlpha(items: seq<CountedIngredient>, others: seq<CountedIngredient>)
    requires |items| == |others|
    requires forall i :: 0 <= i < |items| ==>
               items[i].count == others[i].count
               && SameRgb(items[i].ingredient.ingredientColor, others[i].ingredient.ingredientColor)
    ensures MixOf(items) == MixOf(others)
  {
    WeightedTotalIgnoresAlpha(items, others);
  }

  /** Sums split over a concatenation. */
  lemma {:induction false} WeightedTotalOfConcat(xs: seq<CountedIngredient>, ys: seq<CountedIngredient>)
    ensures WeightedTotal(xs + ys) == AddColors(WeightedTotal(xs), WeightedTotal(ys))
  {
    if ys != [] {
      var n := |ys| - 1;
      assert (xs + ys)[..|xs + ys| - 1] == xs + ys[..n];
      assert (xs + ys)[|xs + ys| - 1] == ys[n];
      WeightedTotalOfConcat(xs, ys[..n]);
    } else {
      assert xs + ys == xs;
    }
  }

  lemma {:induction false} TotalWeightOfConcat(xs: seq<CountedIngredient>, ys: seq<CountedIngredient>)
    ensures TotalWeight(xs + ys) == TotalWeight(xs) + TotalWeight(ys)
  {
    if ys != [] {
      var n := |ys| - 1;
      assert (xs + ys)[..|xs + ys| - 1] == xs + ys[..n];
      assert (xs + ys)[|xs + ys| - 1] == ys[n];
      TotalWeightOfConcat(xs, ys[..n]);
    } else {
      assert xs + ys == xs;
    }
  }

  lemma TotalsOfConcat(xs: seq<CountedIngredient>, ys: seq<CountedIngredient>)
    ensures WeightedTotal(xs + ys) == AddColors(WeightedTotal(xs), WeightedTotal(ys))
    ensures TotalWeight(xs + ys) == TotalWeight(xs) + TotalWeight(ys)
  {
    WeightedTotalOfConcat(xs, ys);
    TotalWeightOfConcat(xs, ys);
  }

  /** The weighted total of one entry. */
  lemma TotalsOfSingle(e: CountedIngredient)
    ensures WeightedTotal([e]) == Contribution(e)
    ensures TotalWeight([e]) == e.count
  {
    assert [e][..0] == [];
  }

  /** Taking entry `j` out of the recipe takes its contribution out of the total. */
  lemma WeightedTotalWithout(s: seq<CountedIngredient>, j: nat)
    requires j < |s|
    ensures WeightedTotal(s) == AddColors(WeightedTotal(s[..j] + s[j + 1..]), Contribution(s[j]))
  {
    SplitAt(s, j);
    WeightedTotalAround(s[..j], s[j], s[j + 1..]);
  }

  /** A sequence is its part before `j`, its element `j`, and its part after. */
  lemma SplitAt<T>(s: seq<T>, j: nat)
    requires j < |s|
    ensures s == (s[..j] + [s[j]]) + s[j + 1..]
  {
  }

  lemma WeightedTotalAround(front: seq<CountedIngredient>, e: CountedIngredient, back: seq<CountedIngredient>)
    ensures WeightedTotal((front + [e]) + back) == AddColors(WeightedTotal(front + back), Contribution(e))
  {
    var c := Contribution(e);
    var wf, wb := WeightedTotal(front), WeightedTotal(back);
    assert WeightedTotal((front + [e]) + back) == AddColors(AddColors(wf, c), wb) by {
      WeightedTotalOfConcat(front + [e], back);
      WeightedTotalOfConcat(front, [e]);
      TotalsOfSingle(e);
    }
    assert WeightedTotal(front + back) == AddColors(wf, wb) by {
      WeightedTotalOfConcat(front, back);
    }
    AddColorsSwapLast(wf, c, wb);
  }

  lemma AddColorsSwapLast(x: Color, y: Color, z: Color)
    ensures AddColors(AddColors(x, y), z) == AddColors(AddColors(x, z), y)
  {
  }

  /** Reordering the entries keeps the weighted total. */
  lemma {:induction false} WeightedTotalOfPermutation(items: seq<CountedIngredient>, others: seq<CountedIngredient>)
    requires multiset(items) == multiset(others)
    ensures WeightedTotal(items) == WeightedTotal(others)
    decreases |items|
  {
    if items != [] {
      var n := |items| - 1;
      var j := MatchLast(items, others);
      WeightedTotalOfPermutation(items[..n], others[..j] + others[j + 1..]);
      WeightedTotalWithout(others, j);
    }
  }

  /** Reordering the entries keeps the total weight. */
  lemma {:induction false} TotalWeightOfPermutation(items: seq<CountedIngredient>, others: seq<CountedIngredient>)
    requires multiset(items) == multiset(others)
    ensures TotalWeight(items) == TotalWeight(others)
    decreases |items|
  {
    if items != [] {
      var n := |items| - 1;
      var j := MatchLast(items, others);
      TotalWeightOfPermutation(items[..n], others[..j] + others[j + 1..]);
      SplitAt(others, j);
      TotalWeightAround(others[..j], others[j], others[j + 1..]);
    }
  }

  lemma TotalWeightAround(front: seq<CountedIngredient>, e: CountedIngredient, back: seq<CountedIngredient>)
    ensures TotalWeight((front + [e]) + back) == TotalWeight(front + back) + e.count
  {
    TotalWeightOfConcat(front + [e], back);
    TotalWeightOfConcat(front, [e]);
    TotalWeightOfConcat(front, back);
    TotalsOfSingle(e);
  }

  /**
   * For a permutation `ys` of a non-empty `xs`: a position in `ys` holding the
   * last element of `xs`, such that the rest of `ys` is a permutation of the
   * rest of `xs`.
   */
  lemma MatchLast<T>(xs: seq<T>, ys: seq<T>) returns (j: nat)
    requires multiset(xs) == multiset(ys) && |xs| >= 1
    ensures j < |ys| && ys[j] == xs[|xs| - 1]
    ensures multiset(xs[..|xs| - 1]) == multiset(ys[..j] + ys[j + 1..])
  {
    var n, e := |xs| - 1, xs[|xs| - 1];
    assert e in multiset(ys) by {
      assert e in multiset(xs);
    }
    j :| 0 <= j < |ys| && ys[j] == e;
    var front, back := ys[..j], ys[j + 1..];
    assert xs == xs[..n] + [e];
    assert multiset(xs) == multiset(xs[..n]) + multiset{e};
    assert ys == front + ([e] + back);
    assert multiset(ys) == multiset(front) + multiset([e] + back);
    assert multiset([e] + back) == multiset{e} + multiset(back);
    assert multiset(front + back) == multiset(front) + multiset(back);
    CancelOne(multiset(xs[..n]), multiset(front + back), e);
  }

  lemma CancelOne<T>(a: multiset<T>, b: multiset<T>, e: T)
    requires a + multiset{e} == b + multiset{e}
    ensures a == b
  {
    assert forall x :: a[x] == (a + multiset{e})[x] - multiset{e}[x];
  }

  /** The blend does not depend on the order in which the recipe lists its entries. */
  lemma MixOfIsOrderIndependent(items: seq<CountedIngredient>, others: seq<CountedIngredient>)
    requires multiset(items) == multiset(others)
    ensures MixOf(items) == MixOf(others)
  {
    WeightedTotalOfPermutation(items, others);
    TotalWeightOfPermutation(items, others);
  }

  /** Non-negative counts of in-gamut colours: every channel total is between 0 and the total weight. */
  lemma {:induction false} WeightedTotalBounded(items: seq<CountedIngredient>)
    requires forall i :: 0 <= i < |items| ==> items[i].count >= 0 && InGamut(items[i].ingredient.ingredientColor)
    ensures TotalWeight(items) >= 0
    ensures ChannelsWithin(WeightedTotal(items), TotalWeight(items) as real)
  {
    if items != [] {
      var n := |items| - 1;
      WeightedTotalBounded(items[..n]);
      var e := items[n];
      var k := e.count as real;
      var c := e.ingredient.ingredientColor;
      ContributionBounded(e);
      assert WeightedTotal(items) == AddColors(WeightedTotal(items[..n]), Contribution(e));
      assert TotalWeight(items) as real == TotalWeight(items[..n]) as real + k;
      SumWithin(WeightedTotal(items[..n]), TotalWeight(items[..n]) as real, Contribution(e), k);
    }
  }

  /** The RGB channels of `t` lie in [0, w]. */
  predicate ChannelsWithin(t: Color, w: real) {
    0.0 <= t.r <= w && 0.0 <= t.g <= w && 0.0 <= t.b <= w
  }

  lemma ContributionBounded(e: CountedIngredient)
    requires e.count >= 0 && InGamut(e.ingredient.ingredientColor)
    ensures ChannelsWithin(Contribution(e), e.count as real)
  {
    ScaleBounded(e.count as real, e.ingredient.ingredientColor);
  }

  lemma ScaleBounded(k: real, c: Color)
    requires 0.0 <= k && InGamut(c)
    ensures ChannelsWithin(ScaleColor(k, c), k)
  {
    var s := ScaleColor(k, c);
    ProductBounded(k, c.r);
    assert 0.0 <= s.r <= k;
    ProductBounded(k, c.g);
    assert 0.0 <= s.g <= k;
    ProductBounded(k, c.b);
    assert 0.0 <= s.b <= k;
  }

  lemma SumWithin(t0: Color, w0: real, t1: Color, w1: real)
    requires ChannelsWithin(t0, w0) && ChannelsWithin(t1, w1)
    ensures ChannelsWithin(AddColors(t0, t1), w0 + w1)
  {
  }

  /** A recipe of non-negative counts of in-gamut colours blends to an in-gamut colour. */
  lemma MixOfInGamut(items: seq<CountedIngredient>)
    requires forall i :: 0 <= i < |items| ==> items[i].count >= 0 && InGamut(items[i].ingredient.ingredientColor)
    ensures InGamut(MixOf(items))
  {
    WeightedTotalBounded(items);
    var w := TotalWeight(items);
    if w != 0 {
      var t := WeightedTotal(items);
      var wr := w as real;
      assert wr > 0.0;
      QuotientInUnitRange(t.r, wr);
      QuotientInUnitRange(t.g, wr);
      QuotientInUnitRange(t.b, wr);
    }
  }

  lemma QuotientInUnitRange(x: real, w: real)
    requires 0.0 < w && 0.0 <= x <= w
    ensures 0.0 <= x / w <= 1.0
  {
    DivideThenMultiply(x, w);
  }

  // ---------------------------------------------------------------------------
  // Similarity

  /** `sqrt` is the non-negative square root on every non-negative argument. */
  ghost predicate IsSquareRoot(sqrt: real -> real) {
    forall x :: 0.0 <= x ==> 0.0 <= sqrt(x) && sqrt(x) * sqrt(x) == x
  }

  /** The squared length of the RGB difference; alpha is not part of it. */
  function SquaredRgbDistance(colorA: Color, colorB: Color): (d: real)
    ensures d >= 0.0
  {
    (colorA.r - colorB.r) * (colorA.r - colorB.r)
    + (colorA.g - colorB.g) * (colorA.g - colorB.g)
    + (colorA.b - colorB.b) * (colorA.b - colorB.b)
  }

  /** `ColorsEuclideanDistance`: the magnitude of the RGB difference vector. */
  function ColorsEuclideanDistance(colorA: Color, colorB: Color, sqrt: real -> real): (d: real)
    requires IsSquareRoot(sqrt)
    ensures 0.0 <= d && d * d == SquaredRgbDistance(colorA, colorB)
  {
    sqrt(SquaredRgbDistance(colorA, colorB))
  }

  /** `fullColorEuclideanDistance`: the distance from white to black, the root of 3. */
  function FullColorEuclideanDistance(sqrt: real -> real): (d: real)
    requires IsSquareRoot(sqrt)
    ensures d > 0.0 && d * d == 3.0
  {
    ColorsEuclideanDistance(White, Black, sqrt)
  }

  /** `ColorsSimilarity`: one minus the distance normalised by the white-to-black distance. */
  function ColorsSimilarity(colorA: Color, colorB: Color, sqrt: real -> real): real
    requires IsSquareRoot(sqrt)
  {
    1.0 - ColorsEuclideanDistance(colorA, colorB, sqrt) / FullColorEuclideanDistance(sqrt)
  }

  /** Two non-negative numbers compare as their squares do. */
  lemma SquaresCompare(x: real, y: real)
    requires 0.0 <= x && 0.0 <= y
    ensures x * x <= y * y <==> x <= y
    ensures x * x == y * y <==> x == y
  {
    DifferenceOfSquares(x, y);
    if x < y {
      ProductPositive(y - x, y + x);
    } else if y < x {
      DifferenceOfSquares(y, x);
      ProductPositive(x - y, x + y);
    }
  }

  lemma ProductPositive(a: real, b: real)
    requires a > 0.0 && b > 0.0
    ensures a * b > 0.0
  {
  }

  lemma DifferenceOfSquares(x: real, y: real)
    ensures y * y - x * x == (y - x) * (y + x)
  {
  }

  /** A square is zero only at zero. */
  lemma SquareZero(x: real)
    ensures x * x >= 0.0
    ensures x * x == 0.0 <==> x == 0.0
  {
    var ax := if x >= 0.0 then x else -x;
    assert ax * ax == x * x;
    SquaresCompare(ax, 0.0);
  }

  /** A colour is fully similar to itself — and only to colours with the same RGB. */
  lemma SimilarityOneIffSameRgb(colorA: Color, colorB: Color, sqrt: real -> real)
    requires IsSquareRoot(sqrt)
    ensures ColorsSimilarity(colorA, colorB, sqrt) == 1.0 <==> SameRgb(colorA, colorB)
  {
    var d := ColorsEuclideanDistance(colorA, colorB, sqrt);
    var f := FullColorEuclideanDistance(sqrt);
    SquaresCompare(d, 0.0);
    assert ColorsSimilarity(colorA, colorB, sqrt) == 1.0 <==> d == 0.0;
    var dr, dg, db := colorA.r - colorB.r, colorA.g - colorB.g, colorA.b - colorB.b;
    SquareZero(dr);
    SquareZero(dg);
    SquareZero(db);
    assert d * d == dr * dr + dg * dg + db * db;
  }

  lemma SimilarityOfSameColor(c: Color, sqrt: real -> real)
    requires IsSquareRoot(sqrt)
    ensures ColorsSimilarity(c, c, sqrt) == 1.0
  {
    SimilarityOneIffSameRgb(c, c, sqrt);
  }

  /** White and black are as different as two colours can be. */
  lemma SimilarityOfWhiteAndBlack(sqrt: real -> real)
    requires IsSquareRoot(sqrt)
    ensures ColorsSimilarity(White, Black, sqrt) == 0.0
  {
  }

  /** Similarity is symmetric. */
  lemma SimilaritySymmetric(colorA: Color, colorB: Color, sqrt: real -> real)
    requires IsSquareRoot(sqrt)
    ensures ColorsSimilarity(colorA, colorB, sqrt) == ColorsSimilarity(colorB, colorA, sqrt)
  {
    assert SquaredRgbDistance(colorA, colorB) == SquaredRgbDistance(colorB, colorA);
  }

  /** Similarity looks at RGB only: the alphas of both colours can be anything. */
  lemma SimilarityIgnoresAlpha(colorA: Color, colorB: Color, alphaA: real, alphaB: real, sqrt: real -> real)
    requires IsSquareRoot(sqrt)
    ensures ColorsSimilarity(colorA, colorB, sqrt) == ColorsSimilarity(colorA.(a := alphaA), colorB.(a := alphaB), sqrt)
  {
    assert SquaredRgbDistance(colorA, colorB) == SquaredRgbDistance(colorA.(a := alphaA), colorB.(a := alphaB));
  }

  /** The closer of two colours to a reference scores at least as high. */
  lemma SimilarityDecreasesWithDistance(reference: Color, near: Color, far: Color, sqrt: real -> real)
    requires IsSquareRoot(sqrt)
    requires SquaredRgbDistance(reference, near) <= SquaredRgbDistance(reference, far)
    ensures ColorsSimilarity(reference, near, sqrt) >= ColorsSimilarity(reference, far, sqrt)
  {
    var dn := ColorsEuclideanDistance(reference, near, sqrt);
    var df := ColorsEuclideanDistance(reference, far, sqrt);
    var f := FullColorEuclideanDistance(sqrt);
    SquaresCompare(dn, df);
    assert dn / f <= df / f;
  }

  /** Channel differences of in-gamut colours are at most 1 in size. */
  lemma SquaredRgbDistanceInGamut(colorA: Color, colorB: Color)
    requires InGamut(colorA) && InGamut(colorB)
    ensures SquaredRgbDistance(colorA, colorB) <= 3.0
  {
    SquareAtMostOne(colorA.r - colorB.r);
    SquareAtMostOne(colorA.g - colorB.g);
    SquareAtMostOne(colorA.b - colorB.b);
  }

  lemma SquareAtMostOne(d: real)
    requires -1.0 <= d <= 1.0
    ensures d * d <= 1.0
  {
    var m := if d >= 0.0 then d else -d;
    assert m * m == d * d;
    SquaresCompare(m, 1.0);
  }

  /** For in-gamut colours the score lies in [0, 1]. */
  lemma SimilarityInUnitRange(colorA: Color, colorB: Color, sqrt: real -> real)
    requires IsSquareRoot(sqrt)
    requires InGamut(colorA) && InGamut(colorB)
    ensures 0.0 <= ColorsSimilarity(colorA, colorB, sqrt) <= 1.0
  {
    var d := ColorsEuclideanDistance(colorA, colorB, sqrt);
    var f := FullColorEuclideanDistance(sqrt);
    SquaredRgbDistanceInGamut(colorA, colorB);
    SquaresCompare(d, f);
    assert 0.0 <= d / f <= 1.0;
  }
}
