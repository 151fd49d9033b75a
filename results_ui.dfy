/**
 * `ResultsUIController`: the results panel shown after a mix — the target
 * and result swatches, the similarity as a whole percentage, and the win
 * rule that colours the text and enables the next-level button.
 */
module ResultsUI {
  import opened UnityTypes
  import opened Decimal

  /** The label text: the similarity times 100, rounded down, then a percent sign. */
  function PercentText(similarity: real): (text: string)
    ensures |text| >= 2 && text[|text| - 1] == '%'
    ensures text[..|text| - 1] == IntToString(FloorToInt(similarity * 100.0))
  {
    IntToString(FloorToInt(similarity * 100.0)) + "%"
  }

  /** A score wins when it reaches the threshold; reaching it exactly is a win. */
  predicate Wins(similarity: real, winThreshold: real) {
    similarity >= winThreshold
  }

  class ResultsUIController {
    /** Serialized settings; the threshold defaults to 0.85. */
    const winThreshold: real
    const successTextColor: Color
    const failureTextColor: Color

    /** `_targetColorImageUI.color` and `_resultColorImageUI.color`. */
    var targetColorImage: Color
    var resultColorImage: Color
    /** `_colorSimilarityTextUI.text` and `.color`. */
    var similarityText: string
    var similarityTextColor: Color
    /** `_nextLevelButtonUI.interactable`. */
    var nextLevelButtonInteractable: bool

    constructor (successTextColor: Color, failureTextColor: Color, winThreshold: real := 0.85)
      ensures this.successTextColor == successTextColor && this.failureTextColor == failureTextColor
      ensures this.winThreshold == winThreshold
    {
      this.successTextColor := successTextColor;
      this.failureTextColor := failureTextColor;
      this.winThreshold := winThreshold;
      targetColorImage, resultColorImage := White, White;
      similarityText := "";
      similarityTextColor := White;
      nextLevelButtonInteractable := true;
    }

    method SetTargetColor(targetColor: Color)
      modifies this`targetColorImage
      ensures targetColorImage == targetColor
    {
      targetColorImage := targetColor;
    }

    method SetResultColor(resultColor: Color)
      modifies this`resultColorImage
      ensures resultColorImage == resultColor
    {
      resultColorImage := resultColor;
    }

    /**
     * `SetColorSimilarity`: the label shows the percentage; a winning score
     * gets the success colour and enables the next level, any other score
     * the failure colour with the button disabled.
     */
    method SetColorSimilarity(similarity: real)
      modifies this`similarityText, this`similarityTextColor, this`nextLevelButtonInteractable
      ensures similarityText == PercentText(similarity)
      ensures nextLevelButtonInteractable <==> Wins(similarity, winThreshold)
      ensures similarityTextColor == if Wins(similarity, winThreshold) then successTextColor else failureTextColor
    {
      similarityText := IntToString(FloorToInt(similarity * 100.0)) + "%";
      if similarity >= winThreshold {
        similarityTextColor := successTextColor;
        nextLevelButtonInteractable := true;
      } else {
        similarityTextColor := failureTextColor;
        nextLevelButtonInteractable := false;
      }
    }
  }

  /** A score in [0, 1] shows as a percentage between 0 and 100. */
  lemma PercentOfUnitScore(similarity: real)
    requires 0.0 <= similarity <= 1.0
    ensures 0 <= FloorToInt(similarity * 100.0) <= 100
  {
  }

  /** The digits before the percent sign read back as the rounded-down percentage. */
  lemma PercentTextReadsBack(similarity: real)
    requires similarity >= 0.0
    ensures var text := PercentText(similarity);
            && (forall i :: 0 <= i < |text| - 1 ==> IsDigit(text[i]))
            && ParseDigits(text[..|text| - 1]) == FloorToInt(similarity * 100.0)
  {
    ParseNatToString(FloorToInt(similarity * 100.0));
  }

  /** Two scores show the same label exactly when they round down to the same percentage. */
  lemma SameTextIffSamePercent(s: real, t: real)
    ensures PercentText(s) == PercentText(t) <==> FloorToInt(s * 100.0) == FloorToInt(t * 100.0)
  {
    if PercentText(s) == PercentText(t) {
      assert PercentText(s)[..|PercentText(s)| - 1] == PercentText(t)[..|PercentText(t)| - 1];
      IntToStringInjective(FloorToInt(s * 100.0), FloorToInt(t * 100.0));
    }
  }

  /**
   * With the default threshold the label and the verdict agree: a score wins
   * exactly when its label reads 85% or more (85 is whole, so rounding down
   * loses nothing at the boundary).
   */
  lemma WinningLabelAtDefaultThreshold(similarity: real)
    ensures Wins(similarity, 0.85) <==> FloorToInt(similarity * 100.0) >= 85
  {
  }
}
