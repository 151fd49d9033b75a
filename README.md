# ColorMixerGame in Dafny

ColorMixerGame is a Unity puzzle. The player throws ingredients into a
blender jug and presses the mix button. The blend is then compared with the
level's target colour. This project models the game logic behind the
animation, and proves properties of it:

- **Colour calculations** (`color_calculations.dfy`). A recipe's
  count-weighted blend is the level's target colour. Two colours score a
  similarity of one minus their normalised RGB distance.
- **Blender lid** (`blender_lid.dfy`). The lid is a state machine with two
  flags ("opened", "closed") and at most one tween in flight. Opening and
  closing coalesce repeated requests and kill each other's tween. A
  tween's completion is an event of its own. A killed tween never
  completes.
- **Blender** (`blender.dfy`). The jug holds the set of ingredient
  instances inside it, updated by trigger events. A mix refuses an empty
  jug. Otherwise it shows the running mean of the colours, releases every
  instance once, and returns the last step. The jug's reset is also
  modelled.
- **Ingredients** (`ingredients.dfy`, `legacy.dfy`):
  - the ingredient asset (`IngredientManager`) creates instances, destroys
    them, and renews them after a delay;
  - each instance's controller has a write-once asset reference and
    rigidbody constraint masks;
  - a scene registry records the live instances;
  - an older snapshot of the controller also exists.
- **Game manager** (`game_manager.dfy`):
  - the click guards;
  - placing one ingredient (open the lid, schedule the renewal, launch,
    the jug reset joined with a cancellable wait, close the lid), modelled
    as explicit events;
  - the mix and its report;
  - the reset between levels;
  - the layout of a level's ingredients along the holder.
- **Levels** (`levels.dfy`, `legacy.dfy`). The level index cycles modulo
  the number of levels. Each start hands on a target colour and an
  ingredient list. The current and the older level manager are both
  modelled.
- **Results panel** (`results_ui.dfy`). The similarity shows as a
  percentage rounded down. A score at or above the threshold wins.
- **Rename tool** (`rename_selected.dfy`). This editor window proposes a
  prefix by cutting a numbered suffix off the first selected name. It then
  renames the selection `"<prefix> (<n>)"` in sibling order.
- **Findings** (`findings.dfy`). Two concrete runs show where the click
  handling and the reset let a mix start before any ingredient of the
  level has reached the jug. The same runs are repeated against corrected
  versions.

Shared pieces:
- `unity_types.dfy`: colours, vectors and constraint masks as real-valued
  records.
- `decimal.dfy`: decimal text of integers, with a proof that it reads back
  uniquely.

Each `await` becomes a state plus an event method that completes it. A
`CancellationTokenSource` becomes a number, and cancelling one adds the
number to a set. A `HashSet` enumeration becomes a sequence parameter that
lists each member once.

## Model

| member | source | states |
|---|---|---|
| UnityTypes.FloorToInt | Assets/__Project/Scripts/ResultsUIController.cs:62 | `Mathf.FloorToInt` returns the largest integer not above its argument: `n <= x < n + 1`. |
| Decimal.NatToString | Assets/__Project/Scripts/ResultsUIController.cs:62 | The decimal text of a natural number has at least one character. Every character is a digit. There is no leading zero unless the text is "0". |
| Decimal.IntToString | Assets/__Project/Scripts/IngredientManager.cs:37 | `int.ToString()` starts with '-' exactly when the number is negative. |
| Decimal.ParseNatToString | Assets/__Project/Scripts/ResultsUIController.cs:62 | Reading the digits back gives the number that was printed. |
| Decimal.IntToStringInjective | Assets/__Project/Editor/RenameSelected.cs:50 | Two integers with the same decimal text are equal. |
| Decimal.NatToStringInjective | Assets/__Project/Editor/RenameSelected.cs:50 | Two naturals with the same decimal text are equal. |
| ColorCalculations.MixColors | Assets/__Project/Scripts/ColorCalculations.cs:11-28 | The `foreach` accumulating `totalColor` and `weights` returns `MixOf` of the recipe: white when the counts sum to 0; otherwise the weighted sum divided by the total count, with alpha set to 1. |
| ColorCalculations.MixOfIsWeightedAverage | Assets/__Project/Scripts/ColorCalculations.cs:12-25 | With a non-zero total count, each RGB channel of the blend times the total count is that channel's Σ countᵢ·cᵢ. Alpha is 1. |
| ColorCalculations.MixOfNoWeight | Assets/__Project/Scripts/ColorCalculations.cs:20-22 | The blend is white (1,1,1,1) when the counts sum to 0, including an empty recipe. |
| ColorCalculations.MixOfSingle | Assets/__Project/Scripts/ColorCalculations.cs:15-27 | A single entry with a non-zero count blends to its ingredient's RGB, with alpha 1. |
| ColorCalculations.WeightedTotalIgnoresAlpha | Assets/__Project/Scripts/ColorCalculations.cs:16-17 | Two recipes that agree on counts and RGB have weighted totals with equal RGB, and equal total weights. |
| ColorCalculations.MixOfIgnoresAlpha | Assets/__Project/Scripts/ColorCalculations.cs:16-25 | The ingredients' alphas never reach the blend: recipes that agree on counts and RGB blend alike. |
| ColorCalculations.WeightedTotalOfPermutation | Assets/__Project/Scripts/ColorCalculations.cs:15-18 | Reordering the recipe keeps Σ countᵢ·cᵢ. |
| ColorCalculations.TotalWeightOfPermutation | Assets/__Project/Scripts/ColorCalculations.cs:15-18 | Reordering the recipe keeps Σ countᵢ. |
| ColorCalculations.MixOfIsOrderIndependent | Assets/__Project/Scripts/ColorCalculations.cs:11-28 | Any two orderings of the same recipe entries give the same blend. |
| ColorCalculations.WeightedTotalBounded | Assets/__Project/Scripts/ColorCalculations.cs:15-18 | Non-negative counts of in-gamut colours give a non-negative total weight `w`. Every RGB channel total lies in [0, w]. |
| ColorCalculations.MixOfInGamut | Assets/__Project/Scripts/ColorCalculations.cs:11-28 | A recipe of non-negative counts of in-gamut colours blends to an in-gamut colour. |
| ColorCalculations.ColorsEuclideanDistance | Assets/__Project/Scripts/ColorCalculations.cs:30-35 | The distance is non-negative. Its square is the sum of the squared r, g and b differences; alpha takes no part. |
| ColorCalculations.FullColorEuclideanDistance | Assets/__Project/Scripts/ColorCalculations.cs:5 | The white-to-black distance is positive and its square is 3. |
| ColorCalculations.SquaredRgbDistanceInGamut | Assets/__Project/Scripts/ColorCalculations.cs:30-35 | The squared distance of two in-gamut colours is at most 3, the white-to-black value. |
| ColorCalculations.SimilarityOneIffSameRgb | Assets/__Project/Scripts/ColorCalculations.cs:7-9 | The similarity is 1 if and only if the two colours have the same RGB. |
| ColorCalculations.SimilarityOfSameColor | Assets/__Project/Scripts/ColorCalculations.cs:7-9 | `ColorsSimilarity(c, c) == 1` for every colour. |
| ColorCalculations.SimilarityOfWhiteAndBlack | Assets/__Project/Scripts/ColorCalculations.cs:5-9 | `ColorsSimilarity(white, black) == 0`. |
| ColorCalculations.SimilaritySymmetric | Assets/__Project/Scripts/ColorCalculations.cs:30-35 | Swapping the two colours does not change the similarity. |
| ColorCalculations.SimilarityIgnoresAlpha | Assets/__Project/Scripts/ColorCalculations.cs:30-35 | Changing either colour's alpha does not change the similarity. |
| ColorCalculations.SimilarityDecreasesWithDistance | Assets/__Project/Scripts/ColorCalculations.cs:7-9 | Of two colours, the one closer to a reference scores at least as high. |
| ColorCalculations.SimilarityInUnitRange | Assets/__Project/Scripts/ColorCalculations.cs:5-9 | For colours with channels in [0, 1], the similarity lies in [0, 1]. |
| BlenderLid.BlenderLidController.constructor | Assets/__Project/Scripts/Blender/BlenderLidController.cs:15-29 | The lid starts closed and not opened, with no tween in flight. The animation duration defaults to 1 and the jump power to 0.5. |
| BlenderLid.BlenderLidController.OpenAsync | Assets/__Project/Scripts/Blender/BlenderLidController.cs:64-85 | On an opened lid: the shared completed task, and nothing changes. Otherwise: "closed" is cleared, any closing tween is killed, and an opening tween in flight is reused (no new tween). Only when none is in flight does a new one start. The caller awaits that tween. The lid invariant is kept. |
| BlenderLid.BlenderLidController.CloseAsync | Assets/__Project/Scripts/Blender/BlenderLidController.cs:87-108 | The mirror of `OpenAsync`: a no-op when closed; kills the opening tween; reuses the closing tween or starts one; keeps the invariant. |
| BlenderLid.BlenderLidController.OnTweenCompleted | Assets/__Project/Scripts/Blender/BlenderLidController.cs:78-104 | Completing the opening tween clears it and sets "opened". Completing the closing tween clears it and sets "closed". A killed tween's completion changes nothing. |
| BlenderLid.BlenderLidController.Settle | Assets/__Project/Scripts/Blender/BlenderLidController.cs:84-107 | After an awaited lid task finishes, it is no longer pending. The lid is opened or closed if that tween was in flight, and unchanged if not. |
| BlenderLid.CloseWhileOpening | Assets/__Project/Scripts/Blender/BlenderLidController.cs:92-96 | A close during an opening resumes the opening's awaiter at once. The killed opening never completes, as the lid stays closing. The lid ends closed. |
| BlenderLid.RepeatedOpen | Assets/__Project/Scripts/Blender/BlenderLidController.cs:65-84 | Two opens in a row await the same tween. Once the lid is open, a third open awaits nothing. |
| Blender.ManagersOf | Assets/__Project/Scripts/Blender/BlenderController.cs:201-202 | Instance `i`'s ingredient asset, in enumeration order. |
| Blender.ColorsOf | Assets/__Project/Scripts/Blender/BlenderController.cs:202 | Asset `i`'s colour, in the same order. |
| Blender.BlenderController.constructor | Assets/__Project/Scripts/Blender/BlenderController.cs:33-72 | `Start`: the jug is empty, the fill level 0 and the button up. The lid, the jug, the lid's parent and both durations are the ones given. |
| Blender.BlenderController.OnTriggerEnter | Assets/__Project/Scripts/Blender/BlenderController.cs:84-88 | An ingredient instance is added with set semantics. `ingredientsNumber` grows by one only for a new member. A collider without an ingredient changes nothing. |
| Blender.BlenderController.OnTriggerExit | Assets/__Project/Scripts/Blender/BlenderController.cs:90-94 | An instance is removed. `ingredientsNumber` shrinks by one only if it was a member. |
| Blender.BlenderController.OpenLidAsync | Assets/__Project/Scripts/Blender/BlenderController.cs:100-102 | Delegates to the lid: a no-op when open, otherwise the lid is opening and the caller awaits that tween. |
| Blender.BlenderController.CloseLidAsync | Assets/__Project/Scripts/Blender/BlenderController.cs:104-106 | Delegates to the lid: a no-op when closed, otherwise the lid is closing and the caller awaits that tween. |
| Blender.BlenderController.Mix | Assets/__Project/Scripts/Blender/BlenderController.cs:108-136 | An empty jug fails with `NoIngredients` and nothing changes, not even the button, the lid or the scene. Otherwise the stages run in this order: button on, lid closed, lid attached to the jug, content animated, button off, lid parent restored. The content shows the result, full. The jug is emptied. Every instance is released once, in enumeration order. The result is the mean of all the colours. |
| Blender.BlenderController.MixContent | Assets/__Project/Scripts/Blender/BlenderController.cs:113-135 | The non-empty mix: the same stages, releases and result as `Mix`. |
| Blender.BlenderController.StartMix | Assets/__Project/Scripts/Blender/BlenderController.cs:113-115 | The button is pushed. The lid is closed before the mix goes on. |
| Blender.BlenderController.FinishMix | Assets/__Project/Scripts/Blender/BlenderController.cs:129-131 | The button is released and the lid gets its original parent back, in that order. |
| Blender.BlenderController.Blend | Assets/__Project/Scripts/Blender/BlenderController.cs:121-127 | The joined animation and disposal: the content ends on the last step, full. Every instance is released once, and the jug is empty. |
| Blender.BlenderController.AnimateContent | Assets/__Project/Scripts/Blender/BlenderController.cs:121-133 | Applies the colour steps. The content, and the returned final colour, is the mean of all colours. |
| Blender.BlenderController.PlayToEnd | Assets/__Project/Scripts/Blender/BlenderController.cs:186-190 | At the end of the sequence the material shows the last tween's colour and the fill target. |
| Blender.BlenderController.DisposeIngredients | Assets/__Project/Scripts/Blender/BlenderController.cs:211-219 | Each instance is released exactly once, in enumeration order, and then the set is cleared. The total wait is `2n` half steps. It never exceeds `floor(duration·1000)` ms and falls short by less than `2n` ms. |
| Blender.BlenderController.ResetJugContentAsync | Assets/__Project/Scripts/Blender/BlenderController.cs:138-157 | A negative duration, the default -1, means the configured one. The jug is frozen. The two halves each last half the duration and sum to it. |
| Blender.BlenderController.OnJugContentResetCompleted | Assets/__Project/Scripts/Blender/BlenderController.cs:145-151 | The two halves' callbacks run: the fill level is 0 and the jug is unfrozen again. |
| Blender.BlenderController.ResetJugContentFillLevel | Assets/__Project/Scripts/Blender/BlenderController.cs:167-169 | The content's fill level is 0. |
| Blender.BlenderController.OnJugTransformResetCompleted | Assets/__Project/Scripts/Blender/BlenderController.cs:159-165 | The transform reset's callback zeroes the jug's velocities. |
| Blender.BlenderController.ResetJugPhysics | Assets/__Project/Scripts/Blender/BlenderController.cs:171-174 | Velocity and angular velocity are zero. |
| Blender.GenerateMixColorSteps | Assets/__Project/Scripts/Blender/BlenderController.cs:195-209 | There is exactly one step per instance. Step `i` is the RGB mean of the first `i + 1` colours in enumeration order, with alpha 1. |
| Blender.RunningStep | Assets/__Project/Scripts/Blender/BlenderController.cs:202-204 | One loop turn: the running sum takes in colour `i`, and the sum divided by `i + 1` is step `i`. |
| Blender.AnimateColorMixing | Assets/__Project/Scripts/Blender/BlenderController.cs:176-193 | Step 0 is applied at once. Then steps 1..n-1 play, each for `duration/(n-1)`. There are no tweens when n = 1. The tween durations sum to `duration` exactly (0 for one step). The fill rises to 1 over `duration`. |
| Blender.DisposalSpansDuration | Assets/__Project/Scripts/Blender/BlenderController.cs:212-216 | The `2n` rounded-down half steps last at most the mix duration and fall short of it by less than `2n` ms. |
| Blender.SetOfEnumeration | Assets/__Project/Scripts/Blender/BlenderController.cs:201 | An enumeration of the content set lists exactly its members. |
| Blender.EnumerationLength | Assets/__Project/Scripts/Blender/BlenderController.cs:196 | The enumeration is as long as `ingredients.Count`. |
| Blender.MeanOfFirstIsMean | Assets/__Project/Scripts/Blender/BlenderController.cs:203-204 | Step `k - 1`'s channels times `k` are the channel totals of the first `k` colours. Alpha is 1. |
| Blender.FirstStepIsFirstColor | Assets/__Project/Scripts/Blender/BlenderController.cs:202-204 | The first step is the first colour's RGB, with alpha 1 (the black it starts from adds nothing to RGB). |
| Blender.ColorTotalIsUnitWeightedTotal | Assets/__Project/Scripts/Blender/BlenderController.cs:202 | The sum of the jug's colours is the weighted total of the recipe that counts each of them once. That recipe's weight is the number of instances. |
| Blender.FinalStepIsUnitMix | Assets/__Project/Scripts/Blender/BlenderController.cs:133-135 | A mix returns what `MixColors` gives for the recipe naming each instance with count 1. |
| Blender.ColorTotalOfPermutation | Assets/__Project/Scripts/Blender/BlenderController.cs:201-202 | Reordering the colours keeps their sum. |
| Blender.FinalStepOrderIndependent | Assets/__Project/Scripts/Blender/BlenderController.cs:133 | The final colour is the same for every enumeration order of the same colours. |
| Blender.StepsDependOnOrder | Assets/__Project/Scripts/Blender/BlenderController.cs:201-204 | Two colours with different RGB, enumerated in the two orders: the first steps differ but the last steps agree. |
| Blender.ColorTotalBounded | Assets/__Project/Scripts/Blender/BlenderController.cs:202 | The sum of `n` in-gamut colours has every RGB channel in [0, n]. |
| Blender.StepInGamut | Assets/__Project/Scripts/Blender/BlenderController.cs:203-204 | Every step of in-gamut colours is in gamut. |
| Ingredients.IngredientController.constructor | Assets/__Project/Scripts/Ingredients/IngredientController.cs:12-24 | A new copy is named "<prefab>(Clone)". It is interactable and has no asset. Extra height defaults to 0.5 and rotation to zero. |
| Ingredients.IngredientController.SetIngredientManager | Assets/__Project/Scripts/Ingredients/IngredientController.cs:27-36 | Write-once: while unset, the assignment succeeds. Once set, it fails with `ReassignmentForbidden` and the reference is unchanged. |
| Ingredients.IngredientController.FreezePhysics | Assets/__Project/Scripts/Ingredients/IngredientController.cs:57-63 | X and Z position and all rotation axes are frozen. The Y position bit is clear. |
| Ingredients.IngredientController.UnfreezePhysics | Assets/__Project/Scripts/Ingredients/IngredientController.cs:65-67 | Every constraint is cleared. |
| Ingredients.IngredientController.MoveTo | Assets/__Project/Scripts/Ingredients/IngredientController.cs:69-77 | Constraints are cleared first. The velocity is the launch velocity. The angular velocity is `Deg2Rad / time` times the rotation setting. The awaited delay is `floor(time·1000)` ms. |
| Ingredients.IngredientController.ResetPhysics | Assets/__Project/Scripts/Ingredients/IngredientController.cs:79-82 | Both velocities are zero. |
| Ingredients.Scene.Destroy | Assets/__Project/Scripts/GameManager.cs:177 | `Object.Destroy` removes exactly that instance from the live set. |
| Ingredients.Scene.CompleteRenewal | Assets/__Project/Scripts/IngredientManager.cs:28-32 | When a pending renewal's delay elapses, it performs exactly one `Acquire`, with its own asset and placement, and leaves the queue. A renewal completes only once. |
| Ingredients.IngredientManager.constructor | Assets/__Project/Scripts/IngredientManager.cs:10-12 | The asset keeps its colour and prefab. `renewDelay` defaults to 1. |
| Ingredients.IngredientManager.Acquire | Assets/__Project/Scripts/IngredientManager.cs:34-43 | A new live instance at the given placement. Its id differs from every live one. It is named "<prefab>(Clone) <id>". Its asset is this one. |
| Ingredients.IngredientManager.Release | Assets/__Project/Scripts/IngredientManager.cs:45-48 | Destroys exactly the given instance and records the call. |
| Ingredients.IngredientManager.RenewAt | Assets/__Project/Scripts/IngredientManager.cs:28-32 | Queues one renewal by this asset at the given placement, after `floor(renewDelay·1000)` ms. |
| Legacy.LegacyIngredientController.constructor | Assets/__Project/Scripts/IngredientController.cs:13-22 | Interactable, no asset, jump power 0.5, duration 1. |
| Legacy.LegacyIngredientController.SetIngredientManager | Assets/__Project/Scripts/IngredientController.cs:25-34 | Write-once: a second assignment fails and leaves the reference unchanged. |
| Legacy.LegacyIngredientController.FreezePhysics | Assets/__Project/Scripts/IngredientController.cs:50-56 | X and Z position and rotation are frozen. Y position is not. |
| Legacy.LegacyIngredientController.UnfreezePhysics | Assets/__Project/Scripts/IngredientController.cs:58-60 | Every constraint is cleared. |
| Legacy.LegacyIngredientController.MoveTo | Assets/__Project/Scripts/IngredientController.cs:62-69 | All constraints are cleared before the jump. The jump goes to the destination with the configured power, one jump, and the configured duration. |
| Legacy.LegacyIngredientController.ResetPhysics | Assets/__Project/Scripts/IngredientController.cs:71-74 | Both velocities are zero. |
| Legacy.FrozenMaskFreesOnlyY | Assets/__Project/Scripts/IngredientController.cs:50-56 | Of the six single-axis flags, the frozen mask holds all but Y position. The cleared mask holds none. |
| Legacy.LegacyLevelSettings.constructor | Assets/__Project/Scripts/LevelSettings.cs:7-8 | A level stores its target colour and ingredients as given. |
| Legacy.LegacyLevelManager.constructor | Assets/__Project/Scripts/LevelManager.cs:8-18 | The index starts at 0. |
| Legacy.LegacyLevelManager.StartLevel | Assets/__Project/Scripts/LevelManager.cs:66-73 | A null level throws, naming the index. Otherwise the stored colour and ingredients are passed on unchanged. |
| Legacy.LegacyLevelManager.RestartLevel | Assets/__Project/Scripts/LevelManager.cs:75-77 | The current level starts again and the index stays. An empty list fails when indexed. |
| Legacy.LegacyLevelManager.StartNextLevel | Assets/__Project/Scripts/LevelManager.cs:79-82 | The index becomes `(index + 1) mod n` and stays in range, then that level starts. With no levels the `%` throws. |
| Levels.LevelSettings.constructor | Assets/__Project/Scripts/Levels/LevelSettings.cs:7 | A level stores its recipe as given. |
| Levels.IngredientsOf | Assets/__Project/Scripts/Levels/LevelManager.cs:83 | The recipe's `.ingredient`s, with the same length and order. |
| Levels.NextIndexInRange | Assets/__Project/Scripts/Levels/LevelManager.cs:94 | The next index is in [0, n). It is one more than the current one, except after the last, where it is 0. |
| Levels.AdvancedClosedForm | Assets/__Project/Scripts/Levels/LevelManager.cs:94 | Moving on `k` times from a valid index gives `(index + k) mod n`. |
| Levels.FullCycleReturns | Assets/__Project/Scripts/Levels/LevelManager.cs:94 | Moving on `n` times returns to the starting index. |
| Levels.LevelManager.constructor | Assets/__Project/Scripts/Levels/LevelManager.cs:11-21 | The index starts at 0. |
| Levels.LevelManager.StartLevel | Assets/__Project/Scripts/Levels/LevelManager.cs:77-87 | A null level throws. Otherwise the request carries `MixColors` of the recipe and the recipe's ingredients in order. |
| Levels.LevelManager.RestartLevel | Assets/__Project/Scripts/Levels/LevelManager.cs:89-91 | The current slot's level starts and the index stays. An empty list fails when indexed. |
| Levels.LevelManager.StartNextLevel | Assets/__Project/Scripts/Levels/LevelManager.cs:93-96 | The index becomes `(index + 1) mod n` and stays in range, then that slot's level starts. With no levels the `%` throws. |
| ResultsUI.PercentText | Assets/__Project/Scripts/ResultsUIController.cs:62 | The label is the decimal text of `floor(s·100)` followed by '%'. |
| ResultsUI.ResultsUIController.constructor | Assets/__Project/Scripts/ResultsUIController.cs:12 | The win threshold defaults to 0.85. |
| ResultsUI.ResultsUIController.SetTargetColor | Assets/__Project/Scripts/ResultsUIController.cs:53-55 | The target swatch shows the given colour unchanged. |
| ResultsUI.ResultsUIController.SetResultColor | Assets/__Project/Scripts/ResultsUIController.cs:57-59 | The result swatch shows the given colour unchanged. |
| ResultsUI.ResultsUIController.SetColorSimilarity | Assets/__Project/Scripts/ResultsUIController.cs:61-72 | The label is the percentage. At or above the threshold (equality is a win): the success colour, and the next-level button enabled. Otherwise: the failure colour, and the button disabled. |
| ResultsUI.PercentOfUnitScore | Assets/__Project/Scripts/ResultsUIController.cs:62 | A score in [0, 1] shows as a percentage from 0 to 100. |
| ResultsUI.PercentTextReadsBack | Assets/__Project/Scripts/ResultsUIController.cs:62 | For a non-negative score, the characters before '%' are digits that read back as `floor(s·100)`. |
| ResultsUI.SameTextIffSamePercent | Assets/__Project/Scripts/ResultsUIController.cs:62 | Two scores show the same label exactly when they round down to the same percentage. |
| ResultsUI.WinningLabelAtDefaultThreshold | Assets/__Project/Scripts/ResultsUIController.cs:62-64 | At the default threshold, a score wins exactly when its label reads 85% or more. |
| Game.GameManager.constructor | Assets/__Project/Scripts/GameManager.cs:27-51 | No mix requested, no movement task, no wait source, no placement, and not yet a sequential start. The placement width, the wait before closing and the holder's frame are the ones given. |
| Game.GameManager.HandleTouch | Assets/__Project/Scripts/GameManager.cs:95-113 | Corrected (first finding below); the code as written is `HandleTouchAsWritten`. While a mix is requested, every click is ignored. So is a miss, a click on anything else, and a mix click before any placement of the level. A click on an interactable instance starts its placement and makes it the movement task. Unlike line 97, any other ingredient click changes nothing. A mix click cancels the current wait source, requests the mix, and chains it to the movement task. The corrected invariant `Valid` is kept. |
| Game.GameManager.HandleTouchAsWritten | Assets/__Project/Scripts/GameManager.cs:95-113 | As above, except that any ingredient click assigns the movement task. For an instance it does not place, that task has already completed. |
| Game.GameManager.InteractWithIngredient | Assets/__Project/Scripts/GameManager.cs:118-129 | Only an interactable instance is placed. It is claimed (no longer interactable), the previous source is cancelled, a new one is installed, and the lid is asked to open, in that order. Any other click yields an already completed task and changes nothing. |
| Game.GameManager.PressMix | Assets/__Project/Scripts/GameManager.cs:103-112 | The current source is cancelled, the mix requested, and the mix continuation waits for the movement task. |
| Game.GameManager.Claim | Assets/__Project/Scripts/GameManager.cs:121-122 | The instance is no longer interactable, and no earlier placement holds it: each instance is placed at most once. |
| Game.GameManager.CancelCurrentSource | Assets/__Project/Scripts/GameManager.cs:103-105 | The current source, if any, is cancelled and stays current. |
| Game.GameManager.RenewSource | Assets/__Project/Scripts/GameManager.cs:124-127 | The previous source, if any, is cancelled. A fresh one becomes current. At most one source is ever live. |
| Game.GameManager.MixWaitsForLastPlacement | Assets/__Project/Scripts/GameManager.cs:109-112 | Under the corrected handling, a mix whose task completed implies that the level has a placement and its latest placement has ended. |
| Game.GameManager.OnLidOpenedFor | Assets/__Project/Scripts/GameManager.cs:131-133 | Once the lid is open, one renewal at the instance's own placement is queued, then the instance is launched. An instance without an asset ends the placement with a null reference. |
| Game.GameManager.OnMoveCompletedFor | Assets/__Project/Scripts/GameManager.cs:135-138 | The jug reset is joined with a delay of `floor(waitBeforeCloseLid·1000)` ms on the token of the source current at that moment. When `OnDisable` dropped the source, reading its token throws and the placement faults. The jug reset, started first, is still pending. |
| Game.GameManager.OnJugResetCompletedFor | Assets/__Project/Scripts/GameManager.cs:136 | The jug's transform reset completes and its velocities are zero. This holds both for a placement still joining and for one that faulted after starting the reset. |
| Game.GameManager.OnWaitElapsedFor | Assets/__Project/Scripts/GameManager.cs:137 | Only a delay whose source was not cancelled elapses. |
| Game.GameManager.OnJoinedFor | Assets/__Project/Scripts/GameManager.cs:135-140 | After a full delay the lid is asked to close. After a cancelled one `Task.WhenAll` throws, the placement ends cancelled, and the lid is left as it is. |
| Game.GameManager.OnLidClosedFor | Assets/__Project/Scripts/GameManager.cs:140-141 | Once the lid has closed, the placement has run to its end. |
| Game.GameManager.OnLidTweenCompleted | Assets/__Project/Scripts/Blender/BlenderLidController.cs:78-104 | A lid tween's completion, seen from the game: the lid is opened or closed, or nothing happens for a killed tween. The game's invariants hold. |
| Game.GameManager.RunMix | Assets/__Project/Scripts/GameManager.cs:109-111 | The continuation runs once its task completed. An empty jug makes `MixAsync` throw unobserved: nothing is reported and the mix stays requested. Otherwise the jug is emptied and its instances released, and the panel reports the mean colour, the target and their similarity. The lid is then asked to open. |
| Game.GameManager.MixAndReport | Assets/__Project/Scripts/GameManager.cs:144-156 | `InteractWithMixButtonAsync`: the mix, then the report of its result. In the report the panel shows the target and the result, the similarity as a percentage, and the button enabled exactly when the score wins. The lid is then asked to open. |
| Game.GameManager.ReportMix | Assets/__Project/Scripts/GameManager.cs:147-152 | The target, the result and `ColorsSimilarity(result, target)` are shown. The lid, closed by the mix, starts opening. |
| Game.GameManager.OnDisable | Assets/__Project/Scripts/GameManager.cs:57-62 | The current source is cancelled and dropped, so every source created is now cancelled. |
| Game.GameManager.CleanIngredientsHolder | Assets/__Project/Scripts/GameManager.cs:162-179 | Every child instance leaves the live set. Those with an asset are released through it, in holder order. When the children are exactly the live instances in the holder, none is left there. |
| Game.GameManager.ResetSceneAsWritten | Assets/__Project/Scripts/GameManager.cs:206-218 | The holder is cleaned and the jug content reset. The lid is closed and the mix no longer requested. The movement task is left as it was. |
| Game.GameManager.ResetHolderAndJug | Assets/__Project/Scripts/GameManager.cs:207-215 | The awaits of the reset, in order: holder cleaned, jug content reset (empty, unfrozen), lid closed. |
| Game.GameManager.ResetScene | Assets/__Project/Scripts/GameManager.cs:206-218 | Corrected (second finding below): as written, and the new level also starts with no movement task. |
| Game.GameManager.StartLevel | Assets/__Project/Scripts/GameManager.cs:220-231 | Corrected: the level start over the corrected `ResetScene`. Only the second and later starts reset the scene, which ends with no mix requested and no movement task. No instance of the previous level stays in the holder. Then the target colour is stored and shown. The ingredients are laid out in slots, or the start fails when there are none. |
| Game.GameManager.StartLevelAsWritten | Assets/__Project/Scripts/GameManager.cs:220-231 | As written: the same start over `ResetSceneAsWritten`. The scene is reset, the holder emptied of the previous level's instances, and the mix no longer requested. The previous level's movement task is kept. The soundness invariant is kept. |
| Game.GameManager.ShowLevel | Assets/__Project/Scripts/GameManager.cs:227-230 | The target is stored and shown on the order, then the ingredients are laid out. |
| Game.GameManager.SetOrderColor | Assets/__Project/Scripts/GameManager.cs:202-204 | The order image shows the colour. |
| Game.GameManager.InstantiateIngredient | Assets/__Project/Scripts/GameManager.cs:181-184 | One new instance of the asset at the position, in the holder, facing one unit in front of the holder. |
| Game.GameManager.InstantiateIngredients | Assets/__Project/Scripts/GameManager.cs:186-200 | An empty list is indexed and fails. Otherwise there is one new, distinct instance per ingredient, in order: ingredient `i` sits in slot `i` of `n`, mirrored in the live set. One ingredient sits at the centre. |
| Game.GameManager.InstantiateRow | Assets/__Project/Scripts/GameManager.cs:196-199 | The `foreach`: instance `j` is ingredient `j`, placed `j` paddings on from the first position. The instances are distinct and new. |
| Game.Managed | Assets/__Project/Scripts/GameManager.cs:163-168 | The children released through their asset: each has an asset, and every child with an asset is among them. |
| Game.AdvanceClosedForm | Assets/__Project/Scripts/GameManager.cs:198 | Adding the padding `j` times is adding `j` paddings. |
| Game.PaddingIsScaled | Assets/__Project/Scripts/GameManager.cs:192-194 | `(right - left) / n` is `width / n` along the holder's right axis. |
| Game.SlotFromLeft | Assets/__Project/Scripts/GameManager.cs:195-198 | Half a padding, then `j` paddings, from the left end is slot `j`. |
| Game.AdvanceIsSlot | Assets/__Project/Scripts/GameManager.cs:192-199 | The loop's `j`-th position is `centre + (-width/2 + (j + ½)·width/n)·right`. |
| Game.SingleSlotAtCentre | Assets/__Project/Scripts/GameManager.cs:187-189 | Slot 0 of 1 is the holder's centre. |
| Game.SlotsSymmetric | Assets/__Project/Scripts/GameManager.cs:192-195 | Slots `i` and `n - 1 - i` mirror each other about the centre. |
| Game.SlotsEvenlySpaced | Assets/__Project/Scripts/GameManager.cs:198 | Neighbouring slots are one padding, `width / n`, apart. |
| Game.SlotsInsideWidth | Assets/__Project/Scripts/GameManager.cs:192-195 | Every slot lies strictly within the placement width. The outer slots are half a padding inside its ends. |
| RenameSelected.TrimStart | Assets/__Project/Editor/RenameSelected.cs:27 | A suffix of the text that starts on a non-white-space character. Everything dropped is white space. |
| RenameSelected.TrimEnd | Assets/__Project/Editor/RenameSelected.cs:27 | A prefix of the text that ends on a non-white-space character. Everything dropped is white space. |
| RenameSelected.TrimIsPiece | Assets/__Project/Editor/RenameSelected.cs:27 | `Trim` keeps one contiguous piece of the text. |
| RenameSelected.TrimEndsOnNonSpace | Assets/__Project/Editor/RenameSelected.cs:27 | The trimmed text neither starts nor ends with white space. |
| RenameSelected.TrimDropsOnlySpace | Assets/__Project/Editor/RenameSelected.cs:27 | Everything `Trim` drops, on either side, is white space. |
| RenameSelected.TrimOfTrimmed | Assets/__Project/Editor/RenameSelected.cs:30 | A text without white space at either end is its own trim. |
| RenameSelected.TrimIdempotent | Assets/__Project/Editor/RenameSelected.cs:30 | Trimming again after every edit changes nothing more. |
| RenameSelected.TrimOfSpaceAfter | Assets/__Project/Editor/RenameSelected.cs:26-27 | White space appended to a text is trimmed away, including the final newline that `$` leaves. |
| RenameSelected.FirstMatchFrom | Assets/__Project/Editor/RenameSelected.cs:26 | The leftmost position of ` ([([{])?\d.*$`, with no match before it, or none when there is no match. |
| RenameSelected.DerivedPrefixWithoutSuffix | Assets/__Project/Editor/RenameSelected.cs:26-27 | A name without a numbered suffix proposes itself, trimmed. |
| RenameSelected.DerivedPrefixCutsAtLeftmostMatch | Assets/__Project/Editor/RenameSelected.cs:26-27 | A name proposes what stands before its leftmost match, trimmed. |
| RenameSelected.ProposalForDuplicate | Assets/__Project/Editor/RenameSelected.cs:26-27 | "Cube (3)" proposes "Cube". |
| RenameSelected.ProposalForBracketedNumber | Assets/__Project/Editor/RenameSelected.cs:26-27 | "Cube [12]" proposes "Cube". |
| RenameSelected.ProposalForBareNumber | Assets/__Project/Editor/RenameSelected.cs:26-27 | "Cube 7" proposes "Cube". |
| RenameSelected.ProposalKeepsNonNumber | Assets/__Project/Editor/RenameSelected.cs:26-27 | "Cube (a)" is kept unchanged. |
| RenameSelected.DerivedPrefixIsStable | Assets/__Project/Editor/RenameSelected.cs:26-27 | A proposed prefix has no numbered suffix, so proposing again from it gives it back. |
| RenameSelected.NumberedNameInjective | Assets/__Project/Editor/RenameSelected.cs:50 | Names with one prefix and different numbers differ. |
| RenameSelected.RenamedNameGivesPrefixBack | Assets/__Project/Editor/RenameSelected.cs:26-50 | Reopening the window on an object renamed "<prefix> (<n>)" proposes `prefix` again. |
| RenameSelected.Wrap32 | Assets/__Project/Editor/RenameSelected.cs:50 | `startIndex + i` in unchecked 32-bit arithmetic: always in the `int` range, and unchanged when in range. |
| RenameSelected.Wrap32Injective | Assets/__Project/Editor/RenameSelected.cs:50 | Numbers fewer than 2³² apart stay apart after wrapping. |
| RenameSelected.RenameWindow.constructor | Assets/__Project/Editor/RenameSelected.cs:9-10 | No prefix yet; the start index is 1. |
| RenameSelected.RenameWindow.ProposePrefix | Assets/__Project/Editor/RenameSelected.cs:25-28 | A prefix is derived from the first name only for a non-empty selection with no prefix yet. Otherwise the prefix stays. |
| RenameSelected.RenameWindow.TakeFields | Assets/__Project/Editor/RenameSelected.cs:30-31 | The prefix is the shown or typed text, trimmed. The start index is the field's value. |
| RenameSelected.RenameWindow.PressRename | Assets/__Project/Editor/RenameSelected.cs:37-53 | The selection is renamed in sibling order and the window closes. |
| RenameSelected.RenameWindow.OnGUI | Assets/__Project/Editor/RenameSelected.cs:24-55 | One pass: propose, take the fields, and if the button is clicked, rename and close. Without a click no object changes. |
| RenameSelected.RenameObjects | Assets/__Project/Editor/RenameSelected.cs:38-51 | The result is a permutation of the selection, ascending by sibling index. Element `i` is named "<prefix> (<startIndex + i>)". |
| RenameSelected.CopySelection | Assets/__Project/Editor/RenameSelected.cs:38-43 | The working array is an element-wise copy of the selection. |
| RenameSelected.SortBySiblingIndex | Assets/__Project/Editor/RenameSelected.cs:45 | The array ends ascending by sibling index and holds the same objects. |
| RenameSelected.DistinctAfterPermutation | Assets/__Project/Editor/RenameSelected.cs:38-45 | The sorted copy of a selection without repeats has no repeats. |
| RenameSelected.RenameInOrder | Assets/__Project/Editor/RenameSelected.cs:49-51 | Array element `i` is named "<prefix> (<startIndex + i>)", with the sum in 32 bits. |
| RenameSelected.RenamedNamesDistinct | Assets/__Project/Editor/RenameSelected.cs:49-51 | For up to 2³² objects, the new names are pairwise different. |
| Findings.MixBeforePlacementAsWritten | Assets/__Project/Scripts/GameManager.cs:97 | As written: a click, a second click on the same instance while the lid is still opening for it, then a mix click. The mix may start although the only placement has not ended. |
| Findings.MixAfterPlacement | Assets/__Project/Scripts/GameManager.cs:96-99 | Corrected: for the same clicks, the mix waits while the placement runs. |
| Findings.MixClickAfterResetAsWritten | Assets/__Project/Scripts/GameManager.cs:206-218 | As written: the new level's first click is the mix button. It passes the guard and the mix fails on the empty jug. The mix stays requested, so every later click is ignored. |
| Findings.MixClickAfterReset | Assets/__Project/Scripts/GameManager.cs:206-218 | Corrected: the same click after the reset requests no mix. |

## Left out

- Floating point: colours, vectors and durations are `real`, so single-precision rounding is not modelled.
- ColorCalculations.ColorsEuclideanDistance: `Vector3.magnitude` is a square root. The root is passed in as a parameter `sqrt` that must be the non-negative square root on non-negative arguments.
- The shown `IngredientManager` calls its colour `ingredientColor`, while `ColorCalculations.cs:16` and `BlenderController.cs:202` read `.color`. The model reads it as the one `ingredientColor` field.
- Tasks, `Task.Delay`, `Task.WhenAll`, `ContinueWith` and cancellation tokens are not scheduled.
  - Each await of a placement is a state, and an event method completes it. A delay whose source was cancelled never elapses.
  - The mix continuation is one slot per game.
  - Awaits inside `MixAsync` and `ResetSceneAsync` run to completion within the one call.
- A cancelled wait makes `Task.WhenAll` (GameManager.cs:135-138) throw, so the placement ends without closing the lid (`OnJoinedFor`).
- The renewal is started only after `OpenLidAsync` returns (GameManager.cs:129-131), and the model schedules it in `OnLidOpenedFor`.
- Ingredients.IngredientManager.Acquire: instance ids come from a scene counter that starts at 0. Unity's negative ids for runtime copies, and so the '-' in a name, do not occur. The name contract itself holds for every id.
- ColorCalculations.MixColors: `weights` and `count * color` are C# `int` arithmetic. The model sums unbounded integers, so a count total beyond 2³¹ - 1 does not wrap as it would in the game.
- Input polling, raycasts and layer masks: a click arrives as a `Hit` value.
- The debug key handlers and `OnValidate` assertions are editor plumbing.
- The `Awake` singletons and the half-second `Invoke` of the first level are left out.
- Utils.CalculateLaunchVelocity is not modelled. The launch velocity and flight time are parameters of `OnLidOpenedFor`. The shown `Utils.cs` has no `out time` overload, although `IngredientController.cs:73` calls one.
- Ingredients.IngredientController.MoveTo: requires a positive flight time, as every trajectory has. With a zero time the float division would give an infinite angular velocity, which reals cannot express.
- The rest of the rendering is left out:
  - tween shapes (jumps, shake, colour and fill curves);
  - the camera moves;
  - the results panel's `ShowAsync`/`HideAsync`;
  - `Quaternion.LookRotation`, which is a parameter `lookRotation`.
- The mix button's animation is kept only as the stage history of a mix.
- `HashSet` enumeration order is not specified, so `Mix` takes it as a parameter that lists each member once. Order independence is proved for the final colour. It is stated on colour multisets.
- Blender.BlenderController.Mix: requires every instance in the jug to have its asset, as every acquired instance has. A null asset would throw in `GenerateMixColorSteps`.
- Blender.BlenderController.constructor: requires a non-negative mix duration, as the disposal's wait length needs.
- The jug reset's own durations, and its two halves, are results of `ResetJugContentAsync`. Their completion is `OnJugContentResetCompleted`.
- The levels' `StartLevel` returns the request, or the exception, instead of calling `GameManager.StartLevelAsync`. `Game.GameManager.StartLevel` is the receiving side.
- Legacy.LegacyLevelManager.StartLevel and Levels.LevelManager.StartLevel: a null level is the `AbsentLevel` result with the index, standing for the thrown exception.
- A holder child without an `IngredientController` is a null entry in `CleanIngredientsHolder`. It is destroyed, but the scene does not track it.
- `Selection.objects` and `Selection.gameObjects` are one selection sequence of game objects.
- Objects without a `GameObject` are not modelled, and `Undo.RecordObjects` is undo plumbing.
- RenameSelected.SortBySiblingIndex: `Array.Sort` is unstable. Equal sibling indices may end in either order. The contract states only ascending order and permutation.
- `ShowWindow`, `Validate`, the count label and `GUI.enabled` are editor UI.
- The initial null `_gameObjectPrefix` is kept as "", which `string.IsNullOrEmpty` treats alike.
- `\d` is read as the ASCII digits `0`-`9`. .NET also matches other Unicode decimal digits.
- RenameSelected.DerivedPrefixIsStable: requires a name on one line. A final newline kept by `$` is outside what is proved.
- RenameSelected.RenamedNameGivesPrefixBack: requires a trimmed one-line prefix without a numbered suffix of its own, and a non-negative number. A negative number prints a minus sign, and `-` is not matched by `\d`.
- CameraController, RectTransformController, BlenderMixButtonController, the root `BlenderController.cs`, ReplaceWithPrefab, CountedIngredientDrawer, MonoBehaviourDebug and GizmoMarker are thin wrappers of engine calls. They are not part of this model.

## Findings

| source | as written | input that shows it | evidently intended | confidence | as-written member | corrected member |
|---|---|---|---|---|---|---|
| Assets/__Project/Scripts/GameManager.cs:97 | Every ingredient click assigns `_ingredientMovementTask`, even when the instance is not interactable. That click's task has already completed. | Click an ingredient. Click the same instance again before its placement ends (the model clicks while the lid is still opening). Then click the mix button. The mix continuation's task has completed, so the mix starts while the only placement has not ended. | Only a click that starts a placement replaces the movement task, so the mix waits for the latest placement. | not executed | Findings.MixBeforePlacementAsWritten | Findings.MixAfterPlacement |
| Assets/__Project/Scripts/GameManager.cs:206-218 | `ResetSceneAsync` never clears `_ingredientMovementTask`. After a level, the mix-click guard at line 101 still passes. | Play a level to its mix, start the next level, and click the mix button first. `MixAsync` throws on the empty jug inside the unobserved continuation. `_mixRequested` stays true, and every later click of the level is ignored. | The reset also clears the movement task, so a new level needs a placement before a mix. | not executed | Findings.MixClickAfterResetAsWritten | Findings.MixClickAfterReset |
