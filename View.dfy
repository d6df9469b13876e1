/**
 * The decisions the page makes when it renders: the difficulty badge's
 * background, which sections of a recipe card appear, which nutrition cells
 * appear, and the status line under the buttons.
 */
module RecipeView {
  import opened Wrappers
  import opened Text
  import opened Json
  import opened RecipeNormalizer

  const EasyBackground: string := "linear-gradient(135deg, #00b894 0%, #00cec9 100%)"
  const MediumBackground: string := "linear-gradient(135deg, #fdcb6e 0%, #e17055 100%)"
  const HardBackground: string := "linear-gradient(135deg, #e84393 0%, #fd79a8 100%)"
  const DefaultBackground: string := "linear-gradient(135deg, #74b9ff 0%, #0984e3 100%)"

  /** The `switch` on the difficulty that picks the badge's background. */
  function BadgeBackground(difficulty: string): string {
    match difficulty
    case "Easy" => EasyBackground
    case "Medium" => MediumBackground
    case "Hard" => HardBackground
    case _ => DefaultBackground
  }

  /** The three known difficulties get three different badges; every other value, and only those, the default one. */
  lemma BadgeBackgrounds(difficulty: string)
    ensures BadgeBackground("Easy") != BadgeBackground("Medium")
    ensures BadgeBackground("Easy") != BadgeBackground("Hard")
    ensures BadgeBackground("Medium") != BadgeBackground("Hard")
    ensures BadgeBackground(difficulty) == DefaultBackground
      <==> difficulty != "Easy" && difficulty != "Medium" && difficulty != "Hard"
  {
  }

  /** `recipe.instructions && recipe.instructions.length > 0`: the instructions section is rendered. */
  predicate ShowsInstructions(r: Recipe) {
    |r.instructions| > 0
  }

  /** `recipe.nutrition && Object.keys(recipe.nutrition).length > 0`: the nutrition grid is rendered. */
  predicate ShowsNutrition(r: Recipe) {
    Truthy(Some(r.nutrition)) && KeyCount(r.nutrition) > 0
  }

  /** The instructions section of a normalised recipe appears exactly when the raw entry had a non-empty array of them. */
  lemma InstructionsShownIff(raw: Value, id: string)
    ensures CleanRecipe(raw, id).Success? ==>
      (ShowsInstructions(CleanRecipe(raw, id).value) <==>
        exists xs :: Property(raw, "instructions") == Some(Arr(xs)) && xs != [])
  {
    var p := Property(raw, "instructions");
    if p.Some? && p.value.Arr? {
      assert p == Some(Arr(p.value.items));
    }
  }

  const RenderErrorPrefix: string := "Error rendering recipe: "

  /** What `renderRecipe` returns: the recipe card with its instruction texts, or the error card. */
  datatype RenderedRecipe = Rendered(instructionTexts: seq<string>) | RenderFailed(message: string)

  /**
   * `String(instruction)` for instruction `i`. The run never asks for an index
   * past the end, so the value there is a placeholder.
   */
  function InstructionStep(instructions: seq<Value>): nat -> Result<string, string> {
    (i: nat) => if i < |instructions| then ToJsString(instructions[i]) else Failure("")
  }

  /**
   * `renderRecipe`: inside its `try` only `String(instruction)` can throw (the
   * other fields are strings or numbers by now); the `catch` turns that into an
   * error card carrying the message.
   */
  function RenderRecipe(r: Recipe): RenderedRecipe {
    match MapInOrder(InstructionStep(r.instructions), |r.instructions|)
    case Success(texts) => Rendered(texts)
    case Failure(e) => RenderFailed(RenderErrorPrefix + e)
  }

  /**
   * A card fails exactly when the instructions are shown and one of them cannot
   * be converted to a string; otherwise it lists every instruction as text, in order.
   */
  lemma RenderRecipeShape(r: Recipe)
    ensures RenderRecipe(r).RenderFailed? <==>
      ShowsInstructions(r) && exists i :: 0 <= i < |r.instructions| && ConversionThrows(r.instructions[i])
    ensures RenderRecipe(r).RenderFailed? ==> RenderRecipe(r).message == RenderErrorPrefix + NoPrimitiveMessage
    ensures RenderRecipe(r).Rendered? ==>
      var texts := RenderRecipe(r).instructionTexts;
      && |texts| == |r.instructions|
      && forall i :: 0 <= i < |texts| ==> Success(texts[i]) == ToJsString(r.instructions[i])
  {
    var step := InstructionStep(r.instructions);
    MapInOrderShape(step, |r.instructions|);
    assert forall i :: 0 <= i < |r.instructions| ==> step(i) == ToJsString(r.instructions[i]);
  }

  /** One cell of the nutrition grid: its caption and the value shown above it. */
  datatype NutritionCell = NutritionCell(caption: string, value: Value)

  const NutritionKeys: seq<string> := ["calories", "protein", "carbs", "fat", "fiber"]
  const NutritionLabels: seq<string> := ["Calories", "Protein", "Carbs", "Fat", "Fiber"]

  /** The cell for recognised key number `k`, if that key is truthy. */
  function Cell(nutrition: Value, k: nat): seq<NutritionCell>
    requires k < |NutritionKeys|
  {
    var v := Property(nutrition, NutritionKeys[k]);
    if Truthy(v) then [NutritionCell(NutritionLabels[k], v.value)] else []
  }

  /** The cells of the grid, in the order the page writes them; none when the grid is not rendered. */
  function NutritionCells(r: Recipe): seq<NutritionCell> {
    if !ShowsNutrition(r) then []
    else Cell(r.nutrition, 0) + Cell(r.nutrition, 1) + Cell(r.nutrition, 2) + Cell(r.nutrition, 3) + Cell(r.nutrition, 4)
  }

  /** A truthy recognised key makes the grid non-empty. */
  lemma TruthyKeyShowsGrid(r: Recipe, key: string)
    requires Truthy(Some(r.nutrition)) && Truthy(Property(r.nutrition, key))
    ensures ShowsNutrition(r)
  {
    var m := r.nutrition.fields;
    assert key in m.Keys;
    assert |m.Keys| > 0;
  }

  /**
   * For each recognised key: a cell with its caption appears exactly when the key
   * is truthy, and it shows the key's value.
   */
  lemma NutritionCellShownIff(r: Recipe, k: nat)
    requires k < |NutritionKeys|
    requires Truthy(Some(r.nutrition))
    ensures (exists c :: c in NutritionCells(r) && c.caption == NutritionLabels[k])
      <==> Truthy(Property(r.nutrition, NutritionKeys[k]))
    ensures forall c :: c in NutritionCells(r) && c.caption == NutritionLabels[k] ==>
              Some(c.value) == Property(r.nutrition, NutritionKeys[k])
  {
    var key := NutritionKeys[k];
    if Truthy(Property(r.nutrition, key)) {
      TruthyKeyShowsGrid(r, key);
      assert NutritionCell(NutritionLabels[k], Property(r.nutrition, key).value) in Cell(r.nutrition, k);
    }
  }

  /** The status text: how many ingredients are ready and how many recipes were found. */
  function StatusText(ingredientCount: nat, recipeCount: nat): string {
    "\U{1F4CA} " + Counted(ingredientCount, "ingredient") + " ready \U{2022} " + Counted(recipeCount, "recipe") + " found"
  }

  /** The status card, rendered when there is no error and nothing is loading. */
  function StatusLine(error: string, loading: bool, ingredientCount: nat, recipeCount: nat): Option<string> {
    if error == "" && !loading then Some(StatusText(ingredientCount, recipeCount)) else None
  }

  /** The error card, rendered when there is an error. */
  function ErrorCard(error: string): Option<string> {
    if error != "" then Some(error) else None
  }

  /** At most one of the two cards is shown, and neither while a request without an error is loading. */
  lemma StatusCards(error: string, loading: bool, ingredientCount: nat, recipeCount: nat)
    ensures StatusLine(error, loading, ingredientCount, recipeCount).Some? <==> error == "" && !loading
    ensures !(StatusLine(error, loading, ingredientCount, recipeCount).Some? && ErrorCard(error).Some?)
    ensures StatusLine(error, loading, ingredientCount, recipeCount).None? && ErrorCard(error).None? <==> error == "" && loading
  {
  }
}
