/**
 * `create_recipe_prompt`: the instructions sent to the language model. The
 * prompt names the ingredients, adds a line for the dietary restrictions and
 * one for the cuisine when they are given, and ends with the JSON format the
 * answer must follow.
 */
module RecipePrompt {
  import opened Wrappers
  import opened Text

  /** The opening of the prompt, up to the ingredient names. */
  const IntroHead: string :=
    "\nYou are a professional chef and nutritionist. Generate 2-3 delicious recipe suggestions using the following ingredients: "

  /** The requirements that follow the ingredient names. */
  const IntroTail: string :=
    ".\n"
    + "\n"
    + "Requirements:\n"
    + "- Use as many of the provided ingredients as possible\n"
    + "- Each recipe should be practical and achievable\n"
    + "- Include estimated cooking time and difficulty level (Easy/Medium/Hard)\n"
    + "- Provide realistic nutritional information per serving\n"
    + "- Instructions should be clear and step-by-step\n"

  /** The closing instructions: the exact JSON shape the answer must have. */
  const ResponseFormat: string :=
    "\n"
    + "\n"
    + "IMPORTANT: Respond with ONLY a valid JSON object in this exact format:\n"
    + "\n"
    + "{\n"
    + "  \"recipes\": [\n"
    + "    {\n"
    + "      \"name\": \"Recipe Name\",\n"
    + "      \"ingredients\": [\"ingredient1\", \"ingredient2\", \"ingredient3\"],\n"
    + "      \"instructions\": [\"Step 1: Do this...\", \"Step 2: Do that...\", \"Step 3: Finish with...\"],\n"
    + "      \"cookingTime\": \"X minutes\",\n"
    + "      \"difficulty\": \"Easy/Medium/Hard\",\n"
    + "      \"servings\": 4,\n"
    + "      \"nutrition\": {\n"
    + "        \"calories\": 450,\n"
    + "        \"protein\": \"12g\",\n"
    + "        \"carbs\": \"60g\",\n"
    + "        \"fat\": \"15g\",\n"
    + "        \"fiber\": \"3g\"\n"
    + "      }\n"
    + "    }\n"
    + "  ]\n"
    + "}\n"
    + "\n"
    + "Do not include any text before or after the JSON. Make sure the JSON is valid and properly formatted.\n"

  const DietaryPrefix: string := "\n- Consider these dietary restrictions: "
  const CuisinePrefix: string := "\n- Prefer "

  function Intro(ingredients: seq<string>): string {
    IntroHead + Join(", ", ingredients) + IntroTail
  }

  function DietaryLine(restrictions: seq<string>): string {
    DietaryPrefix + Join(", ", restrictions)
  }

  function CuisineLine(cuisine: string): string {
    CuisinePrefix + cuisine + " cuisine style"
  }

  /** Python truthiness of the optional `cuisine_preference`. */
  predicate HasCuisine(cuisine: Option<string>) {
    cuisine.Some? && cuisine.value != ""
  }

  /** The optional requirement lines, in the order they are appended. */
  function ExtraRequirements(restrictions: seq<string>, cuisine: Option<string>): seq<string> {
    (if restrictions != [] then [DietaryLine(restrictions)] else [])
    + (if HasCuisine(cuisine) then [CuisineLine(cuisine.value)] else [])
  }

  function Concat(lines: seq<string>): string {
    if lines == [] then "" else lines[0] + Concat(lines[1..])
  }

  /** The whole prompt. */
  function Prompt(ingredients: seq<string>, restrictions: seq<string>, cuisine: Option<string>): string {
    Intro(ingredients) + Concat(ExtraRequirements(restrictions, cuisine)) + ResponseFormat
  }

  predicate StartsWith(s: string, prefix: string) {
    |prefix| <= |s| && s[..|prefix|] == prefix
  }

  /**
   * There is a dietary-restrictions line exactly when restrictions are given,
   * and a cuisine line exactly when a non-empty preference is given; the
   * dietary line comes first.
   */
  lemma ExtraRequirementsIff(restrictions: seq<string>, cuisine: Option<string>)
    ensures (exists line :: line in ExtraRequirements(restrictions, cuisine) && StartsWith(line, DietaryPrefix))
      <==> restrictions != []
    ensures (exists line :: line in ExtraRequirements(restrictions, cuisine) && StartsWith(line, CuisinePrefix))
      <==> HasCuisine(cuisine)
    ensures restrictions != [] ==> ExtraRequirements(restrictions, cuisine)[0] == DietaryLine(restrictions)
  {
    var extra := ExtraRequirements(restrictions, cuisine);
    forall line | line in extra
      ensures StartsWith(line, DietaryPrefix) ==> restrictions != [] && line == DietaryLine(restrictions)
      ensures StartsWith(line, CuisinePrefix) ==> HasCuisine(cuisine) && line == CuisineLine(cuisine.value)
    {
      if line == DietaryLine(restrictions) {
        assert line[3] == 'C' && CuisinePrefix[3] == 'P';
      } else {
        assert line == CuisineLine(cuisine.value);
        assert line[3] == 'P' && DietaryPrefix[3] == 'C';
      }
    }
    if restrictions != [] {
      assert StartsWith(DietaryLine(restrictions), DietaryPrefix);
    }
    if HasCuisine(cuisine) {
      assert StartsWith(CuisineLine(cuisine.value), CuisinePrefix);
    }
  }

  /** Appending a line to the list appends it to the text. */
  lemma {:induction false} ConcatSnoc(lines: seq<string>, line: string)
    ensures Concat(lines + [line]) == Concat(lines) + line
  {
    if lines == [] {
      assert [line][1..] == [];
    } else {
      assert (lines + [line])[1..] == lines[1..] + [line];
      ConcatSnoc(lines[1..], line);
    }
  }

  /** `middle` occurs in `before + middle + ...` right after `before`. */
  lemma OccursAfter(before: string, middle: string, tail: string, extra: string, format: string)
    ensures OccursAt(before + middle + tail + extra + format, middle, |before|)
  {
    var s := before + middle + tail + extra + format;
    assert s == before + middle + (tail + extra + format);
    assert s[|before|..|before| + |middle|] == middle;
  }

  /** The ingredient names, joined with commas, always appear in the prompt, right after the opening. */
  lemma PromptNamesIngredients(ingredients: seq<string>, restrictions: seq<string>, cuisine: Option<string>)
    ensures OccursAt(Prompt(ingredients, restrictions, cuisine), Join(", ", ingredients), |IntroHead|)
    ensures Contains(Prompt(ingredients, restrictions, cuisine), Join(", ", ingredients))
  {
    OccursAfter(IntroHead, Join(", ", ingredients), IntroTail, Concat(ExtraRequirements(restrictions, cuisine)), ResponseFormat);
  }

  /** The prompt is the opening with the optional lines, followed by the closing format. */
  lemma PromptFromPieces(ingredients: seq<string>, restrictions: seq<string>, cuisine: Option<string>, opening: string)
    requires opening == Intro(ingredients) + Concat(ExtraRequirements(restrictions, cuisine))
    ensures opening + ResponseFormat == Prompt(ingredients, restrictions, cuisine)
  {
  }

  /** With no restrictions and no cuisine the opening is followed directly by the format instructions. */
  lemma PromptWithoutExtras(ingredients: seq<string>)
    ensures Prompt(ingredients, [], None) == Intro(ingredients) + ResponseFormat
  {
    assert ExtraRequirements([], None) == [];
    PromptFromPieces(ingredients, [], None, Intro(ingredients));
  }

  /** `create_recipe_prompt`, growing the prompt with `+=` as the source does. */
  method CreateRecipePrompt(ingredients: seq<string>, restrictions: seq<string>, cuisine: Option<string>)
    returns (prompt: string)
    ensures prompt == Prompt(ingredients, restrictions, cuisine)
  {
    var basePrompt := Intro(ingredients);
    ghost var lines: seq<string> := [];
    if restrictions != [] {
      ConcatSnoc(lines, DietaryLine(restrictions));
      basePrompt := basePrompt + DietaryLine(restrictions);
      lines := lines + [DietaryLine(restrictions)];
    }
    assert basePrompt == Intro(ingredients) + Concat(lines);
    if HasCuisine(cuisine) {
      ConcatSnoc(lines, CuisineLine(cuisine.value));
      basePrompt := basePrompt + CuisineLine(cuisine.value);
      lines := lines + [CuisineLine(cuisine.value)];
    }
    assert basePrompt == Intro(ingredients) + Concat(lines);
    assert lines == ExtraRequirements(restrictions, cuisine);
    PromptFromPieces(ingredients, restrictions, cuisine, basePrompt);
    basePrompt := basePrompt + ResponseFormat;
    return basePrompt;
  }
}
