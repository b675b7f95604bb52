/**
 * `MultiresImage`: one derived image of a source, made by one recipe. Processing runs the
 * engine on the decoded source and stores the saved file; the text form marks whether
 * that has happened.
 */
module MultiresImages {
  import opened Results
  import opened Images
  import opened Recipes
  import opened Engines

  /**
   * `process` refuses to run when there is neither a recipe key nor a recipe object,
   * or when there is no source: `not recipe_id and not recipe or not source`.
   */
  function ProcessRefused(recipeId: Option<nat>, recipe: Option<Recipe>, source: string): (r: bool)
    ensures source == "" ==> r
    ensures !Truthy(recipeId) && recipe.None? ==> r
    ensures r ==> source == "" || (!Truthy(recipeId) && recipe.None?)
  {
    (!Truthy(recipeId) && recipe.None?) || source == ""
  }

  /**
   * With the relation loaded whenever its key is set, the guard refuses exactly when
   * the recipe or the source is missing, so the engine it lets through always has a recipe.
   */
  lemma ProcessRefusedExactly(recipeId: Option<nat>, recipe: Option<Recipe>, source: string)
    requires Truthy(recipeId) ==> recipe.Some?
    ensures ProcessRefused(recipeId, recipe, source) <==> recipe.None? || source == ""
    ensures !ProcessRefused(recipeId, recipe, source) ==>
      forall image: Image, trig: Trig :: Generate(image, recipe, trig) != Err(MissingRecipe)
  {
    if !ProcessRefused(recipeId, recipe, source) {
      forall image: Image, trig: Trig
        ensures Generate(image, recipe, trig) != Err(MissingRecipe)
      {
        GenerateHasRecipe(image, recipe.value, trig);
      }
    }
  }

  /** With a recipe, the engine fails only if a processing step does, never for want of a recipe. */
  lemma GenerateHasRecipe(image: Image, recipe: Recipe, trig: Trig)
    ensures Generate(image, Some(recipe), trig) != Err(MissingRecipe)
  {
    var run := RunPlan(Plan(recipe), image, trig);
    if run.Err? {
      RunPlanErrors(Plan(recipe), image, trig);
    }
  }

  /** The sign `__str__` starts with: `'+'` for a processed image, `'-'` otherwise. */
  function Mark(processed: bool): (r: char)
    ensures r == '+' <==> processed
    ensures !processed ==> r == '-'
  {
    if processed then '+' else '-'
  }

  class MultiresImage {
    /** The source file's name; empty when no file is set. */
    var source: string
    /** The recipe foreign key, and the recipe it refers to once loaded or assigned. */
    var recipeId: Option<nat>
    var recipe: Option<Recipe>
    var processed: bool
    /** The processed file, once made. */
    var image: Option<SavedFile>

    /** A set recipe key always has its recipe. */
    predicate Valid()
      reads this
    {
      Truthy(recipeId) ==> recipe.Some?
    }

    constructor(source: string, recipeId: Option<nat>, recipe: Option<Recipe>)
      requires Truthy(recipeId) ==> recipe.Some?
      ensures Valid()
      ensures this.source == source && this.recipeId == recipeId && this.recipe == recipe
      ensures !processed && image.None?
    {
      this.source := source;
      this.recipeId := recipeId;
      this.recipe := recipe;
      processed := false;
      image := None;
    }

    /**
     * `process`: refuse without a recipe or a source; otherwise run the engine on the
     * decoded source, store the file it saves and mark the image processed. A refusal
     * or an engine error leaves the object as it was.
     */
    method Process(decoded: Image, trig: Trig) returns (r: Result<()>)
      requires Valid()
      modifies this
      ensures Valid()
      ensures source == old(source) && recipeId == old(recipeId) && recipe == old(recipe)
      ensures ProcessRefused(old(recipeId), old(recipe), old(source)) ==> r == Err(MissingRecipeOrSource)
      ensures !ProcessRefused(old(recipeId), old(recipe), old(source)) ==>
        match Generate(decoded, old(recipe), trig)
        case Err(e) => r == Err(e) && e != MissingRecipe
        case Ok(file) => r == Ok(()) && image == Some(file) && processed
      ensures r.Err? ==> processed == old(processed) && image == old(image)
    {
      if ProcessRefused(recipeId, recipe, source) {
        return Err(MissingRecipeOrSource);
      }
      ProcessRefusedExactly(recipeId, recipe, source);
      var file := DefaultEngineCallable(decoded, recipe, trig);
      if file.Err? {
        return Err(file.error);
      }
      image := Some(file.value);
      processed := true;
      r := Ok(());
    }

    /**
     * `__str__`: the mark, then `'<recipe> for <source>'` when the recipe key is set and
     * the bare source otherwise.
     */
    function ToString(): (r: string)
      requires Valid()
      reads this
      ensures |r| > 0 && (r[0] == '+' <==> processed) && r[0] == Mark(processed)
      ensures |source| < |r| && r[|r| - |source|..] == source
      ensures !Truthy(recipeId) ==> r == [Mark(processed)] + source
      ensures Truthy(recipeId) ==> r[1..|r| - |source|] == RecipeString(recipe.value) + " for "
    {
      var text := if Truthy(recipeId) then RecipeString(recipe.value) + " for " + source else source;
      [Mark(processed)] + text
    }
  }
}
