/**
 * The default engine: which processors a recipe runs, in which order and with which
 * options, and how the result is prepared for saving.
 *
 * `Plan` is the decision procedure of `DefaultEngine.process` as data; `RunPlan` is its
 * meaning; `DefaultEngine.Process` is the imperative method, proved to compute it.
 */
module Engines {
  import opened Results
  import opened Images
  import opened Processors
  import opened Recipes

  /**
   * One processor call of the engine. A resize stage keeps the recipe's optional sides:
   * the missing ones are taken from the image the stage receives.
   */
  datatype Stage =
    | FlipStage(flip: FlipOptions)
    | RotateStage(rotate: RotateOptions)
    | RotateCropStage(rotateCrop: RotateCropOptions)
    | CropStage(crop: CropOptions)
    | ResizeStage(width: Option<nat>, height: Option<nat>, fit: string, upscale: bool)

  /** The position of a stage's kind in the engine's fixed order. */
  function Rank(s: Stage): nat {
    match s
    case FlipStage(_) => 0
    case RotateStage(_) => 1
    case RotateCropStage(_) => 1
    case CropStage(_) => 2
    case ResizeStage(_, _, _, _) => 3
  }

  /** The rotate options the engine passes: `color` is `rotate_color or None`, transparency never kept. */
  function RotateOptionsOf(recipe: Recipe): RotateOptions
    requires recipe.rotate.Some?
  {
    RotateOptions(recipe.rotate.value, true, recipe.rotateColor, false)
  }

  /** The recipe's whole-number crop insets, in percent (the crop processor's default). */
  function CropBoxOf(crop: seq<int>): (r: seq<Option<real>>)
    ensures |r| == |crop|
    ensures forall i :: 0 <= i < |r| ==> r[i] == Some(crop[i] as real)
  {
    seq(|crop|, i requires 0 <= i < |crop| => Some(crop[i] as real))
  }

  function FlipPart(recipe: Recipe): seq<Stage> {
    if recipe.flip != "" then [FlipStage(FlipOptions(recipe.flip))] else []
  }

  function RotatePart(recipe: Recipe): seq<Stage> {
    if !TruthyInt(recipe.rotate) then []
    else if recipe.rotateCrop == "" then [RotateStage(RotateOptionsOf(recipe))]
    else [RotateCropStage(RotateCropOptions(RotateOptionsOf(recipe), recipe.rotateCrop))]
  }

  function CropPart(recipe: Recipe): seq<Stage> {
    if |recipe.crop| > 0 then [CropStage(CropOptions(CropBoxOf(recipe.crop), true))] else []
  }

  function ResizePart(recipe: Recipe): seq<Stage> {
    if Truthy(recipe.width) || Truthy(recipe.height)
    then [ResizeStage(recipe.width, recipe.height, recipe.fit, recipe.upscale)]
    else []
  }

  /** The processor calls `DefaultEngine.process` makes for a recipe, in order. */
  function Plan(recipe: Recipe): (r: seq<Stage>)
    ensures |r| <= 4
  {
    FlipPart(recipe) + RotatePart(recipe) + CropPart(recipe) + ResizePart(recipe)
  }

  /** The resize options for the image a resize stage receives. */
  function ResizeOptionsFor(width: Option<nat>, height: Option<nat>, fit: string, upscale: bool,
                            current: Size): (r: ResizeOptions)
    ensures r.width == Some(OrElse(width, current.width)) && r.height == Some(OrElse(height, current.height))
    ensures r.fit == fit && r.upscale == upscale
  {
    ResizeOptions(Some(OrElse(width, current.width)), Some(OrElse(height, current.height)), fit, upscale)
  }

  function RunStage(stage: Stage, image: Image, trig: Trig): (r: Result<Image>)
    ensures stage.FlipStage? ==> r.Ok?
    ensures r.Ok? && !stage.RotateStage? ==> r.value.mode == image.mode
  {
    match stage
    case FlipStage(options) => Ok(FlipImage(image, options))
    case RotateStage(options) => RotateImage(image, options, trig)
    case RotateCropStage(options) => RotateCropImage(image, options, trig)
    case CropStage(options) => EdgeCropImage(image, options)
    case ResizeStage(width, height, fit, upscale) =>
      ResizeImage(image, ResizeOptionsFor(width, height, fit, upscale, image.size))
  }

  /** The stages applied one after the other; the first error stops the run. */
  function RunPlan(plan: seq<Stage>, image: Image, trig: Trig): (r: Result<Image>)
    ensures plan == [] ==> r == Ok(image)
    ensures r.Ok? && (forall i :: 0 <= i < |plan| ==> !plan[i].RotateStage?) ==> r.value.mode == image.mode
    decreases |plan|
  {
    if plan == [] then Ok(image)
    else
      var next :- RunStage(plan[0], image, trig);
      RunPlan(plan[1..], next, trig)
  }

  // ------------------------------------------------------------------
  // Properties of the plan
  // ------------------------------------------------------------------

  /** Stage kinds strictly increase along the plan. */
  predicate Ordered(plan: seq<Stage>) {
    forall i, j :: 0 <= i < j < |plan| ==> Rank(plan[i]) < Rank(plan[j])
  }

  /** Concatenating two ordered plans, all of whose kinds come before the second's, stays ordered. */
  lemma OrderedConcat(p: seq<Stage>, q: seq<Stage>, k: nat)
    requires Ordered(p) && Ordered(q)
    requires forall s :: s in p ==> Rank(s) < k
    requires forall s :: s in q ==> Rank(s) >= k
    ensures Ordered(p + q)
  {
    var pq := p + q;
    forall i, j | 0 <= i < j < |pq|
      ensures Rank(pq[i]) < Rank(pq[j])
    {
      if j < |p| {
        assert pq[i] == p[i] && pq[j] == p[j];
      } else if i >= |p| {
        assert pq[i] == q[i - |p|] && pq[j] == q[j - |p|];
      } else {
        assert pq[i] in p && pq[j] in q;
      }
    }
  }

  /** Stages come in the order flip, rotate, crop, resize, so each kind appears at most once. */
  lemma PlanOrdered(recipe: Recipe)
    ensures |Plan(recipe)| <= 4
    ensures Ordered(Plan(recipe))
  {
    var f, r, c, z := FlipPart(recipe), RotatePart(recipe), CropPart(recipe), ResizePart(recipe);
    OrderedConcat(f, r, 1);
    OrderedConcat(f + r, c, 2);
    OrderedConcat(f + r + c, z, 3);
  }

  predicate HasFlip(plan: seq<Stage>) { exists s :: s in plan && s.FlipStage? }
  predicate HasRotate(plan: seq<Stage>) { exists s :: s in plan && s.RotateStage? }
  predicate HasRotateCrop(plan: seq<Stage>) { exists s :: s in plan && s.RotateCropStage? }
  predicate HasCrop(plan: seq<Stage>) { exists s :: s in plan && s.CropStage? }
  predicate HasResize(plan: seq<Stage>) { exists s :: s in plan && s.ResizeStage? }

  /** A stage of the plan is a stage of one of its four parts. */
  lemma PlanMembers(recipe: Recipe, s: Stage)
    ensures s in Plan(recipe) <==>
      s in FlipPart(recipe) || s in RotatePart(recipe) || s in CropPart(recipe) || s in ResizePart(recipe)
  {
  }

  /**
   * Each stage runs exactly when its recipe field is truthy; a rotation uses the
   * rotate-crop processor exactly when `rotate_crop` is non-empty.
   */
  lemma PlanStages(recipe: Recipe)
    ensures HasFlip(Plan(recipe)) <==> recipe.flip != ""
    ensures HasRotate(Plan(recipe)) <==> TruthyInt(recipe.rotate) && recipe.rotateCrop == ""
    ensures HasRotateCrop(Plan(recipe)) <==> TruthyInt(recipe.rotate) && recipe.rotateCrop != ""
    ensures HasCrop(Plan(recipe)) <==> |recipe.crop| > 0
    ensures HasResize(Plan(recipe)) <==> Truthy(recipe.width) || Truthy(recipe.height)
  {
    var f, r, c, z := FlipPart(recipe), RotatePart(recipe), CropPart(recipe), ResizePart(recipe);
    forall s | s in Plan(recipe)
      ensures s in f || s in r || s in c || s in z
    {
      PlanMembers(recipe, s);
    }
    if f != [] {
      PlanMembers(recipe, f[0]);
    }
    if r != [] {
      PlanMembers(recipe, r[0]);
    }
    if c != [] {
      PlanMembers(recipe, c[0]);
    }
    if z != [] {
      PlanMembers(recipe, z[0]);
    }
  }

  /**
   * The rotation's options: the recipe's degrees, an extended canvas, the recipe's colour
   * (none when blank), transparency not preserved, and for rotate-crop the recipe's mode.
   */
  lemma PlanRotateOptions(recipe: Recipe, s: Stage)
    requires s in Plan(recipe) && (s.RotateStage? || s.RotateCropStage?)
    ensures var o := if s.RotateStage? then s.rotate else s.rotateCrop.rotate;
      && recipe.rotate.Some? && o.degrees == recipe.rotate.value && o.degrees != 0
      && o.extend && o.color == recipe.rotateColor && !o.preserveTransparency
    ensures s.RotateCropStage? ==> s.rotateCrop.cropMode == recipe.rotateCrop && recipe.rotateCrop != ""
    ensures s.RotateStage? ==> recipe.rotateCrop == ""
  {
    PlanMembers(recipe, s);
  }

  /** The crop stage passes the recipe's insets as percentages. */
  lemma PlanCropOptions(recipe: Recipe, s: Stage)
    requires s in Plan(recipe) && s.CropStage?
    ensures s.crop.cropPercent && |s.crop.cropBox| == |recipe.crop| > 0
    ensures forall i :: 0 <= i < |recipe.crop| ==> s.crop.cropBox[i] == Some(recipe.crop[i] as real)
  {
    PlanMembers(recipe, s);
  }

  /** A recipe that asks for nothing leaves the image as it is. */
  lemma EmptyRecipeIdentity(recipe: Recipe, image: Image, trig: Trig)
    requires recipe.flip == "" && !TruthyInt(recipe.rotate) && recipe.crop == []
    requires !Truthy(recipe.width) && !Truthy(recipe.height)
    ensures Plan(recipe) == []
    ensures RunPlan(Plan(recipe), image, trig) == Ok(image)
  {
  }

  /** The flip stage passes the recipe's flip value. */
  lemma PlanFlipOptions(recipe: Recipe, s: Stage)
    requires s in Plan(recipe) && s.FlipStage?
    ensures s.flip == FlipOptions(recipe.flip) && recipe.flip != ""
  {
    PlanMembers(recipe, s);
  }

  /** The resize stage passes the recipe's optional sides, its fit mode and its upscale flag. */
  lemma PlanResizeOptions(recipe: Recipe, s: Stage)
    requires s in Plan(recipe) && s.ResizeStage?
    ensures s == ResizeStage(recipe.width, recipe.height, recipe.fit, recipe.upscale)
    ensures Truthy(recipe.width) || Truthy(recipe.height)
  {
    PlanMembers(recipe, s);
  }

  /**
   * The recipe's resize stage fills a missing side from the image it receives; with a
   * supported anchor mode other than `fit`, it yields an image of exactly the recipe's box.
   */
  lemma ResizeStageFillsBox(recipe: Recipe, s: Stage, image: Image, trig: Trig)
    requires s in Plan(recipe) && s.ResizeStage?
    requires image.size.width >= 1 && image.size.height >= 1
    requires recipe.fit != "fit" && SupportedAnchor(recipe.fit)
    ensures RunStage(s, image, trig).Ok?
    ensures RunStage(s, image, trig).value.size
         == Size(OrElse(recipe.width, image.size.width), OrElse(recipe.height, image.size.height))
  {
    PlanResizeOptions(recipe, s);
    var options := ResizeOptionsFor(recipe.width, recipe.height, recipe.fit, recipe.upscale, image.size);
    ResizeCropFillsBox(image, options);
  }

  /** In `fit` mode the recipe's resize stage gives a result within the recipe's box. */
  lemma ResizeStageFitsBox(recipe: Recipe, s: Stage, image: Image, trig: Trig)
    requires s in Plan(recipe) && s.ResizeStage?
    requires image.size.width >= 1 && image.size.height >= 1 && recipe.fit == "fit"
    ensures RunStage(s, image, trig).Ok?
    ensures var r := RunStage(s, image, trig).value;
      && 1 <= r.size.width <= OrElse(recipe.width, image.size.width)
      && 1 <= r.size.height <= OrElse(recipe.height, image.size.height)
  {
    PlanResizeOptions(recipe, s);
    var options := ResizeOptionsFor(recipe.width, recipe.height, "fit", recipe.upscale, image.size);
    ResizeFitsWithinBox(image, options);
  }

  /** Running a plan that starts with `s`: run `s`, then the rest on its result. */
  lemma RunPlanCons(s: Stage, rest: seq<Stage>, image: Image, trig: Trig)
    ensures RunPlan([s] + rest, image, trig)
         == (var next :- RunStage(s, image, trig); RunPlan(rest, next, trig))
  {
    assert ([s] + rest)[0] == s && ([s] + rest)[1..] == rest;
  }

  /** Running two plans one after the other is running their concatenation. */
  lemma {:induction false} RunPlanConcat(p: seq<Stage>, q: seq<Stage>, image: Image, trig: Trig)
    ensures RunPlan(p + q, image, trig)
         == (var mid :- RunPlan(p, image, trig); RunPlan(q, mid, trig))
    decreases |p|
  {
    if p != [] {
      assert (p + q)[0] == p[0] && (p + q)[1..] == p[1..] + q;
      var next := RunStage(p[0], image, trig);
      if next.Ok? {
        RunPlanConcat(p[1..], q, next.value, trig);
      }
    } else {
      assert p + q == q;
    }
  }

  /** The engine's result is the four parts run in turn: the plan is its stages, nothing more. */
  lemma RunPlanInParts(recipe: Recipe, image: Image, trig: Trig)
    ensures RunPlan(Plan(recipe), image, trig)
         == (var a :- RunPlan(FlipPart(recipe), image, trig);
             var b :- RunPlan(RotatePart(recipe), a, trig);
             var c :- RunPlan(CropPart(recipe), b, trig);
             RunPlan(ResizePart(recipe), c, trig))
  {
    var f, r, c, z := FlipPart(recipe), RotatePart(recipe), CropPart(recipe), ResizePart(recipe);
    assert Plan(recipe) == f + (r + (c + z));
    RunPlanConcat(f, r + (c + z), image, trig);
    var a := RunPlan(f, image, trig);
    if a.Ok? {
      RunPlanConcat(r, c + z, a.value, trig);
      var b := RunPlan(r, a.value, trig);
      if b.Ok? {
        RunPlanConcat(c, z, b.value, trig);
      }
    }
  }

  /** A processing step fails only with an error of its own, never with the engine's or the model's. */
  lemma RunStageErrors(stage: Stage, image: Image, trig: Trig)
    ensures RunStage(stage, image, trig).Err? ==>
      RunStage(stage, image, trig).error !in {MissingRecipe, MissingRecipeOrSource}
  {
  }

  /** The same holds for a whole plan: its first failing step supplies the error. */
  lemma {:induction false} RunPlanErrors(plan: seq<Stage>, image: Image, trig: Trig)
    ensures RunPlan(plan, image, trig).Err? ==>
      RunPlan(plan, image, trig).error !in {MissingRecipe, MissingRecipeOrSource}
    decreases |plan|
  {
    if plan != [] {
      RunStageErrors(plan[0], image, trig);
      var next := RunStage(plan[0], image, trig);
      if next.Ok? {
        RunPlanErrors(plan[1..], next.value, trig);
      }
    }
  }

  // ------------------------------------------------------------------
  // Saving
  // ------------------------------------------------------------------

  /** `FILE_TYPE_EXT_MAPPING`. */
  const FileTypeExtensions: map<string, string> := map["jpeg" := "jpg", "png" := "png"]

  /** `'.' + FILE_TYPE_EXT_MAPPING.get(file_type, file_type)`. */
  function FileName(fileType: string): (r: string)
    ensures fileType == "jpeg" ==> r == ".jpg"
    ensures fileType == "png" ==> r == ".png"
    ensures fileType !in {"jpeg", "png"} ==> r == "." + fileType
  {
    "." + (if fileType in FileTypeExtensions then FileTypeExtensions[fileType] else fileType)
  }

  /** What `save` hands to the imaging library: the file name, the format, its options and the image. */
  datatype SavedFile = SavedFile(name: string, format: string, saveOptions: map<string, nat>, image: Image)

  /** The image as saved: a JPEG is converted to RGB unless it is RGB or RGBA already. */
  function NormalizedImage(image: Image, fileType: string): (r: Image)
    ensures fileType == "jpeg" ==> r.mode in {"RGB", "RGBA"}
    ensures fileType == "jpeg" && image.mode in {"RGB", "RGBA"} ==> r == image
    ensures fileType == "jpeg" && image.mode !in {"RGB", "RGBA"} ==> r == Convert(image, "RGB")
    ensures fileType != "jpeg" ==> r == image
    ensures r.size == image.size
  {
    if fileType == "jpeg" && image.mode != "RGB" && image.mode != "RGBA" then Convert(image, "RGB") else image
  }

  /** `DefaultEngine.save`, as the file it produces. */
  function SavedOf(image: Image, recipe: Recipe): (r: SavedFile)
    ensures r.name == FileName(recipe.fileType) && r.format == recipe.fileType
    ensures "quality" in r.saveOptions <==> recipe.fileType == "jpeg" && Truthy(recipe.quality)
    ensures "quality" in r.saveOptions ==> r.saveOptions["quality"] == recipe.quality.value
    ensures r.saveOptions.Keys <= {"quality"}
    ensures r.image == NormalizedImage(image, recipe.fileType)
  {
    var options := if recipe.fileType == "jpeg" && Truthy(recipe.quality)
      then map["quality" := recipe.quality.value] else map[];
    SavedFile(FileName(recipe.fileType), recipe.fileType, options, NormalizedImage(image, recipe.fileType))
  }

  /** One engine call: process the image by the recipe, then save it; no recipe is an error. */
  function Generate(image: Image, recipe: Option<Recipe>, trig: Trig): (r: Result<SavedFile>)
    ensures recipe.None? ==> r == Err(MissingRecipe)
    ensures r.Ok? ==> recipe.Some? && r.value.format == recipe.value.fileType
                      && r.value.name == FileName(recipe.value.fileType)
    ensures recipe.Some? ==>
      var run := RunPlan(Plan(recipe.value), image, trig);
      && (run.Err? ==> r == Err(run.error))
      && (run.Ok? ==> r == Ok(SavedOf(run.value, recipe.value)))
  {
    if recipe.None? then Err(MissingRecipe)
    else
      var processed :- RunPlan(Plan(recipe.value), image, trig);
      Ok(SavedOf(processed, recipe.value))
  }

  /**
   * A recipe left at its column defaults asks for no processing: the engine saves the
   * source as a JPEG named `.jpg`, with no quality option.
   */
  lemma DefaultRecipeOnlySaves(image: Image, trig: Trig)
    ensures Plan(DefaultRecipe) == []
    ensures Generate(image, Some(DefaultRecipe), trig) == Ok(SavedOf(image, DefaultRecipe))
    ensures SavedOf(image, DefaultRecipe).name == ".jpg" && SavedOf(image, DefaultRecipe).saveOptions == map[]
  {
    assert FlipPart(DefaultRecipe) == [] && RotatePart(DefaultRecipe) == [];
    assert CropPart(DefaultRecipe) == [] && ResizePart(DefaultRecipe) == [];
  }

  // ------------------------------------------------------------------
  // The engine classes (BaseEngine and DefaultEngine)
  // ------------------------------------------------------------------

  // The four blocks of `DefaultEngine.process`, each proved to run its part of the plan.

  method FlipBlock(image: Image, recipe: Recipe, trig: Trig) returns (r: Image)
    ensures RunPlan(FlipPart(recipe), image, trig) == Ok(r)
  {
    r := image;
    if recipe.flip != "" {
      r := FlipProcessorCallable(r, FlipOptions(recipe.flip));
    }
  }

  /** The rotate block builds the keyword arguments, then picks the processor by `rotate_crop`. */
  method RotateBlock(image: Image, recipe: Recipe, trig: Trig) returns (r: Result<Image>)
    ensures r == RunPlan(RotatePart(recipe), image, trig)
  {
    if !TruthyInt(recipe.rotate) {
      return Ok(image);
    }
    var rotateOptions := RotateOptions(recipe.rotate.value, true, recipe.rotateColor, false);
    RunPlanCons(RotatePart(recipe)[0], [], image, trig);
    if recipe.rotateCrop == "" {
      if recipe.fileType == "png" {
        rotateOptions := rotateOptions.(preserveTransparency := false);
      }
      r := RotateProcessorCallable(image, rotateOptions, trig);
    } else {
      r := RotateCropProcessorCallable(image, RotateCropOptions(rotateOptions, recipe.rotateCrop), trig);
    }
  }

  method CropBlock(image: Image, recipe: Recipe, trig: Trig) returns (r: Result<Image>)
    ensures r == RunPlan(CropPart(recipe), image, trig)
  {
    if |recipe.crop| == 0 {
      return Ok(image);
    }
    RunPlanCons(CropPart(recipe)[0], [], image, trig);
    r := CropProcessorCallable(image, CropOptions(CropBoxOf(recipe.crop), true));
  }

  /** The resize block takes a missing side from the current image. */
  method ResizeBlock(image: Image, recipe: Recipe, trig: Trig) returns (r: Result<Image>)
    ensures r == RunPlan(ResizePart(recipe), image, trig)
  {
    if !Truthy(recipe.width) && !Truthy(recipe.height) {
      return Ok(image);
    }
    RunPlanCons(ResizePart(recipe)[0], [], image, trig);
    var options := ResizeOptions(Some(OrElse(recipe.width, image.size.width)),
                                 Some(OrElse(recipe.height, image.size.height)),
                                 recipe.fit, recipe.upscale);
    r := ResizeProcessorCallable(image, options);
  }

  class DefaultEngine {
    var recipe: Option<Recipe>

    constructor (recipe: Option<Recipe>)
      ensures this.recipe == recipe
    {
      this.recipe := recipe;
    }

    method Pre(image: Image) returns (r: Image)
      ensures r == image
    {
      r := image;
    }

    method Post(image: Image) returns (r: Image)
      ensures r == image
    {
      r := image;
    }

    /** `DefaultEngine.process`: each stage whose recipe field is set, in the fixed order. */
    method Process(image: Image, trig: Trig) returns (r: Result<Image>)
      ensures recipe.None? ==> r == Err(MissingRecipe)
      ensures recipe.Some? ==> r == RunPlan(Plan(recipe.value), image, trig)
    {
      if recipe.None? {
        return Err(MissingRecipe);
      }
      var recipe := this.recipe.value;
      RunPlanInParts(recipe, image, trig);
      var current := FlipBlock(image, recipe, trig);
      current :- RotateBlock(current, recipe, trig);
      current :- CropBlock(current, recipe, trig);
      current :- ResizeBlock(current, recipe, trig);
      r := Ok(current);
    }

    /** `full_process`: pre, process, post. */
    method FullProcess(image: Image, trig: Trig) returns (r: Result<Image>)
      ensures recipe.None? ==> r == Err(MissingRecipe)
      ensures recipe.Some? ==> r == RunPlan(Plan(recipe.value), image, trig)
    {
      var pre := Pre(image);
      var processed :- Process(pre, trig);
      var post := Post(processed);
      r := Ok(post);
    }

    /** `DefaultEngine.save`: name the file by type, pass the quality for JPEG only, fix the mode. */
    method Save(image: Image) returns (r: Result<SavedFile>)
      ensures recipe.None? ==> r == Err(MissingRecipe)
      ensures recipe.Some? ==> r == Ok(SavedOf(image, recipe.value))
    {
      if recipe.None? {
        return Err(MissingRecipe);
      }
      var fileType := recipe.value.fileType;
      var name := "." + (if fileType in FileTypeExtensions then FileTypeExtensions[fileType] else fileType);
      var saveOptions: map<string, nat> := map[];
      if fileType == "jpeg" && Truthy(recipe.value.quality) {
        saveOptions := saveOptions["quality" := recipe.value.quality.value];
      }
      var saved := image;
      if recipe.value.fileType == "jpeg" {
        if saved.mode != "RGB" && saved.mode != "RGBA" {
          saved := Convert(saved, "RGB");
        }
      }
      r := Ok(SavedFile(name, fileType, saveOptions, saved));
    }

    /** `__call__`: remember the recipe, process the image, save it. */
    method Call(image: Image, recipe: Option<Recipe>, trig: Trig) returns (r: Result<SavedFile>)
      modifies this
      ensures this.recipe == recipe
      ensures r == Generate(image, recipe, trig)
    {
      this.recipe := recipe;
      var processed :- FullProcess(image, trig);
      r := Save(processed);
    }
  }

  /** The engine callable: a fresh engine per call. */
  method DefaultEngineCallable(image: Image, recipe: Option<Recipe>, trig: Trig) returns (r: Result<SavedFile>)
    ensures r == Generate(image, recipe, trig)
  {
    var engine := new DefaultEngine(None);
    r := engine.Call(image, recipe, trig);
  }
}
