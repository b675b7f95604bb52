# django-multires: processors, engine and models in Dafny

django-multires derives processed copies of a source image from a stored recipe. A recipe
can ask for a flip, a rotation (optionally cropped to avoid the empty corners), an edge
crop, a resize into a bounding box and a file type. This project models the three modules
that do that work and proves properties of the model:

- **The image processors** (`multires/processors.py`): anchor crop, edge crop, flip,
  resize, rotate and rotate-crop.
  - Each processor is a function from an image and its options to the result, or to the
    error the Python code raises.
  - Each is also a class whose `Prep` stores the options and the input size, as
    `BaseProcessor.prep` does. The class's `Call` runs prep, pre, process and post, and
    is proved equal to that function.
- **The default engine** (`multires/engines.py`):
  - `Plan` is the sequence of processor calls a recipe makes, and `RunPlan` gives its
    meaning.
  - `DefaultEngine.Process` is the imperative method, proved to compute `RunPlan`.
  - `SavedOf` describes the file `save` produces.
- **The models** (`multires/models.py`):
  - For `MultiresRecipe`: the `rotate_color` clamp and `__str__`.
  - For `MultiresImage`: `process`, with its guard and state update, and `__str__`.

An image is abstract. It is its size, its colour mode, and the list of imaging-library
calls that produced it (module `Images`). The library's pixel work is not modelled.
Arithmetic is over exact rationals:

- Python's `int()` on a float is truncation toward zero (`Numerics.Trunc`).
- `math.ceil` is `Numerics.Ceil`.

Two things come in as parameters rather than being computed:

- The trigonometry the rotate-crop processor and the library's expanded rotation compute
  in floating point. These are the functions of an `Images.Trig` value.
- The decoded source image: opening the source file is not modelled.

Python truthiness is explicit:

- `Results.Truthy` and `Recipes.TruthyInt` hold for an optional number that is present
  and not zero.
- A list-valued option is an empty sequence when it is `None`.

Errors the code raises are constructors of `Results.Error`, carried by `Results.Result`.

Files: `results.dfy`, `numerics.dfy`, `images.dfy`, `processors.dfy`, `recipes.dfy`,
`engines.dfy`, `multires_images.dfy`.

## Model

| member | source | states |
|---|---|---|
| Numerics.Trunc | multires/processors.py:126-130 | `int()` of a float truncates toward zero: the result is within one of the argument, on the side of zero |
| Numerics.Ceil | multires/processors.py:316 | `math.ceil` is the least integer not below its argument |
| Numerics.Max | multires/processors.py:299 | `max` of two floats is one of them and at least both |
| Images.Transpose | multires/processors.py:229 | a transposition keeps the mode and records itself; quarter turns swap the sides, flips and half turns keep them |
| Images.Crop | multires/processors.py:203 | the library's crop succeeds exactly when the box is not inverted, with the box's size and the image's mode, and records the box |
| Images.Resize | multires/processors.py:320 | a resize gives exactly the requested size, keeping the mode and recording the size |
| Images.Rotate | multires/processors.py:384-386 | a rotation keeps the mode and records itself; it keeps the size, or takes the expanded canvas when `expand` is set |
| Images.Convert | multires/processors.py:371 | a conversion keeps the size, sets the mode and records itself |
| Images.CompositeOnColor | multires/processors.py:375-378 | the composite has the rotated image's size and mode RGBA, and records its background |
| Processors.AnchorCropBox | multires/processors.py:89-149 | succeeds exactly for the supported anchors, otherwise the unsupported-anchor error; the box has exactly the requested size clamped to the image; top/left anchors start at 0, right/bottom anchors end at the image's edge, and every other axis starts at the centred corner `Centered` (exact value in CenteredCorner) |
| Processors.CenteredBounds | multires/processors.py:126-130 | a centred run fits inside the extent and leaves 0 to 2 more pixels after it than before it |
| Processors.CenteredCorner | multires/processors.py:124-130 | the double truncation `int(int(extent * 0.5) - length * 0.5)` is half the extent rounded down less half the length rounded up, or 0 when that is negative |
| Processors.CenterCropExample | multires/processors.py:121-130 | a 3x3 centre crop of a 5x5 image is the box (0, 0)-(3, 3) |
| Processors.CenterAnchorsAgree | multires/processors.py:128-130 | `center`, `crop` and `fill` give the same box |
| Processors.AnchorCropBoxInside | multires/processors.py:121-149 | for a supported anchor and non-negative sizes the box lies inside the image |
| Processors.CenterAnchorMargins | multires/processors.py:126-130 | a centred box leaves 0 to 2 more pixels on the right (bottom) than on the left (top) |
| Processors.InsetsOf | multires/processors.py:172-180 | a non-empty crop box shorter than four entries is an index error; an empty one means no insets; `None` counts as 0 |
| Processors.EdgeCropBox | multires/processors.py:171-200 | the edge crop box fails with an index error exactly when the crop box is non-empty and shorter than four entries; its value is stated by EdgeCropNoInsets, PercentBoxEdges, PercentBoxExample and PixelBoxSize, its bounds by PercentSpan and PercentBoxInside |
| Processors.EdgeCropImage | multires/processors.py:202-203 | an index error in the box is passed on; a successful edge crop has the box's size and the image's mode and cuts out that box; EdgeCropInsideSucceeds states when it succeeds |
| Processors.EdgeCropNoInsets | multires/processors.py:171-200 | no crop box, or all-zero insets, gives the whole image's box in both modes |
| Processors.PercentSpan | multires/processors.py:183-189 | non-negative percentages adding up to at most 100 give a truncated span in order within the extent |
| Processors.PercentBoxInside | multires/processors.py:183-198 | percent insets of that kind on both axes give a box inside the image |
| Processors.PercentBoxEdges | multires/processors.py:183-189 | in percent mode each inset comes off its own edge: the left and top edges are the truncated left and top percentages of the width and height, the right and bottom edges the truncated remainders after the right and bottom percentages |
| Processors.PercentBoxExample | multires/processors.py:183-198 | 10, 20, 30 and 40 percent off a 200x100 image keep the box from (20, 20) to (140, 60) |
| Processors.PixelBoxSize | multires/processors.py:190-198 | whole-pixel insets that fit give the box that keeps exactly the remaining pixels |
| Processors.EdgeCropInsideSucceeds | multires/processors.py:202-203 | a crop box inside the image is cut out successfully at its own size |
| Processors.FlipMethod | multires/processors.py:224-228 | `x` and `h` choose the left-right flip, every other value the top-bottom flip |
| Processors.FlipImage | multires/processors.py:222-229 | a flip keeps the size and the mode; FlipKeepsGeometry states which transposition is appended |
| Processors.FlipKeepsGeometry | multires/processors.py:222-229 | an empty `flip` is exactly the identity; any other value appends one flip, left-right exactly for `x` and `h` and top-bottom for every other value; size and mode are kept |
| Processors.Enlarge | multires/processors.py:289-295 | growing divides by the aspect ratio only when the width is below the box, so a zero ratio fails exactly then; sides stay non-negative |
| Processors.Fit | multires/processors.py:298-303 | fitting keeps sides non-negative |
| Processors.Shrunk | multires/processors.py:299 | a side re-derived while fitting is at least 1 |
| Processors.ScaledSize | multires/processors.py:284-286 | an input of height 0 is a division-by-zero error |
| Processors.EnlargeGrows | multires/processors.py:289-295 | enlarging a size of the input's aspect ratio succeeds, keeps the ratio and never shrinks a side |
| Processors.EnlargeReaches | multires/processors.py:306-312 | enlarging a size that can reach the box gives a size covering the box |
| Processors.FitBounds | multires/processors.py:298-303 | fitting a size of at least one pixel a side gives one within the box, at least one pixel a side |
| Processors.FitCanReach | multires/processors.py:298-312 | after fitting a size of the input's aspect ratio, the enlarge step can reach the box |
| Processors.FitDriftsFromRatio | multires/processors.py:298-303 | the fit step truncates the re-derived side before the other is rounded, so aspect ratio is kept only approximately: 1000x119 into a 100x10 box gives 90x10, while the exact ratio would give a width between 84 and 85 |
| Processors.ScaledSizeFitsBox | multires/processors.py:277-317 | in `fit` mode a positive input is scaled to between one pixel and the box on each side, with or without upscaling |
| Processors.ScaledSizeKeepsFittingInput | multires/processors.py:277-317 | in `fit` mode without upscaling an input that fits the box keeps its size |
| Processors.ScaledSizeOfOwnBox | multires/processors.py:277-317 | a box equal to the input leaves a positive input's size unchanged in every mode |
| Processors.ScaledSizeCoversBox | multires/processors.py:277-317 | in any other mode a positive input is scaled to cover the box on both sides |
| Processors.BoundingBox | multires/processors.py:272-275 | each side of the bounding box is the option when it is truthy and the input's side otherwise; BoundingBoxPositive states it is positive for a positive input |
| Processors.BoundingBoxPositive | multires/processors.py:272-275 | prep's bounding box is positive on both sides when the input is |
| Processors.ResizeImage | multires/processors.py:319-327 | an image of height 0 is a division-by-zero error and a successful resize keeps the mode; the lemmas below state the sizes, and ResizeCropFillsBox which part the crop keeps |
| Processors.ResizeFitsWithinBox | multires/processors.py:319-327 | a `fit` resize of a positive image succeeds within the bounding box, at least one pixel a side |
| Processors.ResizeCropFillsBox | multires/processors.py:319-327 | a supported anchor mode gives an image of exactly the bounding box: the image is resized to the scaled size and then cropped to the box anchored at the fit mode, so `top` keeps the top rows, `right` the right-hand columns, and so on |
| Processors.ResizeRejectsUnknownFit | multires/processors.py:321-325 | an unknown fit mode is the unsupported-anchor error, raised after resizing |
| Processors.ResizeZeroHeight | multires/processors.py:286 | an image of height 0 cannot be resized: division by zero |
| Processors.ResizeUnconstrainedKeepsSize | multires/processors.py:272-327 | without width and height the box is the input, and the resize keeps the input's size |
| Processors.ResizeKeepsFittingImage | multires/processors.py:277-327 | a `fit` resize without upscaling leaves a fitting image at its own size |
| Processors.QuarterTurn | multires/processors.py:366 | the library names exactly the 90, 180 and 270 degree transpositions, `ROTATE_90`, `ROTATE_180` and `ROTATE_270` respectively; any other angle is an attribute error |
| Processors.RotateByZero | multires/processors.py:363-365 | a rotation by 0 degrees returns the image itself |
| Processors.RotateQuarterTurns | multires/processors.py:356-367 | another multiple of 90 succeeds exactly for 90, 180 and 270, as the one transposition of that angle, which keeps the mode and swaps the sides unless it is 180 |
| Processors.RotatePlain | multires/processors.py:383-386 | without a colour the result is one bicubic rotation, on the expanded canvas when `extend` is set |
| Processors.RotateOnColor | multires/processors.py:369-381 | with a colour it fails exactly when transparency is preserved and the colour has no alpha; the original mode is restored unless transparency is preserved and alpha is not 255, which leaves RGBA. The image is converted to RGBA, rotated by the given angle with the given `expand`, laid over the given colour, and converted back exactly when the mode is restored |
| Processors.RotateImage | multires/processors.py:362-388 | a rotation keeps the mode, or leaves RGBA when a colour is composited; without a colour the mode is kept; it fails only for a multiple of 90 that names no transposition or a colour without alpha; RotateByZero, RotateQuarterTurns, RotatePlain and RotateOnColor state each case |
| Processors.Forced | multires/processors.py:416-419 | rotate-crop's prep forces `extend` on and drops the colour, keeping degrees and transparency |
| Processors.AspectRatioCropSize | multires/processors.py:421-437 | the aspect-ratio crop fails with a division by zero exactly when the input or the rotated canvas has height 0, or a portrait input meets a rotated canvas of width 0 |
| Processors.MaxAreaCropSize | multires/processors.py:439-445 | the max-area crop of an input with a zero side is empty |
| Processors.CropSizeFor | multires/processors.py:478-479 | only `aspect_ratio` and `max_area` name a crop-size method; any other mode is an attribute error |
| Processors.RotateCropImage | multires/processors.py:472-482 | a rotate-crop keeps the mode; RotateCropTransposes, RotateCropWithinCanvas, RotateCropMaxAreaSize and RotateCropAspectRatioSize state the sizes in both crop modes and the centring |
| Processors.RotateCropIgnoresExtendAndColor | multires/processors.py:416-419 | the caller's `extend` and `color` make no difference |
| Processors.RotateCropTransposes | multires/processors.py:472-476 | a multiple of 90 degrees gives the plain rotation, uncropped |
| Processors.RotateCropWithinCanvas | multires/processors.py:472-482 | any other angle gives a result within the expanded canvas, cut out by a crop centred on it (0 to 2 more pixels right and below than left and above); an unknown crop mode is an error |
| Processors.RotateCropMaxAreaSize | multires/processors.py:439-482 | in `max_area` mode a crop size that fits the canvas is cut out at exactly that size |
| Processors.RotateCropAspectRatioSize | multires/processors.py:421-482 | in `aspect_ratio` mode, past the division-by-zero guards, a crop size computed from the input's size and the rotated canvas that fits the canvas is cut out at exactly that size |
| Processors.CropProcessor.constructor | multires/processors.py:166-169 | a new crop processor holds the defaults |
| Processors.CropProcessor.Prep | multires/processors.py:30-40 | prep stores the options and the input size |
| Processors.Pre | multires/processors.py:42-46 | the pre hook every processor inherits returns the image unchanged |
| Processors.Post | multires/processors.py:48-52 | the post hook every processor inherits returns the image unchanged |
| Processors.CropProcessor.GetCropBox | multires/processors.py:171-200 | the in-place loop that replaces `None` by 0, then the conversion, computes the edge crop box |
| Processors.CropProcessor.Process | multires/processors.py:202-203 | crops the image to that box |
| Processors.CropProcessor.Call | multires/processors.py:57-62 | prep, pre, process and post compute one edge crop call |
| Processors.FlipProcessor.constructor | multires/processors.py:218-220 | a new flip processor holds the defaults |
| Processors.FlipProcessor.Prep | multires/processors.py:30-40 | prep stores the options and the input size |
| Processors.FlipProcessor.Process | multires/processors.py:222-229 | computes one flip |
| Processors.FlipProcessor.Call | multires/processors.py:57-62 | prep, pre, process and post compute one flip call |
| Processors.EnlargeStep | multires/processors.py:289-295 | the upscale block on two float variables computes the enlarge step, failing only on a zero ratio |
| Processors.FitStep | multires/processors.py:298-303 | the fit block on two float variables computes the fit step |
| Processors.ResizeProcessor.constructor | multires/processors.py:265-270 | a new resize processor holds the defaults |
| Processors.ResizeProcessor.BoxSize | multires/processors.py:274-275 | after prep the options hold both sides of the bounding box |
| Processors.ResizeProcessor.Prep | multires/processors.py:272-275 | prep stores the options and the input size, replacing a missing or zero side by the input's |
| Processors.ResizeProcessor.GetScaledSize | multires/processors.py:277-317 | computes the scaled size for the stored input and box |
| Processors.ResizeProcessor.Process | multires/processors.py:319-327 | resizes, then anchor-crops unless the mode is `fit` |
| Processors.ResizeProcessor.Call | multires/processors.py:57-62 | prep, pre, process and post compute one resize call; the stored options then hold the bounding box, fit and upscale as given |
| Processors.RotateStep | multires/processors.py:362-388 | the rotate `process` body computes one rotation, given the flag prep stored |
| Processors.RotateProcessor.constructor | multires/processors.py:349-354 | a new rotate processor holds the defaults |
| Processors.RotateProcessor.Prep | multires/processors.py:356-360 | prep stores the options, the input size and whether the angle is a multiple of 90 |
| Processors.RotateProcessor.Process | multires/processors.py:362-388 | computes one rotation |
| Processors.RotateProcessor.Call | multires/processors.py:57-62 | prep, pre, process and post compute one rotate call |
| Processors.RotateCropProcessor.constructor | multires/processors.py:411-414 | a new rotate-crop processor holds the defaults |
| Processors.RotateCropProcessor.Prep | multires/processors.py:416-419 | the rotate prep, then `extend` forced on and the colour dropped |
| Processors.RotateCropProcessor.GetRotatedRect | multires/processors.py:478-479 | dispatches to the crop-size method the mode names |
| Processors.RotateCropProcessor.Process | multires/processors.py:472-482 | rotates, and for a non-transposition centre-crops to the computed size |
| Processors.RotateCropProcessor.Call | multires/processors.py:57-62 | prep, pre, process and post compute one rotate-crop call; the forced options and the multiple-of-90 flag are left stored |
| Processors.CropProcessorCallable | multires/processors.py:485 | a call on a fresh instance is one edge crop |
| Processors.FlipProcessorCallable | multires/processors.py:486 | a call on a fresh instance is one flip |
| Processors.ResizeProcessorCallable | multires/processors.py:487 | a call on a fresh instance is one resize |
| Processors.RotateProcessorCallable | multires/processors.py:488 | a call on a fresh instance is one rotation |
| Processors.RotateCropProcessorCallable | multires/processors.py:489 | a call on a fresh instance is one rotate-crop |
| Recipes.ClampComponent | multires/models.py:121 | a colour component is clamped into 0..255 and unchanged when already there |
| Recipes.RotateColorValues | multires/models.py:119-121 | the stored colour clamps every component, in order |
| Recipes.RotateColorValuesClamps | multires/models.py:121 | the mapping yields a colour, leaves a colour unchanged, and is idempotent |
| Recipes.OrNone | multires/models.py:141-142 | a blank value reads as `None`, any other as itself, so the result is never blank |
| Recipes.RecipeString | multires/models.py:140-146 | a recipe that is not ad hoc reads `<title> @ <namespace>` |
| Recipes.AdHocPrefix | multires/models.py:143-146 | an ad-hoc recipe reads as the same recipe not ad hoc, with a leading `_` |
| Recipes.RecipeStringDecodes | multires/models.py:140-146 | for titles without `@` and not starting with `_`, two recipes with the same text agree on the ad-hoc flag, the title and the namespace |
| Engines.CropBoxOf | multires/engines.py:82-86 | the recipe's insets are passed on unchanged, in order |
| Engines.ResizeOptionsFor | multires/engines.py:88-95 | a missing or zero side is the current image's; fit and upscale are the recipe's |
| Engines.Plan | multires/engines.py:56-97 | at most four processor calls; PlanOrdered and PlanStages state which, PlanFlipOptions, PlanRotateOptions, PlanCropOptions and PlanResizeOptions with which arguments |
| Engines.RunStage | multires/engines.py:56-97 | a flip never fails, and every stage but a rotation keeps the mode |
| Engines.RunPlan | multires/engines.py:56-97 | the empty plan returns the image, and a successful plan without a rotation keeps the mode; RunPlanInParts and RunPlanErrors relate it to the blocks and the errors |
| Engines.PlanOrdered | multires/engines.py:56-97 | at most four processor calls, in the order flip, rotate, crop, resize |
| Engines.PlanStages | multires/engines.py:56-97 | each processor runs exactly when its recipe field is truthy; rotate-crop replaces rotate exactly when `rotate_crop` is set |
| Engines.PlanRotateOptions | multires/engines.py:63-80 | the rotation gets the recipe's non-zero degrees, its colour, an extended canvas and no preserved transparency; rotate-crop also gets the recipe's crop mode |
| Engines.PlanCropOptions | multires/engines.py:82-86 | the crop gets the recipe's insets as percentages |
| Engines.PlanFlipOptions | multires/engines.py:57-61 | the flip gets the recipe's non-empty flip value |
| Engines.PlanResizeOptions | multires/engines.py:88-95 | the resize gets the recipe's width, height, fit mode and upscale flag, and runs only when a side is truthy |
| Engines.EmptyRecipeIdentity | multires/engines.py:56-97 | a recipe that asks for nothing returns the image unchanged |
| Engines.ResizeStageFillsBox | multires/engines.py:88-95 | with a supported anchor mode the recipe's resize stage yields exactly the recipe's box, a missing or zero side taken from the current image |
| Engines.ResizeStageFitsBox | multires/engines.py:88-95 | in `fit` mode the recipe's resize stage gives a result within the recipe's box, at least one pixel a side |
| Engines.RunPlanInParts | multires/engines.py:56-97 | running the plan is running the flip, rotate, crop and resize parts in turn |
| Engines.RunStageErrors | multires/engines.py:56-97 | a processor only fails with an error of its own |
| Engines.RunPlanErrors | multires/engines.py:56-97 | a whole plan only fails with a processor's error |
| Engines.FileName | multires/engines.py:51-54 | `jpeg` is saved as `.jpg`, `png` as `.png`, any other type under its own name |
| Engines.NormalizedImage | multires/engines.py:110-113 | a JPEG is saved in RGB or RGBA, converted to RGB only when it is neither; other types are saved as they are |
| Engines.SavedOf | multires/engines.py:99-117 | the file is named by type, carries the quality exactly for a JPEG with a truthy quality, has no other save option, and holds the normalised image |
| Engines.Generate | multires/engines.py:35-39 | without a recipe the engine fails with the missing-recipe error; with one, an error of the recipe's plan is passed on, and otherwise the saved file is `SavedOf` the processed image, in the recipe's format under the name of its type |
| Engines.DefaultRecipeOnlySaves | multires/models.py:105-135 | a recipe left at its column defaults asks for no processor and saves the image as `.jpg` with no quality option |
| Engines.FlipBlock | multires/engines.py:57-61 | the flip block runs the flip part of the plan |
| Engines.RotateBlock | multires/engines.py:63-80 | the rotate block runs the rotate part of the plan |
| Engines.CropBlock | multires/engines.py:82-86 | the crop block runs the crop part of the plan |
| Engines.ResizeBlock | multires/engines.py:88-95 | the resize block runs the resize part of the plan |
| Engines.DefaultEngine.constructor | multires/engines.py:8-9 | a new engine holds the given recipe |
| Engines.DefaultEngine.Pre | multires/engines.py:11-15 | the pre hook returns the image |
| Engines.DefaultEngine.Post | multires/engines.py:17-21 | the post hook returns the image |
| Engines.DefaultEngine.Process | multires/engines.py:56-97 | runs the recipe's plan; without a recipe it fails |
| Engines.DefaultEngine.FullProcess | multires/engines.py:26-30 | pre, process and post run the recipe's plan |
| Engines.DefaultEngine.Save | multires/engines.py:99-117 | builds the saved file described by `SavedOf` |
| Engines.DefaultEngine.Call | multires/engines.py:35-39 | stores the recipe, then processes and saves the image |
| Engines.DefaultEngineCallable | multires/engines.py:41-47 | a call on a fresh engine processes and saves the image |
| MultiresImages.ProcessRefused | multires/models.py:190 | `process` refuses when the source is blank or when neither a truthy recipe key nor a recipe is present, and only then |
| MultiresImages.ProcessRefusedExactly | multires/models.py:189-191 | with the recipe loaded whenever its key is set, `process` refuses exactly when the recipe or the source is missing, and an engine it lets through never lacks a recipe |
| MultiresImages.GenerateHasRecipe | multires/models.py:194 | the engine given a recipe never fails for want of one |
| MultiresImages.Mark | multires/models.py:205 | the text starts with `+` for a processed image and `-` otherwise |
| MultiresImages.MultiresImage.constructor | multires/models.py:169-179 | a new image is not processed and has no file |
| MultiresImages.MultiresImage.Process | multires/models.py:189-197 | a refusal raises the missing-recipe-or-source error; an engine error is passed on; either way nothing changes. Otherwise the engine's file is stored and the image is marked processed |
| MultiresImages.MultiresImage.ToString | multires/models.py:199-205 | the text starts with the mark, `+` exactly when processed and `-` otherwise, and ends with the source; it is `<recipe> for <source>` after the mark exactly when the recipe key is set |

## Left out

- Pixel work of the imaging library (resampling, compositing, encoding). Images are their size, mode and call history.
- The floating-point formulas of `get_rotated_rect_aspect_ratio` and `get_rotated_rect_max_area` (multires/processors.py:425-437, 446-470), and the canvas size of an expanded rotation. They come in as `Images.Trig` functions; only their guards and the divisions by the image's and the rotated canvas's sides are modelled; a division by a trigonometric term belongs to the supplied functions.
- Processors.ScaledSize: the docstring promises that `fit` preserves the aspect ratio. The code truncates the re-derived side before rounding the other up, so the ratio is kept only approximately, and the model states only the bounds (FitDriftsFromRatio shows the drift).
- Numerics.Trunc: floating-point rounding is not modelled. Arithmetic is exact, so a float result such as `29 / 100. * 100` truncating to 28 is not reproduced.
- Processors.CropProcessor.GetCropBox: a `crop_box` given as a tuple is not modelled. Python's in-place assignment rejects such a tuple only when one of its entries is `None`; a tuple without `None` is cropped as a list would be. Crop boxes are sequences.
- Options are complete records with the processors' defaults as constants. Merging partial keyword arguments into `DEFAULTS` through `AttrDict` (multires/utils.py) is not modelled.
- `as_callable` is modelled only as the per-processor and engine methods that create a fresh instance for each call.
- Python 2's `map` returning a list is not modelled; crop boxes and sizes are tuples or records.
- The `save` argument of `MultiresImage.process` and all database persistence: `MultiresImage.Process` always behaves as if `save=False`.
- Loading a recipe from the database by its key: the model holds the loaded recipe. The exception raised when the key is unset and the relation is read is not modelled; `Valid()` rules out a set key without a recipe.
- The parsing of `MultipleValuesField` lists (commas, the four-value count) and the model fields' width limits. Parsed values are sequences of integers.
- The processed file's `width`, `height` and `size` columns (multires/models.py:180-182), which the file field fills in, and the `uuid` naming of the file.
- The library's `save` rejecting an unknown format: `SavedOf` describes what is handed to it.
- Opening the source file (multires/files.py) and the fields, views, URLs and migrations; multires/fields.py, multires/files.py, multires/views.py and multires/urls.py are not part of this model.
- The recipe docstring says flip `x` means upside-down. The code maps `x` and `h` to a left-right flip, and the model follows the code.
- `DefaultEngine.process` sets `preserve_transparency` to False again for PNG files. That update does not change the value, so the model's `RotateBlock` does it to no effect.
