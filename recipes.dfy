/**
 * `MultiresRecipe`: the stored description of how to derive one image from a source,
 * the mapping its `rotate_color` field applies to each component, and its string form.
 */
module Recipes {
  import opened Results

  /**
   * One recipe row. Optional integers are `None` when the column is null; the two list
   * columns are empty when blank.
   */
  datatype Recipe = Recipe(
    title: string,
    description: string,
    namespace: string,
    automatic: bool,
    adHoc: bool,
    flip: string,
    rotate: Option<int>,
    rotateCrop: string,
    rotateColor: seq<int>,
    crop: seq<int>,
    width: Option<nat>,
    height: Option<nat>,
    upscale: bool,
    fit: string,
    fileType: string,
    quality: Option<nat>)

  /** A new recipe with every column at its default. */
  const DefaultRecipe := Recipe("", "", "", true, false, "", None, "", [], [], None, None, false, "fit", "jpeg", None)

  /** Python truthiness of an optional integer: `None` and `0` are both false. */
  predicate TruthyInt(o: Option<int>) {
    o.Some? && o.value != 0
  }

  // ------------------------------------------------------------------
  // rotate_color: each component mapped by min(255, max(0, int(v)))
  // ------------------------------------------------------------------

  /** One colour component clamped into the byte range. */
  function ClampComponent(v: int): (r: int)
    ensures 0 <= r <= 255
    ensures 0 <= v <= 255 ==> r == v
    ensures v < 0 ==> r == 0
    ensures v > 255 ==> r == 255
  {
    var low := if v < 0 then 0 else v;
    if low > 255 then 255 else low
  }

  /** The stored colour: every parsed component clamped, in order. */
  function RotateColorValues(parsed: seq<int>): (r: seq<int>)
    ensures |r| == |parsed|
    ensures forall i :: 0 <= i < |r| ==> r[i] == ClampComponent(parsed[i])
  {
    seq(|parsed|, i requires 0 <= i < |parsed| => ClampComponent(parsed[i]))
  }

  /** Every component of a stored colour is a byte. */
  predicate IsColor(c: seq<int>) {
    forall i :: 0 <= i < |c| ==> 0 <= c[i] <= 255
  }

  /** The mapping yields a colour, leaves a colour unchanged, and so is idempotent. */
  lemma RotateColorValuesClamps(parsed: seq<int>)
    ensures IsColor(RotateColorValues(parsed))
    ensures IsColor(parsed) ==> RotateColorValues(parsed) == parsed
    ensures RotateColorValues(RotateColorValues(parsed)) == RotateColorValues(parsed)
  {
  }

  // ------------------------------------------------------------------
  // MultiresRecipe.__str__
  // ------------------------------------------------------------------

  /** `value or 'None'` for a string column. */
  function OrNone(s: string): (r: string)
    ensures |r| > 0
    ensures s == "" ==> r == "None"
    ensures s != "" ==> r == s
  {
    if s == "" then "None" else s
  }

  /** The recipe's text: `'<title> @ <namespace>'`, prefixed with `'_'` for an ad-hoc recipe. */
  function RecipeString(recipe: Recipe): (r: string)
    ensures !recipe.adHoc ==> r == OrNone(recipe.title) + " @ " + OrNone(recipe.namespace)
  {
    var suffix := OrNone(recipe.title) + " @ " + OrNone(recipe.namespace);
    if !recipe.adHoc then suffix else "_" + suffix
  }

  /** An ad-hoc recipe reads as the same recipe not ad hoc, with a leading `'_'`. */
  lemma AdHocPrefix(recipe: Recipe)
    ensures RecipeString(recipe.(adHoc := true)) == "_" + RecipeString(recipe.(adHoc := false))
    ensures RecipeString(recipe) == (if recipe.adHoc then "_" else "") + RecipeString(recipe.(adHoc := false))
  {
  }

  /** A text with an `'@'` at index `|a1|` differs from one whose first `'@'` comes later. */
  lemma AtComesFirst(a1: string, b1: string, a2: string, b2: string)
    requires '@' !in a2 && |a1| < |a2|
    ensures a1 + "@" + b1 != a2 + "@" + b2
  {
    assert (a1 + "@" + b1)[|a1|] == '@';
    assert (a2 + "@" + b2)[|a1|] == a2[|a1|];
  }

  /** Two texts that split at their first `'@'` have equal parts. */
  lemma SplitAtFirstAt(a1: string, b1: string, a2: string, b2: string)
    requires '@' !in a1 && '@' !in a2
    requires a1 + "@" + b1 == a2 + "@" + b2
    ensures a1 == a2 && b1 == b2
  {
    var s := a1 + "@" + b1;
    if |a1| < |a2| {
      AtComesFirst(a1, b1, a2, b2);
    } else if |a2| < |a1| {
      AtComesFirst(a2, b2, a1, b1);
    }
    assert a1 == s[..|a1|] == a2;
    assert b1 == s[|a1| + 1..] == b2;
  }

  /** Titles the text can be read back from: no `'@'`, and no leading `'_'`. */
  predicate PlainTitle(title: string) {
    '@' !in title && (|title| > 0 ==> title[0] != '_')
  }

  function AdHocMark(recipe: Recipe): string {
    if recipe.adHoc then "_" else ""
  }

  /** The text cut at its `'@'`: the marked title and a space, then a space and the namespace. */
  lemma RecipeStringSplits(recipe: Recipe)
    requires PlainTitle(recipe.title)
    ensures RecipeString(recipe)
         == (AdHocMark(recipe) + OrNone(recipe.title) + " ") + "@" + (" " + OrNone(recipe.namespace))
    ensures '@' !in AdHocMark(recipe) + OrNone(recipe.title) + " "
  {
    assert '@' !in OrNone(recipe.title);
  }

  /** A rendered plain title never reads as a marked one. */
  lemma UnmarkedNeverMarked(plain: string, marked: string)
    requires PlainTitle(plain)
    ensures "" + OrNone(plain) + " " != "_" + OrNone(marked) + " "
  {
    assert ("_" + OrNone(marked) + " ")[0] == '_';
    assert ("" + OrNone(plain) + " ")[0] == OrNone(plain)[0];
  }

  /** The marked title determines the mark, since a plain title never starts with `'_'`. */
  lemma MarkedTitleDecodes(a: Recipe, b: Recipe)
    requires PlainTitle(a.title) && PlainTitle(b.title)
    requires AdHocMark(a) + OrNone(a.title) + " " == AdHocMark(b) + OrNone(b.title) + " "
    ensures a.adHoc == b.adHoc && OrNone(a.title) == OrNone(b.title)
  {
    var ma, mb := AdHocMark(a) + OrNone(a.title) + " ", AdHocMark(b) + OrNone(b.title) + " ";
    if !a.adHoc && b.adHoc {
      UnmarkedNeverMarked(a.title, b.title);
    } else if a.adHoc && !b.adHoc {
      UnmarkedNeverMarked(b.title, a.title);
    }
    var k := |AdHocMark(a)|;
    assert OrNone(a.title) == ma[k..|ma| - 1] == mb[k..|mb| - 1] == OrNone(b.title);
  }

  /**
   * For titles of that kind, the text determines the ad-hoc flag, the rendered title and
   * the rendered namespace: two recipes with the same text agree on all three.
   * (A title starting with `'_'` would make `'_x @ n'` stand for two recipes.)
   */
  lemma RecipeStringDecodes(a: Recipe, b: Recipe)
    requires PlainTitle(a.title) && PlainTitle(b.title)
    requires RecipeString(a) == RecipeString(b)
    ensures a.adHoc == b.adHoc
    ensures OrNone(a.title) == OrNone(b.title) && OrNone(a.namespace) == OrNone(b.namespace)
  {
    RecipeStringSplits(a);
    RecipeStringSplits(b);
    var na, nb := " " + OrNone(a.namespace), " " + OrNone(b.namespace);
    SplitAtFirstAt(AdHocMark(a) + OrNone(a.title) + " ", na, AdHocMark(b) + OrNone(b.title) + " ", nb);
    MarkedTitleDecodes(a, b);
    assert OrNone(a.namespace) == na[1..] == nb[1..] == OrNone(b.namespace);
  }
}
