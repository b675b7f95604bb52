/** Errors the modelled code raises, and a failure-compatible result type that carries them. */
module Results {

  /** One constructor per exception the core raises (or lets through from a call it makes). */
  datatype Error =
    | UnsupportedAnchor(anchor: string)    // ValueError from the anchor crop helper
    | IndexOutOfRange                      // IndexError: a crop box or colour list that is too short
    | DivisionByZero                       // ZeroDivisionError in the resize arithmetic
    | NoSuchTranspose(degrees: int)        // AttributeError: no Image.ROTATE_<degrees>
    | NoSuchCropMode(mode: string)         // AttributeError: no get_rotated_rect_<mode>
    | InvertedCropBox                      // ValueError from the imaging library's crop
    | MissingRecipe                        // AttributeError: the engine has no recipe
    | MissingRecipeOrSource                // ValueError from MultiresImage.process

  datatype Result<+T> = Ok(value: T) | Err(error: Error) {

    predicate IsFailure() {
      Err?
    }

    function PropagateFailure<U>(): Result<U>
      requires Err?
    {
      Err(error)
    }

    function Extract(): T
      requires Ok?
    {
      value
    }
  }

  datatype Option<+T> = None | Some(value: T)

  /** Python truthiness of an optional count: `None` and `0` are both false. */
  predicate Truthy(o: Option<nat>) {
    o.Some? && o.value != 0
  }

  /** Python's `o or fallback` for an optional count. */
  function OrElse(o: Option<nat>, fallback: nat): (r: nat)
    ensures Truthy(o) ==> r == o.value
    ensures !Truthy(o) ==> r == fallback
  {
    if Truthy(o) then o.value else fallback
  }
}
