/** The five-star widget: which stars are drawn filled, and the hover and click handlers. */
module StarRating {
  import opened Common

  /** The value the stars show: the hovered star while hovering, the rating otherwise. */
  function Effective(hoverRating: int, rating: real): real {
    if hoverRating != 0 then hoverRating as real else rating
  }

  /** A star is filled when its number does not exceed the shown value. */
  predicate IsFilled(star: int, hoverRating: int, rating: real) {
    star as real <= Effective(hoverRating, rating)
  }

  /** How many of the five stars are filled: the floor of the shown value, clamped to [0, 5]. */
  function FilledCount(shown: real): (n: int)
    ensures 0 <= n <= 5
  {
    if shown.Floor < 0 then 0 else if shown.Floor > 5 then 5 else shown.Floor
  }

  /** The filled stars are a prefix of 1..5 whose length is `FilledCount`. */
  lemma FilledIsPrefix(hoverRating: int, rating: real)
    ensures forall star :: 1 <= star <= 5 ==>
      (IsFilled(star, hoverRating, rating) <==> star <= FilledCount(Effective(hoverRating, rating)))
  {
    var e := Effective(hoverRating, rating);
    forall star | 1 <= star <= 5
      ensures IsFilled(star, hoverRating, rating) <==> star <= FilledCount(e)
    {
      assert e.Floor as real <= e < e.Floor as real + 1.0;
    }
  }

  /** One rendered widget. `rating`, `readonly` and whether `onRate` was passed are its props;
      `hoverRating` is its state. */
  class StarRatingWidget {
    const rating: real
    const readonly: bool
    const hasOnRate: bool
    var hoverRating: int

    /** The hover state is 0 or one of the five stars. */
    ghost predicate Valid()
      reads this
    {
      0 <= hoverRating <= 5
    }

    constructor (rating: real, readonly: bool, hasOnRate: bool)
      ensures Valid()
      ensures this.rating == rating && this.readonly == readonly && this.hasOnRate == hasOnRate
      ensures hoverRating == 0
    {
      this.rating := rating;
      this.readonly := readonly;
      this.hasOnRate := hasOnRate;
      hoverRating := 0;
    }

    /** Whether `star` is drawn filled in the current state. */
    predicate Filled(star: int)
      reads this
    {
      IsFilled(star, hoverRating, rating)
    }

    /** `handleMouseEnter(star)`: an editable widget previews `star`. */
    method MouseEnter(star: int)
      requires Valid() && 1 <= star <= 5
      modifies this`hoverRating
      ensures Valid()
      ensures hoverRating == if readonly then old(hoverRating) else star
      ensures !readonly ==> forall k :: 1 <= k <= 5 ==> (Filled(k) <==> k <= star)
    {
      if !readonly {
        hoverRating := star;
      }
    }

    /** `handleMouseLeave()`: an editable widget goes back to showing its rating. */
    method MouseLeave()
      requires Valid()
      modifies this`hoverRating
      ensures Valid()
      ensures hoverRating == if readonly then old(hoverRating) else 0
      ensures !readonly ==> forall k :: Filled(k) <==> k as real <= rating
    {
      if !readonly {
        hoverRating := 0;
      }
    }

    /** `handleClick(star)`: the rating passed to `onRate`, if it is called. Clicking changes no state. */
    method Click(star: int) returns (rated: Option<int>)
      requires Valid() && 1 <= star <= 5
      ensures rated.Some? <==> !readonly && hasOnRate
      ensures rated.Some? ==> rated.value == star && 1 <= rated.value <= 5
    {
      if !readonly && hasOnRate {
        rated := Some(star);
      } else {
        rated := None;
      }
    }
  }
}
