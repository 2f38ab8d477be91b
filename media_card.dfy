/** The media card: the rating badge (label and colour), the type icon and the thumbnail. */
module MediaCard {
  import opened Common

  /** The badge thresholds on the average rating, lowest first. */
  const RatingThresholds: seq<real> := [2.5, 3.5, 4.5]

  /** The badge labels, lowest tier first. */
  const RatingLabels: seq<string> := ["Junk Food", "Decent", "Thought-Provoking", "Mind-Expanding"]

  /** The Tailwind classes of the badge, lowest tier first: red, yellow, blue, green. */
  const RatingColors: seq<string> := [
    "bg-red-100 text-red-600", "bg-yellow-100 text-yellow-600",
    "bg-blue-100 text-blue-600", "bg-green-100 text-green-600"]

  function RatingColor(rating: real): (c: string)
    ensures c in RatingColors
  {
    if rating >= 4.5 then "bg-green-100 text-green-600"
    else if rating >= 3.5 then "bg-blue-100 text-blue-600"
    else if rating >= 2.5 then "bg-yellow-100 text-yellow-600"
    else "bg-red-100 text-red-600"
  }

  function RatingLabel(rating: real): (l: string)
    ensures l in RatingLabels
  {
    if rating >= 4.5 then "Mind-Expanding"
    else if rating >= 3.5 then "Thought-Provoking"
    else if rating >= 2.5 then "Decent"
    else "Junk Food"
  }

  /** The badge tier of a rating is the number of thresholds it reaches. */
  lemma RatingTier(rating: real)
    ensures RatingLabel(rating) == RatingLabels[Reached(rating, RatingThresholds)]
    ensures RatingColor(rating) == RatingColors[Reached(rating, RatingThresholds)]
  {
    var ts := RatingThresholds;
    assert ts[1..] == [3.5, 4.5];
    assert ts[1..][1..] == [4.5];
    assert ts[1..][1..][1..] == [];
  }

  /** Colour and label always correspond. */
  lemma ColorMatchesLabel(rating: real)
    ensures forall k :: 0 <= k < |RatingLabels| ==>
      (RatingLabel(rating) == RatingLabels[k] <==> RatingColor(rating) == RatingColors[k])
  {
    RatingTier(rating);
  }

  /** A higher average never gets a lower label. */
  lemma LabelMonotone(r1: real, r2: real)
    requires r1 <= r2
    ensures forall i, j ::
      (0 <= i < |RatingLabels| && 0 <= j < |RatingLabels|
       && RatingLabel(r1) == RatingLabels[i] && RatingLabel(r2) == RatingLabels[j]) ==> i <= j
  {
    RatingTier(r1);
    RatingTier(r2);
    ReachedMonotone(r1, r2, RatingThresholds);
  }

  /** The average the card shows: a missing (or zero) average is shown as 0. */
  function ShownRating(avgRating: Option<real>): real {
    avgRating.GetOr(0.0)
  }

  /** An item without an average is shown as "Junk Food" on red. */
  lemma MissingRatingIsJunkFood()
    ensures RatingLabel(ShownRating(None)) == "Junk Food"
    ensures RatingColor(ShownRating(None)) == "bg-red-100 text-red-600"
  {
  }

  /** The lucide icons the card draws. */
  datatype TypeIcon = BookOpen | GraduationCap | Headphones | Film | Users | Gamepad2

  const MediaTypes: seq<string> := ["book", "course", "podcast", "movie", "debate", "game"]

  function TypeIconFor(mediaType: string): (icon: TypeIcon)
    ensures mediaType !in MediaTypes ==> icon == BookOpen
  {
    match mediaType
    case "book" => BookOpen
    case "course" => GraduationCap
    case "podcast" => Headphones
    case "movie" => Film
    case "debate" => Users
    case "game" => Gamepad2
    case _ => BookOpen
  }

  /** Each of the six types has its own icon, and every other type shares the book's. */
  lemma TypeIconsDistinct(t1: string, t2: string)
    requires t1 in MediaTypes && t2 in MediaTypes && t1 != t2
    ensures TypeIconFor(t1) != TypeIconFor(t2)
  {
  }

  lemma UnknownTypeLooksLikeBook(t: string)
    requires t !in MediaTypes
    ensures TypeIconFor(t) == TypeIconFor("book")
  {
  }

  /** What the card's thumbnail box shows. */
  datatype Thumbnail = Image(url: string) | Icon(icon: TypeIcon)

  /** The thumbnail: the image when the item has a non-empty URL, the type's icon otherwise. */
  function ThumbnailFor(imageUrl: Option<string>, mediaType: string): (t: Thumbnail)
    ensures t.Image? <==> imageUrl.Some? && imageUrl.value != ""
    ensures t.Image? ==> t.url == imageUrl.value
    ensures t.Icon? ==> t.icon == TypeIconFor(mediaType)
  {
    match imageUrl
    case Some(u) => if u != "" then Image(u) else Icon(TypeIconFor(mediaType))
    case None => Icon(TypeIconFor(mediaType))
  }
}
