/** The listing card of the search results: main image, a summary of the
    amenities and the rating badge. */
module ListingCard {

  import opened Common

  const CARD_PLACEHOLDER: string := "/placeholder.svg?height=250&width=400&text=Property+Image"

  /** How many amenity badges the card shows at most. */
  const SHOWN_AMENITIES: nat := 3

  /** `listing.images?.[0] || placeholder` */
  function MainImage(images: Option<seq<string>>): (src: string)
    ensures src != ""
    ensures images.Some? && |images.value| > 0 && images.value[0] != "" ==> src == images.value[0]
    ensures images.None? || |images.value| == 0 || images.value[0] == "" ==> src == CARD_PLACEHOLDER
  {
    if images.Some? && |images.value| > 0 && images.value[0] != "" then images.value[0] else CARD_PLACEHOLDER
  }

  /** The amenity badges: the names shown, and the count on the "+N more" badge if there is one. */
  datatype AmenityBadges = AmenityBadges(shown: seq<string>, more: Option<nat>)

  function Min(a: nat, b: nat): nat {
    if a <= b then a else b
  }

  /** `amenities.slice(0, 3)` and `+{amenities.length - 3} more`. The section
      is there exactly for a non-empty list; it shows the first three names
      in order (all of them when there are fewer), the "+N more" badge appears
      exactly when there are more than three, and the names shown plus N
      account for every amenity. */
  function AmenitySummary(amenities: Option<seq<string>>): (r: Option<AmenityBadges>)
    ensures r.None? <==> amenities.None? || amenities.value == []
    ensures r.Some? ==>
              && |r.value.shown| == Min(|amenities.value|, SHOWN_AMENITIES) && r.value.shown <= amenities.value
              && (r.value.more.Some? <==> |amenities.value| > SHOWN_AMENITIES)
              && |r.value.shown| + r.value.more.GetOr(0) == |amenities.value|
              && (r.value.more.None? ==> r.value.shown == amenities.value)
  {
    if amenities.None? || |amenities.value| == 0 then None
    else
      var all := amenities.value;
      Some(AmenityBadges(all[..Min(|all|, SHOWN_AMENITIES)],
                         if |all| > SHOWN_AMENITIES then Some(|all| - SHOWN_AMENITIES) else None))
  }

  /** What a guard `value && (<element />)` puts on the card: nothing for a
      missing value, the text "0" for a zero number (React renders a falsy
      number as text), and the element otherwise. */
  datatype Rendered = Nothing | ZeroText | Element

  /** `listing.rating && (...)`: the rating badge over the image. */
  function RatingBadge(rating: Option<real>): (r: Rendered)
    ensures r == Nothing <==> rating.None?
    ensures r == ZeroText <==> rating == Some(0.0)
    ensures r == Element <==> rating.Some? && rating.value != 0.0
  {
    match rating
    case None => Nothing
    case Some(x) => if x == 0.0 then ZeroText else Element
  }

  /** `listing.rating && listing.reviewCount && (...)`: the rating line in the
      footer. It is shown only when the badge is, and a zero rating or a zero
      review count leaves a stray "0" in its place. */
  function RatingLine(rating: Option<real>, reviewCount: Option<int>): (r: Rendered)
    ensures r == Element <==> RatingBadge(rating) == Element && reviewCount.Some? && reviewCount.value != 0
    ensures r == ZeroText <==> rating == Some(0.0) || (RatingBadge(rating) == Element && reviewCount == Some(0))
    ensures r == Nothing <==> rating.None? || (RatingBadge(rating) == Element && reviewCount.None?)
  {
    match rating
    case None => Nothing
    case Some(x) =>
      if x == 0.0 then ZeroText
      else match reviewCount
        case None => Nothing
        case Some(c) => if c == 0 then ZeroText else Element
  }
}
