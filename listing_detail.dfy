/** The listing detail view: an image carousel whose index moves modulo the
    number of images, and the host's initial. */
module ListingDetail {

  import opened Common
  import opened Text

  const GALLERY_PLACEHOLDER: string := "/placeholder.svg?height=400&width=800&text=Property+Image"
  const IMAGE_PLACEHOLDER: string := "/placeholder.svg"

  /** `listing.images || [placeholder]`: an array is truthy even when empty,
      so the placeholder replaces only a missing list, and a listing's own
      list, even an empty one, is used as it is. */
  function GalleryImages(images: Option<seq<string>>): (r: seq<string>)
    ensures images.Some? ==> r == images.value
    ensures images.None? ==> |r| == 1
    ensures r == [] <==> images == Some([])
  {
    if images.None? then [GALLERY_PLACEHOLDER] else images.value
  }

  /** `nextImage`: one step forward, wrapping from the last image to the first. */
  function Next(i: nat, n: nat): (r: nat)
    requires n > 0
    ensures r < n
  {
    (i + 1) % n
  }

  /** `prevImage`: one step back, wrapping from the first image to the last. */
  function Prev(i: nat, n: nat): (r: nat)
    requires n > 0
    ensures r < n
  {
    (i - 1 + n) % n
  }

  /** Within range, a step forward is the next index, or 0 from the last one. */
  lemma NextInRange(i: nat, n: nat)
    requires i < n
    ensures Next(i, n) == if i + 1 == n then 0 else i + 1
  {
  }

  /** Within range, a step back is the previous index, or the last from 0. */
  lemma PrevInRange(i: nat, n: nat)
    requires i < n
    ensures Prev(i, n) == if i == 0 then n - 1 else i - 1
  {
    if i > 0 {
      assert i - 1 + n == (i - 1) + n;
    }
  }

  /** Back undoes forward and forward undoes back. */
  lemma {:induction false} PrevUndoesNext(i: nat, n: nat)
    requires i < n
    ensures Prev(Next(i, n), n) == i
    ensures Next(Prev(i, n), n) == i
  {
    NextInRange(i, n);
    PrevInRange(i, n);
    PrevInRange(Next(i, n), n);
    NextInRange(Prev(i, n), n);
  }

  /** The index after `k` presses of the forward arrow. */
  function Steps(i: nat, k: nat, n: nat): (r: nat)
    requires n > 0
    decreases k
  {
    if k == 0 then i else Steps(Next(i, n), k - 1, n)
  }

  lemma {:induction false} StepsAdd(i: nat, a: nat, b: nat, n: nat)
    requires n > 0
    ensures Steps(i, a + b, n) == Steps(Steps(i, a, n), b, n)
    decreases a
  {
    if a > 0 {
      StepsAdd(Next(i, n), a - 1, b, n);
    }
  }

  /** Forward presses that do not pass the end count up one by one, and
      reaching the end wraps to 0. */
  lemma {:induction false} StepsToEnd(i: nat, k: nat, n: nat)
    requires i < n && i + k <= n
    ensures Steps(i, k, n) == if i + k == n then 0 else i + k
    decreases k
  {
    if k > 0 {
      NextInRange(i, n);
      if i + 1 < n {
        StepsToEnd(i + 1, k - 1, n);
      }
    }
  }

  /** Pressing forward once per image brings the carousel back to where it started. */
  lemma {:induction false} FullCycle(i: nat, n: nat)
    requires i < n
    ensures Steps(i, n, n) == i
  {
    StepsAdd(i, n - i, i, n);
    StepsToEnd(i, n - i, n);
    StepsToEnd(0, i, n);
  }

  /** With more than one image every arrow press moves to another image; with
      one image (or none) there is no such move. */
  lemma ArrowsMove(n: nat)
    ensures n > 1 <==> n > 0 && forall i :: 0 <= i < n ==> Next(i, n) != i && Prev(i, n) != i
  {
    if n == 1 {
      NextInRange(0, n);
    }
    forall i | 0 <= i < n && n > 1
      ensures Next(i, n) != i && Prev(i, n) != i
    {
      NextInRange(i, n);
      PrevInRange(i, n);
    }
  }

  /** The arrows and the dots appear only when there is more than one image,
      that is, exactly when every press of an arrow shows another image. */
  predicate ShowControls(images: seq<string>)
    ensures ShowControls(images) <==>
              |images| > 0 && forall i :: 0 <= i < |images| ==> Next(i, |images|) != i && Prev(i, |images|) != i
  {
    ArrowsMove(|images|);
    |images| > 1
  }

  /** The host's avatar letter: the first character of the id, upper-cased
      (ASCII letters only), or nothing for an empty id. */
  function HostInitial(hostId: string): (r: string)
    ensures |r| == if hostId == "" then 0 else 1
    ensures r != "" ==> !('a' <= r[0] <= 'z') && ToLowerChar(r[0]) == ToLowerChar(hostId[0])
  {
    if hostId == "" then "" else [ToUpperChar(hostId[0])]
  }

  class Gallery {
    const images: seq<string>
    var currentImageIndex: nat

    /** The index names an image whenever there is one. */
    ghost predicate Valid()
      reads this
    {
      currentImageIndex == 0 || currentImageIndex < |images|
    }

    constructor (listingImages: Option<seq<string>>)
      ensures Valid() && images == GalleryImages(listingImages) && currentImageIndex == 0
    {
      images := GalleryImages(listingImages);
      currentImageIndex := 0;
    }

    /** The source of the large image: the current image, or the plain
        placeholder when it is missing or empty. */
    function CurrentSrc(): (src: string)
      reads this
      ensures src != ""
      ensures currentImageIndex < |images| && images[currentImageIndex] != "" ==> src == images[currentImageIndex]
      ensures currentImageIndex >= |images| || images[currentImageIndex] == "" ==> src == IMAGE_PLACEHOLDER
    {
      if currentImageIndex < |images| && images[currentImageIndex] != "" then images[currentImageIndex]
      else IMAGE_PLACEHOLDER
    }

    /** The right arrow. */
    method NextImage()
      requires Valid() && ShowControls(images)
      modifies this
      ensures Valid() && currentImageIndex == Next(old(currentImageIndex), |images|)
    {
      currentImageIndex := (currentImageIndex + 1) % |images|;
    }

    /** The left arrow. */
    method PrevImage()
      requires Valid() && ShowControls(images)
      modifies this
      ensures Valid() && currentImageIndex == Prev(old(currentImageIndex), |images|)
    {
      currentImageIndex := (currentImageIndex - 1 + |images|) % |images|;
    }

    /** The dot of image `k`. */
    method SelectImage(k: nat)
      requires Valid() && ShowControls(images) && k < |images|
      modifies this
      ensures Valid() && currentImageIndex == k
    {
      currentImageIndex := k;
    }
  }
}
