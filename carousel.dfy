/**
 * The image carousel of the auction page: the normalised image list, the
 * wrap-around index arithmetic of the arrow buttons, the dots, and what
 * is rendered for zero, one or several images.
 */
module Carousel {
  import opened Wrappers

  /** The list shown: the `images` property when it is a non-empty array
      (`None` stands for a value that is not an array), otherwise nothing. */
  function ImageList(images: Option<seq<string>>): (r: seq<string>)
    ensures r == [] || (images.Some? && r == images.value)
    ensures |r| > 0 <==> images.Some? && |images.value| > 0
  {
    if images.Some? && |images.value| > 0 then images.value else []
  }

  /** The index after the right arrow: the last image wraps to the first. */
  function NextIndex(i: int, len: int): (r: int)
    requires 0 <= i < len
    ensures 0 <= r < len
    ensures r == (i + 1) % len
  {
    if i == len - 1 then 0 else i + 1
  }

  /** The index after the left arrow: the first image wraps to the last. */
  function PrevIndex(i: int, len: int): (r: int)
    requires 0 <= i < len
    ensures 0 <= r < len
    ensures r == (i - 1 + len) % len
  {
    if i == 0 then len - 1 else i - 1
  }

  /** The two arrows undo each other. */
  lemma ArrowsAreInverse(i: int, len: int)
    requires 0 <= i < len
    ensures PrevIndex(NextIndex(i, len), len) == i
    ensures NextIndex(PrevIndex(i, len), len) == i
  {
  }

  /** What the component renders. */
  datatype View =
    | Placeholder
    | SingleImage(src: string)
    | Gallery(src: string, index: int, dots: nat)

  function Render(list: seq<string>, index: int): (v: View)
    requires |list| >= 2 ==> 0 <= index < |list|
    ensures |list| == 0 <==> v.Placeholder?
    ensures |list| == 1 <==> v.SingleImage?
    ensures v.SingleImage? ==> v.src == list[0]
    ensures v.Gallery? ==> v.src == list[index] && v.dots == |list| && v.index == index
  {
    if |list| == 0 then Placeholder
    else if |list| == 1 then SingleImage(list[0])
    else Gallery(list[index], index, |list|)
  }

  /** A click on the gallery's controls. Dots exist for the indices of the list only. */
  datatype Click = NextClick | PrevClick | DotClick(index: int)

  function ApplyClick(i: int, len: int, c: Click): (r: int)
    requires 0 <= i < len
    requires c.DotClick? ==> 0 <= c.index < len
    ensures 0 <= r < len
  {
    match c
    case NextClick => NextIndex(i, len)
    case PrevClick => PrevIndex(i, len)
    case DotClick(k) => k
  }

  predicate DotsInRange(clicks: seq<Click>, len: int) {
    forall k :: 0 <= k < |clicks| ==> (clicks[k].DotClick? ==> 0 <= clicks[k].index < len)
  }

  function Navigate(i: int, len: int, clicks: seq<Click>): int
    requires 0 <= i < len
    requires DotsInRange(clicks, len)
    decreases |clicks|
  {
    if clicks == [] then i
    else Navigate(ApplyClick(i, len, clicks[0]), len, clicks[1..])
  }

  /** From any valid index, any sequence of clicks leaves the index inside the list. */
  lemma {:induction false} NavigateInRange(i: int, len: int, clicks: seq<Click>)
    requires 0 <= i < len
    requires DotsInRange(clicks, len)
    ensures 0 <= Navigate(i, len, clicks) < len
    decreases |clicks|
  {
    if clicks != [] {
      NavigateInRange(ApplyClick(i, len, clicks[0]), len, clicks[1..]);
    }
  }

  /** The component's state: the list is fixed for its lifetime, the index is overwritten by the controls. */
  class ImageCarousel {
    const imageList: seq<string>
    var currentIndex: int

    ghost predicate Valid()
      reads this
    {
      0 <= currentIndex && (currentIndex < |imageList| || currentIndex == 0)
    }

    constructor (images: Option<seq<string>>)
      ensures imageList == ImageList(images) && currentIndex == 0 && Valid()
    {
      imageList := ImageList(images);
      currentIndex := 0;
    }

    /** What is on screen: the image at the current index, with navigation only for two or more images. */
    function View(): (v: View)
      reads this
      requires Valid()
      ensures v.Placeholder? <==> |imageList| == 0
      ensures !v.Placeholder? ==> v.src == imageList[currentIndex]
      ensures v.Gallery? <==> |imageList| >= 2
      ensures v.Gallery? ==> v.dots == |imageList| && v.index == currentIndex
    {
      Render(imageList, currentIndex)
    }

    /** The right arrow, present only with two or more images. */
    method NextImage()
      requires Valid() && |imageList| >= 2
      modifies this
      ensures Valid()
      ensures currentIndex == NextIndex(old(currentIndex), |imageList|)
    {
      currentIndex := if currentIndex == |imageList| - 1 then 0 else currentIndex + 1;
    }

    /** The left arrow, present only with two or more images. */
    method PrevImage()
      requires Valid() && |imageList| >= 2
      modifies this
      ensures Valid()
      ensures currentIndex == PrevIndex(old(currentIndex), |imageList|)
    {
      currentIndex := if currentIndex == 0 then |imageList| - 1 else currentIndex - 1;
    }

    /** A dot, one per image. */
    method SelectDot(idx: int)
      requires Valid() && |imageList| >= 2 && 0 <= idx < |imageList|
      modifies this
      ensures Valid()
      ensures currentIndex == idx
    {
      currentIndex := idx;
    }
  }
}
