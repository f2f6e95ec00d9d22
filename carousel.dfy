/**
 * The two-image carousel shown on the recipe result screen, on every feed
 * card and on the post detail screen. The image list always holds two URLs;
 * the arrows move the index by one and do nothing at either end.
 */
module Carousel {

  class ImageCarousel {
    const images: seq<string>
    var currentImageIndex: int

    predicate Valid()
      reads this
    {
      |images| == 2 && 0 <= currentImageIndex < |images|
    }

    /** The URL on screen: `images[currentImageIndex]`. */
    function Current(): (url: string)
      reads this
      requires Valid()
      ensures url in images
      ensures url == images[currentImageIndex]
    {
      images[currentImageIndex]
    }

    constructor (first: string, second: string)
      ensures Valid()
      ensures images == [first, second] && currentImageIndex == 0
    {
      images := [first, second];
      currentImageIndex := 0;
    }

    /** The left arrow. */
    method Previous()
      requires Valid()
      modifies this
      ensures Valid()
      ensures currentImageIndex == Press(old(currentImageIndex), |images|, false)
      ensures old(currentImageIndex) == 0 ==> currentImageIndex == 0
      ensures Current() == images[0]
    {
      if currentImageIndex > 0 {
        currentImageIndex := currentImageIndex - 1;
      }
    }

    /** The right arrow. */
    method Next()
      requires Valid()
      modifies this
      ensures Valid()
      ensures currentImageIndex == Press(old(currentImageIndex), |images|, true)
      ensures old(currentImageIndex) == |images| - 1 ==> currentImageIndex == |images| - 1
      ensures Current() == images[1]
    {
      if currentImageIndex < |images| - 1 {
        currentImageIndex := currentImageIndex + 1;
      }
    }
  }

  /** The index after a press on either arrow, as a function of the index before it. */
  function Press(index: int, size: int, right: bool): (next: int) {
    if right then (if index < size - 1 then index + 1 else index)
    else (if index > 0 then index - 1 else index)
  }

  /** Any sequence of presses, starting from the first image. */
  function Presses(size: int, rights: seq<bool>): (index: int)
    decreases |rights|
  {
    if rights == [] then 0
    else Press(Presses(size, rights[..|rights| - 1]), size, rights[|rights| - 1])
  }

  /** Whatever the presses, the index stays a valid index into the image list. */
  lemma {:induction false} PressesStayInBounds(size: int, rights: seq<bool>)
    requires size >= 1
    ensures 0 <= Presses(size, rights) < size
    decreases |rights|
  {
    if rights != [] {
      PressesStayInBounds(size, rights[..|rights| - 1]);
    }
  }
}
