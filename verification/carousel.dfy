/** The image carousel shared by the two capstone pages: the index of the
    image on show moves forward or back by one and wraps around at both
    ends of a fixed list. */
module Carousel {

  import JsNumber

  /** One button press. */
  datatype Click = Next | Prev

  /** `(prev + 1) % count`, JavaScript's `%` truncating toward zero. */
  function NextImage(prev: int, count: nat): (r: int)
    requires count > 0
    ensures 0 <= prev < count ==> 0 <= r < count
    ensures 0 <= prev < count - 1 ==> r == prev + 1
    ensures prev == count - 1 ==> r == 0
  {
    JsNumber.TruncRem(prev + 1, count)
  }

  /** `(prev - 1 + count) % count`. */
  function PrevImage(prev: int, count: nat): (r: int)
    requires count > 0
    ensures 0 <= prev < count ==> 0 <= r < count
    ensures 0 < prev < count ==> r == prev - 1
    ensures prev == 0 ==> r == count - 1
  {
    JsNumber.TruncRem(prev - 1 + count, count)
  }

  /** The counter shown under the image, `index + 1`. */
  function Counter(index: int, count: nat): (shown: int)
    requires 0 <= index < count
    ensures 1 <= shown <= count
    ensures shown - 1 == index
  {
    index + 1
  }

  /** Back after forward, and forward after back, leave the index where it was. */
  lemma NextPrevInverse(i: int, count: nat)
    requires count > 0 && 0 <= i < count
    ensures PrevImage(NextImage(i, count), count) == i
    ensures NextImage(PrevImage(i, count), count) == i
  {
  }

  /** `k` presses of the forward button. */
  function NextTimes(i: int, k: nat, count: nat): int
    requires count > 0
  {
    if k == 0 then i else NextImage(NextTimes(i, k - 1, count), count)
  }

  /** Up to a full round, `k` forward presses advance the index by `k`,
      wrapping once past the end of the list. */
  lemma {:induction false} NextTimesAdvances(i: int, k: nat, count: nat)
    requires count > 0 && 0 <= i < count && k <= count
    ensures NextTimes(i, k, count) == if i + k < count then i + k else i + k - count
  {
    if k > 0 {
      NextTimesAdvances(i, k - 1, count);
    }
  }

  /** A full round of forward presses returns to the starting image. */
  lemma FullRound(i: int, count: nat)
    requires count > 0 && 0 <= i < count
    ensures NextTimes(i, count, count) == i
  {
    NextTimesAdvances(i, count, count);
  }

  /** The index after a sequence of presses, starting from `start`. */
  function Browse(start: int, clicks: seq<Click>, count: nat): int
    requires count > 0
  {
    if clicks == [] then start
    else
      var i := Browse(start, clicks[..|clicks| - 1], count);
      match clicks[|clicks| - 1]
      case Next => NextImage(i, count)
      case Prev => PrevImage(i, count)
  }

  /** Whatever the presses, the index stays a valid position in the list,
      so the image lookup never falls outside it and the counter reads
      between 1 and `count`. */
  lemma {:induction false} BrowseInRange(start: int, clicks: seq<Click>, count: nat)
    requires count > 0 && 0 <= start < count
    ensures 0 <= Browse(start, clicks, count) < count
    ensures 1 <= Counter(Browse(start, clicks, count), count) <= count
  {
    if clicks != [] {
      BrowseInRange(start, clicks[..|clicks| - 1], count);
    }
  }
}

/** The capstone page's gallery of six photographs. */
module CapstonePage {

  import Carousel

  datatype ProjectImage = ProjectImage(src: string, alt: string)

  /** The page's images, in display order. */
  const ProjectImages: seq<ProjectImage> := [
    ProjectImage("tug.jpeg", "Electric Tug Prototype"),
    ProjectImage("team.jpeg", "Tug Project Team"),
    ProjectImage("testing-software.jpeg", "Testing Onboard Control Systems"),
    ProjectImage("testing.jpeg", "Testing and Validation"),
    ProjectImage("attach.jpeg", "Attach Mechanism"),
    ProjectImage("plane.jpeg", "Hooked up to Aircraft")
  ]

  /** The index the page starts at. */
  const InitialIndex := 0

  /** The image on show after a sequence of presses since the page opened,
      with the counter text's number. */
  function Shown(clicks: seq<Carousel.Click>): (r: (ProjectImage, int))
    ensures r.0 in ProjectImages
    ensures 1 <= r.1 <= 6
  {
    Carousel.BrowseInRange(InitialIndex, clicks, |ProjectImages|);
    var i := Carousel.Browse(InitialIndex, clicks, |ProjectImages|);
    (ProjectImages[i], Carousel.Counter(i, |ProjectImages|))
  }

  /** The gallery holds six images and opens on the first. */
  lemma GalleryShape()
    ensures |ProjectImages| == 6
    ensures Shown([]) == (ProjectImages[0], 1)
  {
  }

  /** Six forward presses show the same image again. */
  lemma SixNextsReturn(i: int)
    requires 0 <= i < 6
    ensures Carousel.NextTimes(i, 6, |ProjectImages|) == i
  {
    Carousel.FullRound(i, 6);
  }

  /** Back from the first image wraps to the last. */
  lemma PrevFromFirst()
    ensures Carousel.PrevImage(InitialIndex, |ProjectImages|) == 5
  {
  }
}

/** The capstone project card's gallery of four photographs. */
module CapstoneProjectCard {

  import Carousel
  import opened Wrappers

  datatype ProjectImage = ProjectImage(src: string, alt: string)

  /** The card's images, in display order. */
  const ProjectImages: seq<ProjectImage> := [
    ProjectImage("/assets/images/capstone/tug-main.jpg", "Electric Tug Prototype"),
    ProjectImage("/assets/images/capstone/assembly-1.jpg", "Tug Assembly and Components"),
    ProjectImage("/assets/images/capstone/control-systems.jpg", "Onboard Control Systems"),
    ProjectImage("/assets/images/capstone/testing.jpg", "Testing and Validation")
  ]

  const InitialIndex := 0

  /** The gallery, and every lookup into the image list, is rendered only
      when the list is non-empty; the result is the image and counter on
      show after the given presses, or nothing. */
  function Gallery(images: seq<ProjectImage>, clicks: seq<Carousel.Click>): (r: Option<(ProjectImage, int)>)
    ensures r.Some? <==> |images| > 0
    ensures r.Some? ==> r.value.0 in images && 1 <= r.value.1 <= |images|
  {
    if |images| > 0 then
      Carousel.BrowseInRange(InitialIndex, clicks, |images|);
      var i := Carousel.Browse(InitialIndex, clicks, |images|);
      Some((images[i], Carousel.Counter(i, |images|)))
    else None
  }

  /** The card's gallery holds four images, opens on the first and is shown. */
  lemma GalleryShape()
    ensures |ProjectImages| == 4
    ensures Gallery(ProjectImages, []) == Some((ProjectImages[0], 1))
  {
  }

  /** Four forward presses show the same image again. */
  lemma FourNextsReturn(i: int)
    requires 0 <= i < 4
    ensures Carousel.NextTimes(i, 4, |ProjectImages|) == i
  {
    Carousel.FullRound(i, 4);
  }

  /** Back from the first image wraps to the last. */
  lemma PrevFromFirst()
    ensures Carousel.PrevImage(InitialIndex, |ProjectImages|) == 3
  {
  }
}
