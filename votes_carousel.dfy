/** The highlighted-votes carousel: a window of `slidesToShow` cards that slides over
    the list of highlighted votes, with the window size chosen by a width breakpoint. */
module VotesCarousel {

  /** One highlighted vote card. */
  datatype Vote = Vote(question: string, category: string, votes: nat, comments: nat)

  /** The sample votes the carousel shows. */
  const VotesData: seq<Vote> := [
    Vote("What type of art is this?", "Painting", 12, 4),
    Vote("What type of art is this?", "Painting", 12, 4),
    Vote("What type of art is this?", "Painting", 12, 4),
    Vote("What type of art is this?", "Painting", 12, 4)
  ]

  /** Narrowest viewport width that shows three cards. */
  const WideBreakpoint: int := 768

  /** `updateSlidesToShow`: three cards from the breakpoint up, one below it. */
  function SlidesFor(width: int): (k: int)
    ensures k == 3 <==> width >= WideBreakpoint
    ensures k == 1 <==> width < WideBreakpoint
  {
    if width >= 768 then 3 else 1
  }

  /** `handleNext` for n items and k visible cards: slide one card on while a full
      window still fits, otherwise wrap back to the first card. */
  function NextIndex(prev: int, n: int, k: int): (r: int)
    ensures prev + 1 <= n - k ==> r == prev + 1
    ensures prev + 1 > n - k ==> r == 0
    ensures k <= n && prev >= -1 ==> 0 <= r <= n - k
  {
    if prev + 1 < n - k + 1 then prev + 1 else 0
  }

  /** `handlePrev`: slide one card back, or from the first card wrap to the last
      full window. */
  function PrevIndex(prev: int, n: int, k: int): (r: int)
    ensures prev - 1 >= 0 ==> r == prev - 1
    ensures prev - 1 < 0 ==> r == n - k
    ensures 0 <= prev <= n - k ==> 0 <= r <= n - k
  {
    if prev - 1 >= 0 then prev - 1 else n - k
  }

  /** Next undoes Prev on every window but the first. */
  lemma NextUndoesPrev(i: int, n: int, k: int)
    requires 0 < i <= n - k
    ensures NextIndex(PrevIndex(i, n, k), n, k) == i
  {
  }

  /** Prev undoes Next on every window but the last. */
  lemma PrevUndoesNext(i: int, n: int, k: int)
    requires 0 <= i < n - k
    ensures PrevIndex(NextIndex(i, n, k), n, k) == i
  {
  }

  /** The previous button is rendered only when currentIndex > 0, so pressing it never
      takes the wrapping branch. */
  lemma PrevButtonNeverWraps(i: int, n: int, k: int)
    requires PrevButtonShown(i)
    ensures PrevIndex(i, n, k) == i - 1 && PrevIndex(i, n, k) >= 0
  {
  }

  predicate PrevButtonShown(currentIndex: int)
  {
    currentIndex > 0
  }

  /** With the four sample votes and three cards visible: Next goes from 0 to 1 and then
      wraps to 0, and Prev from 0 wraps to 1. */
  lemma SampleWalk()
    ensures NextIndex(0, |VotesData|, 3) == 1
    ensures NextIndex(1, |VotesData|, 3) == 0
    ensures PrevIndex(0, |VotesData|, 3) == 1
  {
  }

  /** The component: the index and window-size hooks as fields, the two buttons and
      the resize listener as methods. */
  class HighlightedVotesCarousel {
    var currentIndex: int
    var slidesToShow: int

    /** Whatever the buttons and resizes, the window starts at one of the votes and
        shows one or three cards. */
    ghost predicate Valid()
      reads this
    {
      0 <= currentIndex < |VotesData| && (slidesToShow == 1 || slidesToShow == 3)
    }

    /** The state hooks' initial values, before the mount effect first measures the
        viewport. */
    constructor ()
      ensures Valid() && currentIndex == 0 && slidesToShow == 3
    {
      currentIndex, slidesToShow := 0, 3;
    }

    /** `updateSlidesToShow`, run on mount and on every resize: only the window size
        changes, never the index. */
    method UpdateSlidesToShow(width: int)
      requires Valid()
      modifies this
      ensures Valid()
      ensures slidesToShow == SlidesFor(width) && currentIndex == old(currentIndex)
    {
      slidesToShow := if width >= 768 then 3 else 1;
    }

    method HandleNext()
      requires Valid()
      modifies this
      ensures Valid()
      ensures currentIndex == NextIndex(old(currentIndex), |VotesData|, slidesToShow)
      ensures slidesToShow == old(slidesToShow)
    {
      currentIndex := if currentIndex + 1 < |VotesData| - slidesToShow + 1 then currentIndex + 1 else 0;
    }

    method HandlePrev()
      requires Valid()
      modifies this
      ensures Valid()
      ensures currentIndex == PrevIndex(old(currentIndex), |VotesData|, slidesToShow)
      ensures slidesToShow == old(slidesToShow)
    {
      currentIndex := if currentIndex - 1 >= 0 then currentIndex - 1 else |VotesData| - slidesToShow;
    }
  }
}
