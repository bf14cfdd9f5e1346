/** The three-page onboarding carousel. */
module Onboarding {
  import opened Wrappers

  datatype Slide = Slide(title: string, description: string, imageName: string)

  /** `setupSlides`. */
  const Slides: seq<Slide> := [
    Slide("Welcome to Pocket of Time",
          "This isn't another to-do list. It's a tool to help you find and cherish small moments of connection with your loved ones.",
          "sparkles"),
    Slide("Instant Ideas, Zero Stress",
          "When you're out of ideas, we'll make the decision for you. Get a simple activity or conversation starter in one tap.",
          "lightbulb"),
    Slide("Capture the Good Stuff",
          "Quickly save the little memories that make you smile, creating a private journal of your favorite moments.",
          "heart.rectangle")
  ]

  /** An OnboardingContentViewController: the slide it shows and its page index. */
  datatype Page = Page(slide: Slide, pageIndex: int)

  predicate IsPageOf(slides: seq<Slide>, p: Page)
  {
    0 <= p.pageIndex < |slides| && p.slide == slides[p.pageIndex]
  }

  /** `contentViewController(at:)`. */
  function ContentViewController(slides: seq<Slide>, index: int): (r: Option<Page>)
    ensures r.None? <==> index < 0 || index >= |slides|
    ensures r.Some? ==> IsPageOf(slides, r.value) && r.value.pageIndex == index
  {
    if index >= 0 && index < |slides| then Some(Page(slides[index], index)) else None
  }

  /** `viewControllerBefore`. */
  function Before(slides: seq<Slide>, p: Page): Option<Page>
  {
    ContentViewController(slides, p.pageIndex - 1)
  }

  /** `viewControllerAfter`. */
  function After(slides: seq<Slide>, p: Page): Option<Page>
  {
    ContentViewController(slides, p.pageIndex + 1)
  }

  /** Paging forward then back (or back then forward) returns to the same
      page; there is nothing before the first page or after the last. */
  lemma NeighboursAreInverse(slides: seq<Slide>, p: Page)
    requires IsPageOf(slides, p)
    ensures After(slides, p).Some? ==> Before(slides, After(slides, p).value) == Some(p)
    ensures Before(slides, p).Some? ==> After(slides, Before(slides, p).value) == Some(p)
    ensures Before(slides, p).None? <==> p.pageIndex == 0
    ensures After(slides, p).None? <==> p.pageIndex == |slides| - 1
    ensures After(slides, p).Some? ==> IsPageOf(slides, After(slides, p).value)
    ensures Before(slides, p).Some? ==> IsPageOf(slides, Before(slides, p).value)
  {
  }

  /** The carousel has three pages, first to last by `After`. */
  lemma ThreePages()
    ensures |Slides| == 3
    ensures ContentViewController(Slides, 0) == Some(Page(Slides[0], 0))
    ensures After(Slides, Page(Slides[0], 0)) == Some(Page(Slides[1], 1))
    ensures After(Slides, Page(Slides[1], 1)) == Some(Page(Slides[2], 2))
    ensures After(Slides, Page(Slides[2], 2)) == None
    ensures Slides[0].imageName == "sparkles" && Slides[2].title == "Capture the Good Stuff"
  {
  }

  /** The part of OnboardingViewController that tracks the page. */
  class OnboardingPager {
    const slides: seq<Slide>
    var currentIndex: int
    var numberOfPages: int
    var currentPage: int
    /** The page the page view controller shows. */
    var shown: Option<Page>

    /** `viewDidLoad`: the slides, the first page, and the page control. */
    constructor ()
      ensures slides == Slides
      ensures shown == Some(Page(Slides[0], 0))
      ensures numberOfPages == 3 && currentPage == 0 && currentIndex == 0
    {
      slides := Slides;
      currentIndex := 0;
      new;
      var firstViewController := ContentViewController(slides, 0);
      if firstViewController.Some? {
        shown := firstViewController;
      }
      numberOfPages := |slides|;
      currentPage := 0;
    }

    /** `didFinishAnimating`: a completed transition leaves `first` (the page
        view controller's first visible page) on screen, and the index and the
        dots follow it; a cancelled one leaves the old page and changes nothing. */
    method DidFinishAnimating(completed: bool, first: Option<Page>)
      modifies this
      ensures completed && first.Some? ==> shown == first && currentIndex == first.value.pageIndex && currentPage == currentIndex
      ensures !(completed && first.Some?) ==> shown == old(shown) && currentIndex == old(currentIndex) && currentPage == old(currentPage)
      ensures numberOfPages == old(numberOfPages)
    {
      if completed {
        if first.Some? {
          shown := first;
          currentIndex := first.value.pageIndex;
          currentPage := currentIndex;
        }
      }
    }
  }
}
