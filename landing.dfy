/** The landing block of the home page (src/components/Landing.tsx): the
    breakpoint rule that sizes the project carousel, and the card list handed to
    the infinite scroller, looped by repeating its first card. */
module Landing {
  import Carousel

  /** The window, absent while rendering on the server. */
  datatype Window = NoWindow | BrowserWindow(innerWidth: int)

  /** The width the carousel gets before any resize event. */
  const InitialCarouselWidth: int := 900

  /** `getCarouselWidth`: four bands of window width. */
  function CarouselWidth(win: Window): (r: int)
    ensures win.NoWindow? ==> r == 900
    ensures win.BrowserWindow? && win.innerWidth < 640 ==>
              r <= 350 && r <= win.innerWidth - 32 && (r == 350 || r == win.innerWidth - 32)
    ensures win.BrowserWindow? && 640 <= win.innerWidth < 768 ==>
              r <= 450 && r <= win.innerWidth - 48 && (r == 450 || r == win.innerWidth - 48)
    ensures win.BrowserWindow? && 768 <= win.innerWidth < 1024 ==> r == 600
    ensures win.BrowserWindow? && win.innerWidth >= 1024 ==> r == 900
  {
    match win
    case NoWindow => 900
    case BrowserWindow(w) =>
      if w < 640 then Carousel.Min(w - 32, 350)
      else if w < 768 then Carousel.Min(w - 48, 450)
      else if w < 1024 then 600
      else 900
  }

  /** The computed width never exceeds the desktop width. */
  lemma CarouselWidthAtMost900(win: Window)
    ensures CarouselWidth(win) <= InitialCarouselWidth
  {
  }

  /** A wider window never gets a narrower carousel. */
  lemma CarouselWidthMonotone(w1: int, w2: int)
    requires w1 <= w2
    ensures CarouselWidth(BrowserWindow(w1)) <= CarouselWidth(BrowserWindow(w2))
  {
  }

  /** Below 768 pixels the width leaves at least a 16-pixel margin on each side. */
  lemma MobileWidthFits(w: int)
    requires w < 768
    ensures CarouselWidth(BrowserWindow(w)) <= w - 32
  {
  }

  /** The carousel's own narrowing below 768 pixels, `min(innerWidth - 32, baseWidth)`,
      never cuts the width chosen here, so the carousel lays out at exactly that width. */
  lemma CarouselKeepsChosenWidth(w: int)
    ensures Carousel.ContainerWidthFor(w, CarouselWidth(BrowserWindow(w))) == CarouselWidth(BrowserWindow(w))
  {
  }

  /** One project card of the scroller, named by the site it links to. */
  datatype ProjectCard = ProjectCard(site: string)

  function OriginalItems(): (r: seq<ProjectCard>)
    ensures |r| == 3
  {
    [ProjectCard("francklebeurre-expertise.fr"),
     ProjectCard("lebalzac-coiffure-decines.fr"),
     ProjectCard("lesailes.vercel.app")]
  }

  /** `[...originalItems, originalItems[0]]`. */
  function LoopedItems(): (r: seq<ProjectCard>)
    ensures |r| == |OriginalItems()| + 1 == 4
    ensures r[..|OriginalItems()|] == OriginalItems()
    ensures r[|r| - 1] == r[0] == OriginalItems()[0]
  {
    OriginalItems() + [OriginalItems()[0]]
  }
}
