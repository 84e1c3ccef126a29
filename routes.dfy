/**
 * The site's routing: the `Page` enumeration, the two lookup tables between
 * pages and URL paths, the page derived from the current path, the
 * navigation handler, and which pages show the navigation bar and footer.
 */
module Routes {
  import opened JsCore

  datatype Page =
    | Home | Consultancy | Glasscape | GlasscapeHorizon | Games | MonsoonStories
    | Experiments | Journal | About | Contact
    | CaseStudyIbw | CaseStudyReclaim | CaseStudySpace | CaseStudyWordsprint | CaseStudyMicroGold

  /** `URL_TO_PAGE`. */
  const UrlToPage: map<string, Page> := map[
    "/" := Home,
    "/consultancy" := Consultancy,
    "/glasscape" := Glasscape,
    "/glasscape/horizon" := GlasscapeHorizon,
    "/work/india-blockchain-week" := CaseStudyIbw,
    "/work/reclaim-protocol" := CaseStudyReclaim,
    "/work/space-film" := CaseStudySpace,
    "/work/wordsprint" := CaseStudyWordsprint,
    "/work/micro-gold" := CaseStudyMicroGold,
    "/games" := Games,
    "/about" := About,
    "/journal" := Journal,
    "/experiments" := Experiments,
    "/contact" := Contact
  ]

  /** `PAGE_TO_URL`: every page but the monsoon stories has an entry. */
  const PageToUrl: map<Page, string> := map[
    Home := "/",
    Consultancy := "/consultancy",
    Glasscape := "/glasscape",
    GlasscapeHorizon := "/glasscape/horizon",
    CaseStudyIbw := "/work/india-blockchain-week",
    CaseStudyReclaim := "/work/reclaim-protocol",
    CaseStudySpace := "/work/space-film",
    CaseStudyWordsprint := "/work/wordsprint",
    CaseStudyMicroGold := "/work/micro-gold",
    Games := "/games",
    About := "/about",
    Journal := "/journal",
    Experiments := "/experiments",
    Contact := "/contact"
  ]

  /** `URL_TO_PAGE[location.pathname] || Page.HOME`. */
  function CurrentPage(pathname: string): (p: Page)
    ensures pathname in UrlToPage ==> p == UrlToPage[pathname]
    ensures pathname !in UrlToPage ==> p == Home
  {
    if pathname in UrlToPage then UrlToPage[pathname] else Home
  }

  /** `handleNavigate`: the URL it navigates to, if the page has one (every URL is a non-empty, truthy string). */
  function NavigateTarget(page: Page): (u: Option<string>)
    ensures u.Some? <==> page in PageToUrl
    ensures u.Some? ==> u.value == PageToUrl[page] && u.value != ""
  {
    if page in PageToUrl && PageToUrl[page] != "" then Some(PageToUrl[page]) else None
  }

  /** Page to URL and back is the identity on every page that has a URL. */
  lemma PageRoundTrip(p: Page)
    requires p in PageToUrl
    ensures PageToUrl[p] in UrlToPage && UrlToPage[PageToUrl[p]] == p
  {
  }

  /** URL to page and back is the identity on every URL: the two tables are inverse. */
  lemma UrlRoundTrip(u: string)
    requires u in UrlToPage
    ensures UrlToPage[u] in PageToUrl && PageToUrl[UrlToPage[u]] == u
  {
  }

  /** Navigation happens exactly for the pages other than the monsoon stories. */
  lemma NavigatesUnlessMonsoon(p: Page)
    ensures NavigateTarget(p).Some? <==> p != MonsoonStories
  {
  }

  /** Navigating to a page lands on a path from which that same page is recovered. */
  lemma NavigateThenLocate(p: Page)
    requires NavigateTarget(p).Some?
    ensures CurrentPage(NavigateTarget(p).value) == p
  {
    PageRoundTrip(p);
  }

  /** An unknown path, the empty one included, is the home page. */
  lemma UnknownPathIsHome(pathname: string)
    requires pathname !in UrlToPage
    ensures CurrentPage(pathname) == Home
  {
  }

  /** `hideNavPages`. */
  const HideNavPages: seq<Page> :=
    [CaseStudyIbw, CaseStudyReclaim, CaseStudySpace, CaseStudyWordsprint, CaseStudyMicroGold, GlasscapeHorizon]

  /** `showNav = !hideNavPages.includes(currentPage)`. */
  predicate ShowNav(p: Page) {
    p !in HideNavPages
  }

  /** `showFooter`. */
  predicate ShowFooter(p: Page) {
    p != Glasscape && p != GlasscapeHorizon
  }

  /** How many times the navigation bar is rendered: the `showNav` render plus the Glasscape one. */
  function NavigationRenders(p: Page): nat {
    (if ShowNav(p) then 1 else 0) + (if p == Glasscape then 1 else 0)
  }

  /** How many times the footer is rendered: the `showFooter` render plus the Glasscape one. */
  function FooterRenders(p: Page): nat {
    (if ShowFooter(p) then 1 else 0) + (if p == Glasscape || p == GlasscapeHorizon then 1 else 0)
  }

  predicate IsHiddenNavPage(p: Page) {
    p.CaseStudyIbw? || p.CaseStudyReclaim? || p.CaseStudySpace? || p.CaseStudyWordsprint? ||
    p.CaseStudyMicroGold? || p.GlasscapeHorizon?
  }

  /** The navigation bar is hidden on exactly the five case studies and the Glasscape horizon page. */
  lemma ShowNavExactly(p: Page)
    ensures !ShowNav(p) <==> IsHiddenNavPage(p)
  {
  }

  /** Every page renders the footer exactly once. */
  lemma FooterOnce(p: Page)
    ensures FooterRenders(p) == 1
  {
  }

  /** The navigation bar renders twice on Glasscape, never on a hidden page, once elsewhere. */
  lemma NavigationRenderCount(p: Page)
    ensures p == Glasscape ==> NavigationRenders(p) == 2
    ensures IsHiddenNavPage(p) ==> NavigationRenders(p) == 0
    ensures p != Glasscape && !IsHiddenNavPage(p) ==> NavigationRenders(p) == 1
  {
  }
}
