/**
 * The "Selected Works" list: the six projects, the masonry column-span rule
 * on the 12-column grid, the click handler and the "View Project" hint.
 */
module ProjectList {
  import opened JsCore
  import opened Routes

  /** A project card; `targetPage` is optional. */
  datatype Project = Project(
    id: string, title: string, category: string, year: string,
    description: string, imageUrl: string, targetPage: Option<Page>)

  const Projects: seq<Project> := [
    Project("01", "India Blockchain Week", "Branding & Identity", "2025",
            "A vibrant collision of heritage and future. Defining the visual" +
            " language of India's web3 revolution with generative mandalas.",
            "/images/ibw/Hero.webp", Some(CaseStudyIbw)),
    Project("02", "Proving the Invisible", "Workshop Design", "2024",
            "Designing intuitive learning experiences for Reclaim Protocol." +
            " A conceptual scaffolding system for ZK Proofs.", "/images/reclaim/hero_reclaim.webp",
            Some(CaseStudyReclaim)),
    Project("03", "Glasscape Collection", "Product Design", "2024",
            "Holographic displays for the modern sanctuary." +
            " Building with the immaterial.", "/images/glasscape/Glasscape-1.png", Some(Glasscape)),
    Project("04", "India's Journey in Space", "Anamorphic 3D Film", "2024",
            "A 5-minute 3D anamorphic film for Science City Kolkata" +
            " showcasing the history of the Indian Space Program.", "/images/space/home-space.webp",
            Some(CaseStudySpace)),
    Project("05", "Wordsprint", "Android Game Design", "2023",
            "An Android vocabulary game where players practice language by unscrambling" +
            " words and learning their meanings through interactive gameplay.",
            "/images/wordsprint/wordsprint-game.webp", Some(CaseStudyWordsprint)),
    Project("06", "Micro-Gold Investment Platform", "FinTech UX & Behavioral Design", "2023",
            "Designing culturally-sensitive saving habits for India's everyday investors." +
            " Transforming micro-investments into trust and long-term security.", "/images/micro-savings/MICRO-SAVINGS.png",
            Some(CaseStudyMicroGold))
  ]

  /** The card's `md:col-span-*` for its position in the list. */
  function ColSpan(index: nat): (span: nat)
    ensures 3 <= span <= 5
  {
    var position := index % 6;
    if position == 0 || position == 3 then 5
    else if position == 1 || position == 4 then 4
    else 3
  }

  /** The pattern the layout describes: 5, 4, 3 repeating. */
  function Rhythm(index: nat): nat {
    [5, 4, 3][index % 3]
  }

  /** The span depends only on the position modulo three, so it repeats every three cards. */
  lemma {:induction false} SpanIsRhythm(index: nat)
    ensures ColSpan(index) == Rhythm(index)
    ensures ColSpan(index) == ColSpan(index + 3)
  {
    if index >= 6 {
      SpanIsRhythm(index - 6);
      assert index % 6 == (index - 6) % 6 && index % 3 == (index - 6) % 3;
    }
    assert (index + 3) % 3 == index % 3;
    if index + 3 >= 6 {
      assert (index + 3) % 6 == (index - 3) % 6;
      if index >= 3 {
        SpanIsRhythm(index - 3);
      }
    }
  }

  /** Every run of three cards starting at a multiple of three fills exactly the twelve grid columns. */
  lemma TripleFillsRow(k: nat)
    ensures ColSpan(3 * k) + ColSpan(3 * k + 1) + ColSpan(3 * k + 2) == 12
  {
    SpanIsRhythm(3 * k);
    SpanIsRhythm(3 * k + 1);
    SpanIsRhythm(3 * k + 2);
  }

  /**
   * `handleProjectClick`: the page passed to `onNavigate`, if it is called.
   * `hasNavigate` says whether the list was given an `onNavigate` callback;
   * every `Page` value is a non-empty string, so a present target is truthy.
   */
  function HandleProjectClick(project: Project, hasNavigate: bool): (navigated: Option<Page>)
    ensures navigated.Some? <==> project.targetPage.Some? && hasNavigate
    ensures navigated.Some? ==> navigated.value == project.targetPage.value
  {
    if project.targetPage.Some? && hasNavigate then Some(project.targetPage.value) else None
  }

  /** The hover hint is rendered for a card with a target page. */
  predicate ShowsHint(project: Project) {
    project.targetPage.Some?
  }

  /** The hint is shown exactly on the cards a click with a callback navigates from. */
  lemma HintMeansClickable(project: Project)
    ensures ShowsHint(project) <==> HandleProjectClick(project, true).Some?
    ensures HandleProjectClick(project, false).None?
  {
  }

  /**
   * Every listed project links to a page with a URL, and following the click
   * through the app's navigation lands on a path that shows that page.
   */
  lemma EveryProjectLands(i: nat)
    requires i < |Projects|
    ensures ShowsHint(Projects[i])
    ensures NavigateTarget(Projects[i].targetPage.value).Some?
    ensures CurrentPage(NavigateTarget(Projects[i].targetPage.value).value) == Projects[i].targetPage.value
  {
    NavigatesUnlessMonsoon(Projects[i].targetPage.value);
    NavigateThenLocate(Projects[i].targetPage.value);
  }

  /** The six cards take the spans 5, 4, 3, 5, 4, 3: two full rows. */
  lemma ListLayout()
    ensures seq(|Projects|, i requires 0 <= i => ColSpan(i)) == [5, 4, 3, 5, 4, 3]
  {
  }
}
