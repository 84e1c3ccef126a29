/**
 * The SEO component: the page title rule, the defaults applied to absent
 * props, which meta tags it sets with which content, and the JSON-LD schema
 * it settles on. Writing those into the document head is not modelled.
 */
module Seo {
  import opened JsCore
  import opened Http

  const SiteTitle: string := "Poetics Studio"
  const DefaultCanonical: string := "https://poetics.studio"
  const DefaultImage: string := "https://poetics.studio/og-image.svg"
  const DefaultAuthor: string := "Poetics Studio"

  datatype Kind = Website | Article | Profile | Service

  function KindName(k: Kind): string {
    match k
    case Website => "website"
    case Article => "article"
    case Profile => "profile"
    case Service => "service"
  }

  /** The component's props; an absent optional prop is `None`. */
  datatype Props = Props(
    title: string, description: string,
    keywords: Option<seq<string>>, canonicalUrl: Option<string>,
    schema: Option<map<string, Json>>, image: Option<string>, author: Option<string>,
    publishedDate: Option<string>, modifiedDate: Option<string>, kind: Option<Kind>)

  /** A default parameter applies only when the prop is undefined. */
  function OrDefault<T>(v: Option<T>, d: T): (r: T)
    ensures v.None? ==> r == d
    ensures v.Some? ==> r == v.value
  {
    if v.Some? then v.value else d
  }

  predicate EndsWith(s: string, suffix: string) {
    |suffix| <= |s| && s[|s| - |suffix|..] == suffix
  }

  /** The document title: the site name alone, or the page title followed by " | Poetics Studio". */
  function FullTitle(title: string): (t: string)
    ensures EndsWith(t, SiteTitle)
    ensures title == SiteTitle ==> t == SiteTitle
    ensures title != SiteTitle ==> |title| <= |t| && t[..|title|] == title && |t| == |title| + 3 + |SiteTitle|
  {
    if title == SiteTitle then title else title + " | " + SiteTitle
  }

  /** The title is never repeated: it appears once before the suffix. */
  lemma FullTitleShape(title: string)
    requires title != SiteTitle
    ensures FullTitle(title) == title + " | " + SiteTitle
    ensures FullTitle(title)[..|title| + 3] == title + " | "
  {
    var t := FullTitle(title);
    assert t[..|title| + 3] == (title + " | " + SiteTitle)[..|title| + 3];
  }

  /** `{ ...defaults, ...schema }`: the caller's keys win, every other default key is kept. */
  function MergeSchema(defaults: map<string, Json>, schema: map<string, Json>): (m: map<string, Json>)
    ensures m.Keys == defaults.Keys + schema.Keys
    ensures forall k :: k in schema ==> m[k] == schema[k]
    ensures forall k :: k in defaults && k !in schema ==> m[k] == defaults[k]
  {
    defaults + schema
  }

  /** Merging nothing changes nothing, and merging the same schema twice is merging it once. */
  lemma MergeLaws(defaults: map<string, Json>, schema: map<string, Json>)
    ensures MergeSchema(defaults, map[]) == defaults
    ensures MergeSchema(MergeSchema(defaults, schema), schema) == MergeSchema(defaults, schema)
  {
  }

  /** The organisation record published when a page supplies no schema. */
  const DefaultSchema: map<string, Json> := map[
    "@context" := JStr("https://schema.org"),
    "@type" := JStr("DesignAgency"),
    "name" := JStr("Poetics Studio"),
    "alternateName" := JStr("Poetics"),
    "url" := JStr("https://poetics.studio"),
    "logo" := JStr("https://poetics.studio/og-image.svg"),
    "image" := JStr("https://poetics.studio/og-image.svg"),
    "description" := JStr("A sense-making studio practice exploring the intersection of technology, design, and art." +
                          " We create strategic UX, generative systems, and poetic technology."),
    "foundingDate" := JStr("2024"),
    "slogan" := JStr("The soul of making is found in the silence between."),
    "founders" := JArr([
      JObj(map["@type" := JStr("Person"), "name" := JStr("Pranshu Chaudhary"), "jobTitle" := JStr("Co-founder")]),
      JObj(map["@type" := JStr("Person"), "name" := JStr("Udhayan RM"), "jobTitle" := JStr("Co-founder")]),
      JObj(map["@type" := JStr("Person"), "name" := JStr("Monalisa Thakur"), "jobTitle" := JStr("Co-founder")])]),
    "sameAs" := JArr([
      JStr("https://twitter.com/poeticsstudio"),
      JStr("https://instagram.com/poeticsstudio"),
      JStr("https://linkedin.com/company/poeticsstudio")]),
    "address" := JArr([
      JObj(map["@type" := JStr("PostalAddress"), "addressLocality" := JStr("Prayagraj"),
               "addressRegion" := JStr("Uttar Pradesh"), "addressCountry" := JStr("India"),
               "postalCode" := JStr("211001")]),
      JObj(map["@type" := JStr("PostalAddress"), "addressLocality" := JStr("Assagao"),
               "addressRegion" := JStr("Goa"), "addressCountry" := JStr("India")])]),
    "areaServed" := JObj(map[
      "@type" := JStr("GeoCircle"),
      "geoMidpoint" := JObj(map["@type" := JStr("GeoCoordinates"), "latitude" := JStr("25.4358"),
                                "longitude" := JStr("81.8463")]),
      "geoRadius" := JStr("Global")]),
    "knowsAbout" := JArr([
      JStr("User Experience Design"), JStr("Strategic UX"), JStr("Product Design"), JStr("Generative Art"),
      JStr("Game Design"), JStr("Blockchain Branding"), JStr("HMI Design"), JStr("Design Systems"),
      JStr("Interaction Design"), JStr("Creative Technology")]),
    "contactPoint" := JObj(map[
      "@type" := JStr("ContactPoint"), "contactType" := JStr("Customer Service"),
      "email" := JStr("hello@poetics.studio"),
      "availableLanguage" := JArr([JStr("English"), JStr("Hindi")])])
  ]

  /** `finalSchema`: the default record, or the merge when a schema is given. */
  function FinalSchema(p: Props): (m: map<string, Json>)
    ensures p.schema.None? ==> m == DefaultSchema
    ensures p.schema.Some? ==> m == MergeSchema(DefaultSchema, p.schema.value)
  {
    if p.schema.Some? then MergeSchema(DefaultSchema, p.schema.value) else DefaultSchema
  }

  /** A page schema that names its own `@type` overrides the default one but keeps the default context. */
  lemma SchemaOverride(p: Props, t: string)
    requires p.schema.Some? && "@context" !in p.schema.value && p.schema.value.Keys == {"@type"}
    requires p.schema.value["@type"] == JStr(t)
    ensures FinalSchema(p)["@type"] == JStr(t)
    ensures FinalSchema(p)["@context"] == JStr("https://schema.org")
    ensures FinalSchema(p).Keys == DefaultSchema.Keys
  {
  }

  /** `keywords.join(', ')`. */
  function KeywordsContent(p: Props): string {
    Join(OrDefault(p.keywords, []), ", ")
  }

  /** Without keywords the tag is set to the empty string; a single keyword is used alone. */
  lemma KeywordsDefault(p: Props, k: string)
    ensures p.keywords.None? ==> KeywordsContent(p) == ""
    ensures p.keywords == Some([k]) ==> KeywordsContent(p) == k
  {
  }

  /** The article tags go out only for an article with a (non-empty) publication date. */
  predicate HasArticleTags(p: Props) {
    OrDefault(p.kind, Website) == Article && p.publishedDate.Some? && p.publishedDate.value != ""
  }

  /** The meta tags the effect sets, by their `name` or `property` attribute. */
  datatype Tag =
    | Description | Keywords
    | OgTitle | OgDescription | OgUrl | OgImage | OgType | OgSiteName | OgLocale
    | ArticlePublished | ArticleModified | ArticleAuthor
    | TwitterCard | TwitterTitle | TwitterDescription | TwitterImage

  function TagName(t: Tag): string {
    match t
    case Description => "description"
    case Keywords => "keywords"
    case OgTitle => "og:title"
    case OgDescription => "og:description"
    case OgUrl => "og:url"
    case OgImage => "og:image"
    case OgType => "og:type"
    case OgSiteName => "og:site_name"
    case OgLocale => "og:locale"
    case ArticlePublished => "article:published_time"
    case ArticleModified => "article:modified_time"
    case ArticleAuthor => "article:author"
    case TwitterCard => "twitter:card"
    case TwitterTitle => "twitter:title"
    case TwitterDescription => "twitter:description"
    case TwitterImage => "twitter:image"
  }

  /** What the effect writes: the title, the meta tags, the canonical link and the JSON-LD. */
  datatype Head = Head(title: string, meta: map<Tag, string>, canonical: string, jsonLd: map<string, Json>)

  function ArticleTags(p: Props): (m: map<Tag, string>)
    ensures forall t :: t in m ==> t.ArticlePublished? || t.ArticleModified? || t.ArticleAuthor?
  {
    if HasArticleTags(p) then
      var published := map[ArticlePublished := p.publishedDate.value,
                           ArticleAuthor := OrDefault(p.author, DefaultAuthor)];
      if p.modifiedDate.Some? && p.modifiedDate.value != ""
      then published[ArticleModified := p.modifiedDate.value]
      else published
    else map[]
  }

  /** The meta tags the effect sets: the standard ones, then the article ones. */
  function MetaFor(p: Props): map<Tag, string> {
    var title := FullTitle(p.title);
    var image := OrDefault(p.image, DefaultImage);
    var standard := map[
      Description := p.description,
      Keywords := KeywordsContent(p),
      OgTitle := title,
      OgDescription := p.description,
      OgUrl := OrDefault(p.canonicalUrl, DefaultCanonical),
      OgImage := image,
      OgType := KindName(OrDefault(p.kind, Website)),
      OgSiteName := "Poetics Studio",
      OgLocale := "en_IN",
      TwitterCard := "summary_large_image",
      TwitterTitle := title,
      TwitterDescription := p.description,
      TwitterImage := image];
    standard + ArticleTags(p)
  }

  function HeadFor(p: Props): Head {
    Head(FullTitle(p.title), MetaFor(p), OrDefault(p.canonicalUrl, DefaultCanonical), FinalSchema(p))
  }

  /** The article tags are present exactly for an article with a publication date; the modified time needs one too. */
  lemma ArticleTagsRule(p: Props)
    ensures var m := MetaFor(p);
      (ArticlePublished in m <==> HasArticleTags(p)) &&
      (ArticleAuthor in m <==> HasArticleTags(p)) &&
      (ArticleModified in m <==> HasArticleTags(p) && p.modifiedDate.Some? && p.modifiedDate.value != "")
  {
  }

  /** An absent prop falls back to its default in the tags that use it. */
  lemma DefaultsApply(p: Props)
    requires p.canonicalUrl.None? && p.image.None? && p.kind.None?
    ensures var m := MetaFor(p);
      m[OgUrl] == DefaultCanonical && m[OgImage] == DefaultImage && m[TwitterImage] == DefaultImage &&
      m[OgType] == "website" && !HasArticleTags(p)
  {
  }

  /** The Open Graph and Twitter titles are the document title; a page's author shows as the article author. */
  lemma TitlesAgree(p: Props)
    ensures var m := MetaFor(p);
      m[OgTitle] == FullTitle(p.title) && m[TwitterTitle] == FullTitle(p.title)
    ensures HasArticleTags(p) ==> MetaFor(p)[ArticleAuthor] == OrDefault(p.author, DefaultAuthor)
  {
  }

}
