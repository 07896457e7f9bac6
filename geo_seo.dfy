/** The schema.org JSON-LD graph of a geo-landing page (lib/geo/seo.ts). Each node of
    the `@graph` is a constructor of `SchemaNode` holding the properties the source
    writes into its object literal; `@type` is the constructor. */
module GeoSeo {
  import opened Wrappers
  import opened GeoTypes
  import GeoData

  /** The page texts the graph is built from; `faqs` holds (question, answer) pairs. */
  datatype SchemaContent = SchemaContent(title: string, description: string, h1: string,
                                         faqs: seq<(string, string)>)

  /** A `ListItem` of the breadcrumb; only the first item carries a URL. */
  datatype ListItem = ListItem(position: int, name: string, item: Option<string>)

  /** A `Question` of the FAQ page with the text of its accepted `Answer`. */
  datatype Question = Question(name: string, acceptedAnswer: string)

  datatype SchemaNode =
    | WebPage(id: string, url: string, name: string, description: string, inLanguage: string,
              isPartOf: string, breadcrumb: string)
    | BreadcrumbList(id: string, itemListElement: seq<ListItem>)
    | ProfessionalService(id: string, name: string, description: string, url: string, serviceType: string,
                          areaServed: string, containedInPlace: string,
                          providerName: string, jobTitle: string, providerUrl: string, sameAs: seq<string>,
                          ratingValue: string, ratingCount: string, bestRating: string, worstRating: string,
                          contactType: string, email: string, availableLanguage: seq<string>,
                          priceRange: string)
    | Review(id: string, ratingValue: string, bestRating: string, author: string, reviewBody: string)
    | FaqPage(id: string, mainEntity: seq<Question>)

  /** The document: `@context` and `@graph`. */
  datatype Schema = Schema(context: string, graph: seq<SchemaNode>)

  const SCHEMA_CONTEXT: string := "https://schema.org"
  const PROVIDER_NAME: string := "Jose Gilarte"
  const PROVIDER_PROFILE: string := "https://es.linkedin.com/in/jose-gilarte-alvarez"
  const CONTACT_EMAIL: string := "jose@josegilarte.es"
  const PRICE_RANGE: string := "€€"
  const REVIEW_1_AUTHOR: string := "Carlos M."
  const REVIEW_1_BODY: string := "Excelente trabajo de posicionamiento. En 6 meses duplicamos el tráfico orgánico."
  const REVIEW_2_AUTHOR: string := "Laura S."
  const REVIEW_2_BODY: string := "Profesionalidad y resultados reales. La mejor inversión en marketing digital."

  /** `LANGUAGE_MAP`. */
  function InLanguage(locale: Locale): (tag: string)
    ensures locale == Es ==> tag == "es-ES"
    ensures locale == En ==> tag == "en-US"
  {
    match locale
    case Es => "es-ES"
    case En => "en-US"
  }

  /** `HOME_LABEL_MAP`. */
  function HomeLabel(locale: Locale): string {
    match locale
    case Es => "Inicio"
    case En => "Home"
  }

  /** `JOB_TITLE_MAP`. */
  function JobTitle(locale: Locale): string {
    match locale
    case Es => "Especialista SEO y Marketing Digital"
    case En => "SEO & Digital Marketing Specialist"
  }

  /** `getServiceType`: the schema.org service type of each pillar. */
  function ServiceType(pilar: Pilar): string {
    match pilar
    case Seo => "Search Engine Optimization"
    case Ia => "Artificial Intelligence Consulting"
    case Growth => "Growth Marketing"
    case Geo => "Generative Engine Optimization"
  }

  /** Each pillar has its own service type. */
  lemma ServiceTypeInjective(a: Pilar, b: Pilar)
    requires ServiceType(a) == ServiceType(b)
    ensures a == b
  {
  }

  /** `buildSlug`. */
  function BuildSlug(service: ServicePattern, city: Municipality, locale: Locale): string {
    LocaleSlug(service, locale) + "-" + city.slug
  }

  /** `buildPageUrl`. */
  function BuildPageUrl(locale: Locale, slug: string): string {
    BASE_URL + "/" + LocaleCode(locale) + "/" + slug
  }

  function BuildWebPage(pageUrl: string, locale: Locale, slug: string, content: SchemaContent): SchemaNode {
    WebPage(pageUrl + "#webpage", pageUrl, content.title, content.description, InLanguage(locale),
            BASE_URL + "/#website", BASE_URL + "/" + LocaleCode(locale) + "/" + slug + "#breadcrumb")
  }

  function BuildBreadcrumbList(pageUrl: string, locale: Locale, slug: string, city: Municipality,
                               content: SchemaContent): SchemaNode {
    BreadcrumbList(pageUrl + "#breadcrumb", [
      ListItem(1, HomeLabel(locale), Some(BASE_URL + "/" + LocaleCode(locale))),
      ListItem(2, city.ccaa, None),
      ListItem(3, city.provincia, None),
      ListItem(4, content.h1, None)
    ])
  }

  function BuildReviews(pageUrl: string): seq<SchemaNode> {
    [
      Review(pageUrl + "#review-1", "5", "5", REVIEW_1_AUTHOR, REVIEW_1_BODY),
      Review(pageUrl + "#review-2", "5", "5", REVIEW_2_AUTHOR, REVIEW_2_BODY)
    ]
  }

  function BuildProfessionalService(pageUrl: string, locale: Locale, service: ServicePattern,
                                    city: Municipality, content: SchemaContent): SchemaNode {
    ProfessionalService(
      pageUrl + "#service", PROVIDER_NAME + " - " + content.h1, content.description, pageUrl,
      ServiceType(service.pilar), city.name, city.ccaa,
      PROVIDER_NAME, JobTitle(locale), BASE_URL, [PROVIDER_PROFILE],
      "4.9", "47", "5", "1",
      "customer service", CONTACT_EMAIL, ["Spanish", "English"],
      PRICE_RANGE)
  }

  function BuildFaqPage(pageUrl: string, faqs: seq<(string, string)>): SchemaNode {
    FaqPage(pageUrl + "#faq", seq(|faqs|, i requires 0 <= i < |faqs| => Question(faqs[i].0, faqs[i].1)))
  }

  /** `generateGeoSchema`: the FAQ page is appended only when there are FAQs. */
  function GenerateGeoSchema(service: ServicePattern, city: Municipality, locale: Locale,
                             content: SchemaContent): Schema {
    var slug := BuildSlug(service, city, locale);
    var pageUrl := BuildPageUrl(locale, slug);
    var graph := [BuildWebPage(pageUrl, locale, slug, content),
                  BuildBreadcrumbList(pageUrl, locale, slug, city, content),
                  BuildProfessionalService(pageUrl, locale, service, city, content)]
                 + BuildReviews(pageUrl);
    Schema(SCHEMA_CONTEXT, if |content.faqs| > 0 then graph + [BuildFaqPage(pageUrl, content.faqs)] else graph)
  }

  /** The `@id` fragment of each position of the graph. */
  const FRAGMENTS: seq<string> := ["#webpage", "#breadcrumb", "#service", "#review-1", "#review-2", "#faq"]

  /** The page URL of the schema of `service`, `city` and `locale`. */
  function PageUrlOf(service: ServicePattern, city: Municipality, locale: Locale): string {
    BuildPageUrl(locale, BuildSlug(service, city, locale))
  }

  /** The graph has the web page, the breadcrumb, the service and two reviews, in that order,
      then the FAQ page exactly when there are FAQs. */
  lemma GeoSchemaShape(service: ServicePattern, city: Municipality, locale: Locale, content: SchemaContent)
    ensures var g := GenerateGeoSchema(service, city, locale, content).graph;
      && GenerateGeoSchema(service, city, locale, content).context == SCHEMA_CONTEXT
      && |g| == (if |content.faqs| > 0 then 6 else 5)
      && g[0].WebPage? && g[1].BreadcrumbList? && g[2].ProfessionalService?
      && g[3].Review? && g[4].Review?
      && (|g| == 6 ==> g[5].FaqPage?)
  {
  }

  /** Every node's `@id` is the page URL followed by the fragment of its position, and the
      web page's `breadcrumb` reference is the breadcrumb's `@id`. */
  lemma GeoSchemaIds(service: ServicePattern, city: Municipality, locale: Locale, content: SchemaContent)
    ensures var g := GenerateGeoSchema(service, city, locale, content).graph;
      && (forall i :: 0 <= i < |g| ==> g[i].id == PageUrlOf(service, city, locale) + FRAGMENTS[i])
      && g[0].breadcrumb == g[1].id
  {
  }

  /** No two nodes of the graph share an `@id`. */
  lemma GeoSchemaIdsDistinct(service: ServicePattern, city: Municipality, locale: Locale, content: SchemaContent)
    ensures var g := GenerateGeoSchema(service, city, locale, content).graph;
      forall i, j :: 0 <= i < j < |g| ==> g[i].id != g[j].id
  {
    var g := GenerateGeoSchema(service, city, locale, content).graph;
    GeoSchemaIds(service, city, locale, content);
    FragmentsDistinct();
    forall i, j | 0 <= i < j < |g| ensures g[i].id != g[j].id {
      SuffixDiffers(PageUrlOf(service, city, locale), FRAGMENTS[i], FRAGMENTS[j]);
    }
  }

  lemma FragmentsDistinct()
    ensures forall i, j :: 0 <= i < j < |FRAGMENTS| ==> FRAGMENTS[i] != FRAGMENTS[j]
  {
  }

  /** Appending different suffixes to one prefix yields different strings. */
  lemma SuffixDiffers(prefix: string, a: string, b: string)
    requires a != b
    ensures prefix + a != prefix + b
  {
    assert (prefix + a)[|prefix|..] == a;
    assert (prefix + b)[|prefix|..] == b;
  }

  /** The breadcrumb lists the home page, the CCAA, the province and the page heading at
      positions 1 to 4; only the home item links, to the locale root. */
  lemma BreadcrumbItems(service: ServicePattern, city: Municipality, locale: Locale, content: SchemaContent)
    ensures var items := GenerateGeoSchema(service, city, locale, content).graph[1].itemListElement;
      && |items| == 4
      && (forall i :: 0 <= i < 4 ==> items[i].position == i + 1)
      && (forall i :: 0 <= i < 4 ==> (items[i].item.Some? <==> i == 0))
      && items[0].name == HomeLabel(locale) && items[0].item == Some(BASE_URL + "/" + LocaleCode(locale))
      && items[1].name == city.ccaa && items[2].name == city.provincia && items[3].name == content.h1
  {
  }

  /** The FAQ page asks each FAQ's question, in order, with its answer as the accepted one. */
  lemma FaqPageEntries(service: ServicePattern, city: Municipality, locale: Locale, content: SchemaContent)
    requires |content.faqs| > 0
    ensures var g := GenerateGeoSchema(service, city, locale, content).graph;
      && |g[5].mainEntity| == |content.faqs|
      && forall i :: 0 <= i < |content.faqs| ==>
           g[5].mainEntity[i].name == content.faqs[i].0 && g[5].mainEntity[i].acceptedAnswer == content.faqs[i].1
  {
  }

  /** The web page is the page URL in the locale's language, and the service node carries the
      pillar's service type. */
  lemma GeoSchemaPage(service: ServicePattern, city: Municipality, locale: Locale, content: SchemaContent)
    ensures var g := GenerateGeoSchema(service, city, locale, content).graph;
      && g[0].url == PageUrlOf(service, city, locale) == g[2].url
      && g[0].inLanguage == (if locale == Es then "es-ES" else "en-US")
      && g[2].serviceType == ServiceType(service.pilar)
  {
  }

  // ---------------------------------------------------------------------------
  // Round trip with parseGeoSlug
  // ---------------------------------------------------------------------------

  /** No service slug followed by a dash starts another pattern's slug followed by a dash. */
  predicate PrefixFreeServiceSlugs(servicePatterns: seq<ServicePattern>, locale: Locale) {
    forall i, j :: 0 <= i < |servicePatterns| && 0 <= j < |servicePatterns| && i != j ==>
      !GeoData.StartsWith(LocaleSlug(servicePatterns[j], locale) + "-", LocaleSlug(servicePatterns[i], locale) + "-")
  }

  /** The slug of a page built from the datasets parses (with unique slugs). */
  lemma BuildSlugParses(municipalities: seq<Municipality>, servicePatterns: seq<ServicePattern>,
                        service: ServicePattern, city: Municipality, locale: Locale)
    requires GeoData.UniqueServiceSlugs(servicePatterns, locale)
    requires GeoData.UniqueCitySlugs(municipalities)
    requires service in servicePatterns && city in municipalities && city.tier in service.tiers
    ensures GeoData.ParsedGeoSlug(municipalities, servicePatterns, BuildSlug(service, city, locale), locale).Some?
    ensures var m := GeoData.ParsedGeoSlug(municipalities, servicePatterns, BuildSlug(service, city, locale), locale).value;
      BuildSlug(m.service, m.city, locale) == BuildSlug(service, city, locale)
  {
    GeoData.ParsesBuiltSlug(municipalities, servicePatterns, service, city, locale);
    GeoData.ParseSound(municipalities, servicePatterns, BuildSlug(service, city, locale), locale);
  }

  /** Two prefixes of one string: the shorter starts the longer. */
  lemma PrefixesOfOne(s: string, p: string, q: string)
    requires GeoData.StartsWith(s, p) && GeoData.StartsWith(s, q)
    ensures GeoData.StartsWith(q, p) || GeoData.StartsWith(p, q)
  {
    if |p| <= |q| {
      assert q[..|p|] == s[..|p|];
    } else {
      assert p[..|q|] == s[..|q|];
    }
  }

  /** When no service slug is a dash-terminated prefix of another, parsing a built slug gives
      back exactly the service and the city it was built from. */
  lemma BuildSlugRoundTrip(municipalities: seq<Municipality>, servicePatterns: seq<ServicePattern>,
                           service: ServicePattern, city: Municipality, locale: Locale)
    requires PrefixFreeServiceSlugs(servicePatterns, locale)
    requires GeoData.UniqueCitySlugs(municipalities)
    requires service in servicePatterns && city in municipalities && city.tier in service.tiers
    ensures GeoData.ParsedGeoSlug(municipalities, servicePatterns, BuildSlug(service, city, locale), locale)
      == Some(GeoData.GeoMatch(service, city))
  {
    var slug := BuildSlug(service, city, locale);
    forall i, j | 0 <= i < j < |servicePatterns|
      ensures LocaleSlug(servicePatterns[i], locale) != LocaleSlug(servicePatterns[j], locale)
    {
      var p := LocaleSlug(servicePatterns[i], locale) + "-";
      if LocaleSlug(servicePatterns[i], locale) == LocaleSlug(servicePatterns[j], locale) {
        assert GeoData.StartsWith(p, p);
        assert false;
      }
    }
    BuildSlugParses(municipalities, servicePatterns, service, city, locale);
    var m := GeoData.ParsedGeoSlug(municipalities, servicePatterns, slug, locale).value;
    GeoData.ParseSound(municipalities, servicePatterns, slug, locale);
    var k :| 0 <= k < |servicePatterns| && servicePatterns[k] == service;
    var j :| 0 <= j < |servicePatterns| && servicePatterns[j] == m.service;
    var p := LocaleSlug(service, locale) + "-";
    var q := LocaleSlug(m.service, locale) + "-";
    assert slug == p + city.slug && slug == q + m.city.slug;
    assert slug[..|p|] == p && slug[..|q|] == q;
    PrefixesOfOne(slug, p, q);
    assert j == k;
    assert p == q;
    assert city.slug == slug[|p|..] == m.city.slug;
    var a :| 0 <= a < |municipalities| && municipalities[a] == city;
    var b :| 0 <= b < |municipalities| && municipalities[b] == m.city;
    assert a == b;
  }
}
