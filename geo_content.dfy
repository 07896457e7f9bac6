/** The localized page content of the geo landings (lib/geo/content.ts). The marketing
    copy is not modelled: each template yields a `Text` naming the service, locale, field
    and position it comes from, with the values interpolated into it. What is modelled is
    the lookup, the counts of the list templates and which location the texts name. */
module GeoContent {
  import opened Wrappers
  import opened GeoTypes
  import GeoData
  import GeoSeo

  /** The part of a service's content a template belongs to. */
  datatype Field =
    | Title | MetaDescription | H1 | Intro | WhyTitle | WhyPoint | FaqQuestion | FaqAnswer
    | CtaTitle | CtaDescription | StepTitle | StepDescription
    | CtaButtonText | CtaSecondaryText | UrgencyMessage | TrustStat

  /** An instance of a template: which text it is, and the values placed into it. */
  datatype Text = Text(service: string, locale: Locale, field: Field, index: nat, args: seq<string>)

  /** How a service's intro names a city that is not its own province: after a comma, the
      province; after "y" / "and", the province; or after "y toda" / "and across", the CCAA. */
  datatype IntroScope = Comma | AndProvince | AndCcaa

  /** The content entry of a service in one locale. */
  datatype ServiceContent = ServiceContent(service: string, locale: Locale, introScope: IntroScope)

  /** `esContent`. */
  const ES_CONTENT: map<string, ServiceContent> := map[
    "agencia-seo" := ServiceContent("agencia-seo", Es, Comma),
    "posicionamiento-web" := ServiceContent("posicionamiento-web", Es, AndProvince),
    "consultor-seo" := ServiceContent("consultor-seo", Es, Comma),
    "experto-seo" := ServiceContent("experto-seo", Es, AndCcaa),
    "consultoria-ia" := ServiceContent("consultoria-ia", Es, AndCcaa),
    "automatizacion-ia" := ServiceContent("automatizacion-ia", Es, AndProvince),
    "growth-marketing" := ServiceContent("growth-marketing", Es, AndCcaa),
    "posicionamiento-ia" := ServiceContent("posicionamiento-ia", Es, AndCcaa)
  ]

  /** `enContent`. */
  const EN_CONTENT: map<string, ServiceContent> := map[
    "agencia-seo" := ServiceContent("agencia-seo", En, Comma),
    "posicionamiento-web" := ServiceContent("posicionamiento-web", En, AndProvince),
    "consultor-seo" := ServiceContent("consultor-seo", En, Comma),
    "experto-seo" := ServiceContent("experto-seo", En, AndCcaa),
    "consultoria-ia" := ServiceContent("consultoria-ia", En, AndCcaa),
    "automatizacion-ia" := ServiceContent("automatizacion-ia", En, AndProvince),
    "growth-marketing" := ServiceContent("growth-marketing", En, AndCcaa),
    "posicionamiento-ia" := ServiceContent("posicionamiento-ia", En, AndCcaa)
  ]

  /** The map `getServiceContent` reads for a locale. */
  function ContentMap(locale: Locale): map<string, ServiceContent> {
    if locale == Es then ES_CONTENT else EN_CONTENT
  }

  /** `getServiceContent`: the entry of the locale's map, an error when it has none. */
  function GetServiceContent(serviceSlugEs: string, locale: Locale): (r: Result<ServiceContent, string>)
    ensures r.Success? <==> serviceSlugEs in ContentMap(locale)
    ensures r.Success? ==> r.value == ContentMap(locale)[serviceSlugEs]
    ensures r.Failure? ==> r.error == "No content found for service \"" + serviceSlugEs + "\" in locale \"" + LocaleCode(locale) + "\""
  {
    var contentMap := ContentMap(locale);
    if serviceSlugEs in contentMap then Success(contentMap[serviceSlugEs])
    else Failure("No content found for service \"" + serviceSlugEs + "\" in locale \"" + LocaleCode(locale) + "\"")
  }

  /** Both locales define content for exactly the services that have display names. */
  lemma ContentKeys()
    ensures ES_CONTENT.Keys == EN_CONTENT.Keys == GeoData.SERVICE_NAMES.Keys
  {
  }

  /** Every entry is the content of the service it is filed under, in its map's locale. */
  lemma ContentEntries(serviceSlugEs: string, locale: Locale)
    requires serviceSlugEs in ContentMap(locale)
    ensures ContentMap(locale)[serviceSlugEs].service == serviceSlugEs
    ensures ContentMap(locale)[serviceSlugEs].locale == locale
  {
  }

  /** The lookup succeeds exactly for the services with display names, whatever the locale,
      and the scope of the intro does not depend on the locale. */
  lemma GetServiceContentSpec(serviceSlugEs: string, locale: Locale)
    ensures GetServiceContent(serviceSlugEs, locale).Success? <==> serviceSlugEs in GeoData.SERVICE_NAMES
    ensures GetServiceContent(serviceSlugEs, locale).Success? ==>
      && GetServiceContent(serviceSlugEs, locale).value.service == serviceSlugEs
      && GetServiceContent(serviceSlugEs, locale).value.locale == locale
      && GetServiceContent(serviceSlugEs, locale).value.introScope
           == GetServiceContent(serviceSlugEs, Es).value.introScope
  {
    ContentKeys();
    if serviceSlugEs in ContentMap(locale) {
      ContentEntries(serviceSlugEs, locale);
      ContentEntries(serviceSlugEs, Es);
    }
  }

  // ---------------------------------------------------------------------------
  // The location the texts name
  // ---------------------------------------------------------------------------

  /** "en " or "in ". */
  function Preposition(locale: Locale): string {
    if locale == Es then "en " else "in "
  }

  /** The location of the meta description: the city, and its province after a comma when
      the city is not the province itself. */
  function MetaLocation(locale: Locale, city: string, province: string): (r: string)
    ensures r == Preposition(locale) + city <==> city == province
    ensures city != province ==> GeoData.StartsWith(r, Preposition(locale) + city + ", ") && EndsWith(r, province)
  {
    var prep := Preposition(locale);
    if city == province then prep + city
    else
      var r := prep + city + ", " + province;
      assert r[..|prep + city + ", "|] == prep + city + ", ";
      assert r[|r| - |province|..] == province;
      r
  }

  predicate EndsWith(s: string, suffix: string) {
    |suffix| <= |s| && s[|s| - |suffix|..] == suffix
  }

  /** The word(s) between the city and the wider area in an intro. */
  function Joiner(scope: IntroScope, locale: Locale): string {
    match (scope, locale)
    case (Comma, _) => ", "
    case (AndProvince, Es) => " y "
    case (AndProvince, En) => " and "
    case (AndCcaa, Es) => " y toda "
    case (AndCcaa, En) => " and across "
  }

  /** The location of the intro: the city alone when it is its province, otherwise the
      city, the joiner and the province or, for the CCAA-wide services, the CCAA. */
  function IntroLocation(content: ServiceContent, city: string, province: string, ccaa: string): (r: string)
    ensures r == city <==> city == province
    ensures city != province ==>
      var area := if content.introScope == AndCcaa then ccaa else province;
      GeoData.StartsWith(r, city) && EndsWith(r, area)
  {
    if city == province then city
    else
      var area := if content.introScope == AndCcaa then ccaa else province;
      var r := city + Joiner(content.introScope, content.locale) + area;
      assert |Joiner(content.introScope, content.locale)| > 0;
      assert r[..|city|] == city;
      assert r[|r| - |area|..] == area;
      r
  }

  // ---------------------------------------------------------------------------
  // The templates
  // ---------------------------------------------------------------------------

  function TitleText(content: ServiceContent, city: string): Text {
    Text(content.service, content.locale, Title, 0, [city])
  }

  function MetaDescriptionText(content: ServiceContent, city: string, province: string, ccaa: string): Text {
    Text(content.service, content.locale, MetaDescription, 0, [MetaLocation(content.locale, city, province)])
  }

  function H1Text(content: ServiceContent, city: string): Text {
    Text(content.service, content.locale, H1, 0, [city])
  }

  function IntroText(content: ServiceContent, city: string, province: string, ccaa: string): Text {
    Text(content.service, content.locale, Intro, 0, [IntroLocation(content, city, province, ccaa)])
  }

  function WhyTitleText(content: ServiceContent, city: string): Text {
    Text(content.service, content.locale, WhyTitle, 0, [city])
  }

  /** `whyPoints`: four points. */
  function WhyPoints(content: ServiceContent, city: string): (r: seq<Text>)
    ensures |r| == 4
    ensures forall i :: 0 <= i < 4 ==> r[i].field == WhyPoint && r[i].index == i
  {
    seq(4, i requires 0 <= i => Text(content.service, content.locale, WhyPoint, i, [city]))
  }

  /** `faqs`: four question and answer pairs. */
  function Faqs(content: ServiceContent, city: string, province: string): (r: seq<(Text, Text)>)
    ensures |r| == 4
    ensures forall i :: 0 <= i < 4 ==>
      r[i].0.field == FaqQuestion && r[i].1.field == FaqAnswer && r[i].0.index == r[i].1.index == i
  {
    seq(4, i requires 0 <= i => (Text(content.service, content.locale, FaqQuestion, i, [city, province]),
                 Text(content.service, content.locale, FaqAnswer, i, [city, province])))
  }

  function CtaTitleText(content: ServiceContent, city: string): Text {
    Text(content.service, content.locale, CtaTitle, 0, [city])
  }

  function CtaDescriptionText(content: ServiceContent, city: string): Text {
    Text(content.service, content.locale, CtaDescription, 0, [city])
  }

  /** `processSteps`: four (title, description) steps that name no city. */
  function ProcessSteps(content: ServiceContent): (r: seq<(Text, Text)>)
    ensures |r| == 4
    ensures forall i :: 0 <= i < 4 ==> r[i].0.args == [] && r[i].1.args == []
  {
    seq(4, i requires 0 <= i => (Text(content.service, content.locale, StepTitle, i, []),
                 Text(content.service, content.locale, StepDescription, i, [])))
  }

  function CtaButton(content: ServiceContent): Text {
    Text(content.service, content.locale, CtaButtonText, 0, [])
  }

  function CtaSecondary(content: ServiceContent): Text {
    Text(content.service, content.locale, CtaSecondaryText, 0, [])
  }

  function Urgency(content: ServiceContent): Text {
    Text(content.service, content.locale, UrgencyMessage, 0, [])
  }

  function Trust(content: ServiceContent): Text {
    Text(content.service, content.locale, TrustStat, 0, [])
  }

  /** The meta description of every service names the city alone exactly when the city is
      its own province. */
  lemma MetaDescriptionCityOnly(serviceSlugEs: string, locale: Locale, city: string, province: string, ccaa: string)
    requires GetServiceContent(serviceSlugEs, locale).Success?
    ensures var c := GetServiceContent(serviceSlugEs, locale).value;
      MetaDescriptionText(c, city, province, ccaa).args == [Preposition(locale) + city] <==> city == province
  {
    ContentEntries(serviceSlugEs, locale);
  }

  /** The intro of every service names the city alone exactly when the city is its own
      province; otherwise it ends on the CCAA for the CCAA-wide services and on the
      province for the others. */
  lemma IntroCityOnly(serviceSlugEs: string, locale: Locale, city: string, province: string, ccaa: string)
    requires GetServiceContent(serviceSlugEs, locale).Success?
    ensures var c := GetServiceContent(serviceSlugEs, locale).value;
      IntroText(c, city, province, ccaa).args == [city] <==> city == province
    ensures var c := GetServiceContent(serviceSlugEs, locale).value;
      city != province ==>
        EndsWith(IntroLocation(c, city, province, ccaa), if c.introScope == AndCcaa then ccaa else province)
  {
  }

  /** The experto-seo intro reaches out to the CCAA, the agencia-seo intro to the province. */
  lemma IntroScopes(locale: Locale)
    ensures GetServiceContent("experto-seo", locale).Success?
    ensures GetServiceContent("experto-seo", locale).value.introScope == AndCcaa
    ensures GetServiceContent("agencia-seo", locale).Success?
    ensures GetServiceContent("agencia-seo", locale).value.introScope == Comma
  {
  }

  // ---------------------------------------------------------------------------
  // getSectionLabels
  // ---------------------------------------------------------------------------

  datatype SectionLabels = SectionLabels(
    breadcrumbHome: string,
    otherCitiesProvince: string,
    otherCitiesCCAA: string,
    otherServices: string,
    faqTitle: string,
    ctaButton: string,
    relatedCities: string)

  /** `getSectionLabels`: Spanish labels for "es", English otherwise. */
  function GetSectionLabels(locale: Locale): (r: SectionLabels)
    ensures r.breadcrumbHome == GeoSeo.HomeLabel(locale)
  {
    if locale == Es then
      SectionLabels("Inicio", "en {province}", "en toda {ccaa}", "Otros servicios en {city}",
                    "Preguntas frecuentes", "Solicitar briefing gratuito", "Ciudades relacionadas")
    else
      SectionLabels("Home", "in {province}", "across {ccaa}", "Other services in {city}",
                    "Frequently asked questions", "Request free briefing", "Related cities")
  }
}
