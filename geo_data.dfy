/** Slug resolution and related-content queries of the geo-landing pages
    (lib/geo/data.ts). The three datasets the source loads from JSON files,
    `municipalities`, `servicePatterns` and `geoUrls`, are parameters here. */
module GeoData {
  import opened Wrappers
  import opened GeoTypes
  import opened Seqs
  import opened Sorting
  import JsMap

  datatype ServiceName = ServiceName(es: string, en: string)

  /** Display names of the service slugs. */
  const SERVICE_NAMES: map<string, ServiceName> := map[
    "agencia-seo" := ServiceName("Agencia SEO", "SEO Agency"),
    "posicionamiento-web" := ServiceName("Posicionamiento Web", "Web Positioning"),
    "consultor-seo" := ServiceName("Consultor SEO", "SEO Consultant"),
    "experto-seo" := ServiceName("Experto SEO", "SEO Expert"),
    "consultoria-ia" := ServiceName("Consultoría IA", "AI Consulting"),
    "automatizacion-ia" := ServiceName("Automatización IA", "AI Automation"),
    "growth-marketing" := ServiceName("Growth Marketing", "Growth Marketing"),
    "posicionamiento-ia" := ServiceName("Posicionamiento IA", "AI Search Optimization")
  ]

  // ---------------------------------------------------------------------------
  // The lookup maps built when the module loads
  // ---------------------------------------------------------------------------

  function ServicePairs(servicePatterns: seq<ServicePattern>, locale: Locale): seq<(string, ServicePattern)> {
    seq(|servicePatterns|, i requires 0 <= i < |servicePatterns| =>
      (LocaleSlug(servicePatterns[i], locale), servicePatterns[i]))
  }

  /** `serviceMapEs` / `serviceMapEn`: service slug of the locale to its pattern. */
  function ServiceMap(servicePatterns: seq<ServicePattern>, locale: Locale): JsMap.Entries<string, ServicePattern> {
    JsMap.FromEntries(ServicePairs(servicePatterns, locale))
  }

  function CityPairs(municipalities: seq<Municipality>): seq<(string, Municipality)> {
    seq(|municipalities|, i requires 0 <= i < |municipalities| =>
      (municipalities[i].slug, municipalities[i]))
  }

  /** `cityMap`: city slug to its municipality. */
  function CityMap(municipalities: seq<Municipality>): JsMap.Entries<string, Municipality> {
    JsMap.FromEntries(CityPairs(municipalities))
  }

  /** Every entry of the service map holds a pattern of the dataset under that pattern's slug. */
  lemma ServiceMapEntry(servicePatterns: seq<ServicePattern>, locale: Locale, e: (string, ServicePattern))
    requires e in ServiceMap(servicePatterns, locale)
    ensures e.1 in servicePatterns && e.0 == LocaleSlug(e.1, locale)
  {
    var i :| 0 <= i < |servicePatterns| && ServicePairs(servicePatterns, locale)[i] == e;
  }

  /** Every city the city map answers is a municipality of the dataset with that slug. */
  lemma CityMapGet(municipalities: seq<Municipality>, citySlug: string)
    requires JsMap.Get(CityMap(municipalities), citySlug).Some?
    ensures var city := JsMap.Get(CityMap(municipalities), citySlug).value;
      city in municipalities && city.slug == citySlug
  {
    var city := JsMap.Get(CityMap(municipalities), citySlug).value;
    assert (citySlug, city) in CityPairs(municipalities);
    var i :| 0 <= i < |municipalities| && CityPairs(municipalities)[i] == (citySlug, city);
  }

  // ---------------------------------------------------------------------------
  // parseGeoSlug
  // ---------------------------------------------------------------------------

  datatype GeoMatch = GeoMatch(service: ServicePattern, city: Municipality)

  predicate StartsWith(s: string, prefix: string) {
    |prefix| <= |s| && s[..|prefix|] == prefix
  }

  /** The service `prefix` accepts `slug`: the slug starts with the prefix and a dash, and
      the rest names a known city whose tier the service is offered in. */
  predicate Accepts(prefix: string, service: ServicePattern, cityMap: JsMap.Entries<string, Municipality>, slug: string) {
    && StartsWith(slug, prefix + "-")
    && var city := JsMap.Get(cityMap, slug[|prefix| + 1..]);
       city.Some? && city.value.tier in service.tiers
  }

  /** The outcome of trying the service prefixes in map order; the first that accepts wins. */
  function FirstMatch(services: JsMap.Entries<string, ServicePattern>, cityMap: JsMap.Entries<string, Municipality>,
                      slug: string): Option<GeoMatch>
  {
    if services == [] then None
    else if Accepts(services[0].0, services[0].1, cityMap, slug) then
      Some(GeoMatch(services[0].1, JsMap.Get(cityMap, slug[|services[0].0| + 1..]).value))
    else FirstMatch(services[1..], cityMap, slug)
  }

  /** What `parseGeoSlug(slug, locale)` returns over the given datasets. */
  function ParsedGeoSlug(municipalities: seq<Municipality>, servicePatterns: seq<ServicePattern>,
                         slug: string, locale: Locale): Option<GeoMatch>
  {
    FirstMatch(ServiceMap(servicePatterns, locale), CityMap(municipalities), slug)
  }

  /** `parseGeoSlug`: split a combined slug into its service and its city. */
  method ParseGeoSlug(municipalities: seq<Municipality>, servicePatterns: seq<ServicePattern>,
                      slug: string, locale: Locale) returns (r: Option<GeoMatch>)
    ensures r == ParsedGeoSlug(municipalities, servicePatterns, slug, locale)
  {
    var services := ServiceMap(servicePatterns, locale);
    var cityMap := CityMap(municipalities);
    for i := 0 to |services|
      invariant FirstMatch(services[i..], cityMap, slug) == FirstMatch(services, cityMap, slug)
    {
      assert services[i..][1..] == services[i + 1..];
      var (prefix, service) := services[i];
      if StartsWith(slug, prefix + "-") {
        var citySlug := slug[|prefix| + 1..];
        var city := JsMap.Get(cityMap, citySlug);
        if city.Some? && city.value.tier in service.tiers {
          return Some(GeoMatch(service, city.value));
        }
      }
    }
    return None;
  }

  lemma {:induction false} FirstMatchSpec(services: JsMap.Entries<string, ServicePattern>,
                                          cityMap: JsMap.Entries<string, Municipality>, slug: string)
    ensures FirstMatch(services, cityMap, slug).None? <==>
      forall i :: 0 <= i < |services| ==> !Accepts(services[i].0, services[i].1, cityMap, slug)
    ensures FirstMatch(services, cityMap, slug).Some? ==>
      exists i :: 0 <= i < |services| && Accepts(services[i].0, services[i].1, cityMap, slug) &&
        FirstMatch(services, cityMap, slug).value.service == services[i].1 &&
        JsMap.Get(cityMap, slug[|services[i].0| + 1..]) == Some(FirstMatch(services, cityMap, slug).value.city) &&
        forall j :: 0 <= j < i ==> !Accepts(services[j].0, services[j].1, cityMap, slug)
  {
    if services != [] && !Accepts(services[0].0, services[0].1, cityMap, slug) {
      var tail := services[1..];
      FirstMatchSpec(tail, cityMap, slug);
      if FirstMatch(services, cityMap, slug).Some? {
        var m := FirstMatch(services, cityMap, slug).value;
        var i :| 0 <= i < |tail| && Accepts(tail[i].0, tail[i].1, cityMap, slug) &&
          m.service == tail[i].1 && JsMap.Get(cityMap, slug[|tail[i].0| + 1..]) == Some(m.city) &&
          forall j :: 0 <= j < i ==> !Accepts(tail[j].0, tail[j].1, cityMap, slug);
        assert services[i + 1] == tail[i];
        forall j | 0 <= j < i + 1 ensures !Accepts(services[j].0, services[j].1, cityMap, slug) {
          if j > 0 { assert services[j] == tail[j - 1]; }
        }
      } else {
        forall i | 0 <= i < |services| ensures !Accepts(services[i].0, services[i].1, cityMap, slug) {
          if i > 0 { assert services[i] == services[1..][i - 1]; }
        }
      }
    }
  }

  lemma StartsWithSplit(s: string, prefix: string)
    requires StartsWith(s, prefix + "-")
    ensures s == prefix + "-" + s[|prefix| + 1..]
  {
    assert s == s[..|prefix| + 1] + s[|prefix| + 1..];
  }

  /** A successful parse splits the slug into the service's slug of that locale, a dash and
      the city's slug; the city's tier is one the service is offered in; and both come from
      the datasets. */
  lemma ParseSound(municipalities: seq<Municipality>, servicePatterns: seq<ServicePattern>,
                   slug: string, locale: Locale)
    requires ParsedGeoSlug(municipalities, servicePatterns, slug, locale).Some?
    ensures var m := ParsedGeoSlug(municipalities, servicePatterns, slug, locale).value;
      && slug == LocaleSlug(m.service, locale) + "-" + m.city.slug
      && m.city.tier in m.service.tiers
      && m.service in servicePatterns
      && m.city in municipalities
  {
    var services := ServiceMap(servicePatterns, locale);
    var cityMap := CityMap(municipalities);
    var m := ParsedGeoSlug(municipalities, servicePatterns, slug, locale).value;
    FirstMatchSpec(services, cityMap, slug);
    var i :| 0 <= i < |services| && Accepts(services[i].0, services[i].1, cityMap, slug) &&
      m.service == services[i].1 && JsMap.Get(cityMap, slug[|services[i].0| + 1..]) == Some(m.city);
    ServiceMapEntry(servicePatterns, locale, services[i]);
    CityMapGet(municipalities, slug[|services[i].0| + 1..]);
    StartsWithSplit(slug, services[i].0);
  }

  /** No two patterns share a slug in the locale. */
  predicate UniqueServiceSlugs(servicePatterns: seq<ServicePattern>, locale: Locale) {
    forall i, j :: 0 <= i < j < |servicePatterns| ==>
      LocaleSlug(servicePatterns[i], locale) != LocaleSlug(servicePatterns[j], locale)
  }

  /** No two municipalities share a slug. */
  predicate UniqueCitySlugs(municipalities: seq<Municipality>) {
    forall i, j :: 0 <= i < j < |municipalities| ==> municipalities[i].slug != municipalities[j].slug
  }

  /** With unique slugs, the service map answers each pattern's slug with that pattern. */
  lemma ServiceMapGet(servicePatterns: seq<ServicePattern>, locale: Locale, k: nat)
    requires UniqueServiceSlugs(servicePatterns, locale)
    requires k < |servicePatterns|
    ensures JsMap.Get(ServiceMap(servicePatterns, locale), LocaleSlug(servicePatterns[k], locale)) == Some(servicePatterns[k])
    ensures (LocaleSlug(servicePatterns[k], locale), servicePatterns[k]) in ServiceMap(servicePatterns, locale)
  {
    var pairs := ServicePairs(servicePatterns, locale);
    var key := LocaleSlug(servicePatterns[k], locale);
    assert pairs[k] == (key, servicePatterns[k]);
    forall j | 0 <= j < |pairs| && j != k ensures pairs[j].0 != key {
      assert pairs[j].0 == LocaleSlug(servicePatterns[j], locale);
    }
    JsMap.LastValueUnique(pairs, k);
    JsMap.FromEntriesGet(pairs, key);
  }

  /** With unique slugs, the city map answers each municipality's slug with that municipality. */
  lemma CityMapGetUnique(municipalities: seq<Municipality>, k: nat)
    requires UniqueCitySlugs(municipalities)
    requires k < |municipalities|
    ensures JsMap.Get(CityMap(municipalities), municipalities[k].slug) == Some(municipalities[k])
  {
    var pairs := CityPairs(municipalities);
    var key := municipalities[k].slug;
    assert pairs[k] == (key, municipalities[k]);
    forall j | 0 <= j < |pairs| && j != k ensures pairs[j].0 != key {
      assert pairs[j].0 == municipalities[j].slug;
    }
    JsMap.LastValueUnique(pairs, k);
    JsMap.FromEntriesGet(pairs, key);
  }

  /** With unique slugs in the datasets, parsing fails exactly when no service slug, a dash
      and a city slug spell the slug with the city's tier among the service's tiers. */
  lemma ParseNoneIff(municipalities: seq<Municipality>, servicePatterns: seq<ServicePattern>,
                     slug: string, locale: Locale)
    requires UniqueServiceSlugs(servicePatterns, locale)
    requires UniqueCitySlugs(municipalities)
    ensures ParsedGeoSlug(municipalities, servicePatterns, slug, locale).None? <==>
      forall s, c :: s in servicePatterns && c in municipalities && c.tier in s.tiers ==>
        slug != LocaleSlug(s, locale) + "-" + c.slug
  {
    if ParsedGeoSlug(municipalities, servicePatterns, slug, locale).Some? {
      ParseSound(municipalities, servicePatterns, slug, locale);
    } else {
      forall s, c | s in servicePatterns && c in municipalities && c.tier in s.tiers
        ensures slug != LocaleSlug(s, locale) + "-" + c.slug
      {
        if slug == LocaleSlug(s, locale) + "-" + c.slug {
          ParsesBuiltSlug(municipalities, servicePatterns, s, c, locale);
        }
      }
    }
  }

  /** A slug spelled from a pattern and a municipality of the (unique-slug) datasets, with the
      municipality's tier offered by the service, does parse. */
  lemma ParsesBuiltSlug(municipalities: seq<Municipality>, servicePatterns: seq<ServicePattern>,
                        s: ServicePattern, c: Municipality, locale: Locale)
    requires UniqueServiceSlugs(servicePatterns, locale)
    requires UniqueCitySlugs(municipalities)
    requires s in servicePatterns && c in municipalities && c.tier in s.tiers
    ensures ParsedGeoSlug(municipalities, servicePatterns, LocaleSlug(s, locale) + "-" + c.slug, locale).Some?
  {
    var slug := LocaleSlug(s, locale) + "-" + c.slug;
    var prefix := LocaleSlug(s, locale);
    var services := ServiceMap(servicePatterns, locale);
    var cityMap := CityMap(municipalities);
    var k :| 0 <= k < |servicePatterns| && servicePatterns[k] == s;
    var n :| 0 <= n < |municipalities| && municipalities[n] == c;
    ServiceMapGet(servicePatterns, locale, k);
    CityMapGetUnique(municipalities, n);
    var i :| 0 <= i < |services| && services[i] == (prefix, s);
    assert slug[..|prefix + "-"|] == prefix + "-";
    assert slug[|prefix| + 1..] == c.slug;
    assert Accepts(services[i].0, services[i].1, cityMap, slug);
    FirstMatchSpec(services, cityMap, slug);
  }

  // ---------------------------------------------------------------------------
  // Filters over the geo URLs, municipality lookup, static params
  // ---------------------------------------------------------------------------

  /** `getUrlsByPilar`. */
  function UrlsByPilar(geoUrls: seq<GeoUrl>, pilar: Pilar): (r: seq<GeoUrl>)
    ensures forall u :: multiset(r)[u] == if u.pilar == pilar then multiset(geoUrls)[u] else 0
    ensures IsSubseq(r, geoUrls)
  {
    var keep := (u: GeoUrl) => u.pilar == pilar;
    FilterCounts(geoUrls, keep);
    FilterSubseq(geoUrls, keep);
    Filter(geoUrls, keep)
  }

  /** `getUrlsByTier`. */
  function UrlsByTier(geoUrls: seq<GeoUrl>, tier: Tier): (r: seq<GeoUrl>)
    ensures forall u :: multiset(r)[u] == if u.tier == tier then multiset(geoUrls)[u] else 0
    ensures IsSubseq(r, geoUrls)
  {
    var keep := (u: GeoUrl) => u.tier == tier;
    FilterCounts(geoUrls, keep);
    FilterSubseq(geoUrls, keep);
    Filter(geoUrls, keep)
  }

  /** `getUrlsByCity`. */
  function UrlsByCity(geoUrls: seq<GeoUrl>, citySlug: string): (r: seq<GeoUrl>)
    ensures forall u :: multiset(r)[u] == if u.citySlug == citySlug then multiset(geoUrls)[u] else 0
    ensures IsSubseq(r, geoUrls)
  {
    var keep := (u: GeoUrl) => u.citySlug == citySlug;
    FilterCounts(geoUrls, keep);
    FilterSubseq(geoUrls, keep);
    Filter(geoUrls, keep)
  }

  /** `getMunicipality`: the municipality with that slug; when several share it, the last one. */
  function GetMunicipality(municipalities: seq<Municipality>, slug: string): (r: Option<Municipality>)
    ensures r.Some? <==> exists i :: 0 <= i < |municipalities| && municipalities[i].slug == slug
    ensures r.Some? ==> r.value.slug == slug
    ensures r.Some? ==>
      exists i :: 0 <= i < |municipalities| && municipalities[i] == r.value &&
        forall j :: i < j < |municipalities| ==> municipalities[j].slug != slug
  {
    var pairs := CityPairs(municipalities);
    JsMap.FromEntriesGet(pairs, slug);
    JsMap.LastValueSpec(pairs, slug);
    assert forall i :: 0 <= i < |municipalities| ==> pairs[i].0 == municipalities[i].slug;
    JsMap.Get(CityMap(municipalities), slug)
  }

  datatype RouteParams = RouteParams(slug: string)

  /** `s.slice(1)`. */
  function DropFirst(s: string): string {
    if s == [] then [] else s[1..]
  }

  /** `generateGeoStaticParams`: one route per geo URL, its slug the locale's URL without
      its first character (the leading slash). */
  function GeoStaticParams(geoUrls: seq<GeoUrl>, locale: Locale): (r: seq<RouteParams>)
    ensures |r| == |geoUrls|
    ensures forall i :: 0 <= i < |geoUrls| && LocaleUrl(geoUrls[i], locale) != [] ==>
      [LocaleUrl(geoUrls[i], locale)[0]] + r[i].slug == LocaleUrl(geoUrls[i], locale)
    ensures forall i :: 0 <= i < |geoUrls| && LocaleUrl(geoUrls[i], locale) == [] ==> r[i].slug == []
  {
    seq(|geoUrls|, i requires 0 <= i < |geoUrls| => RouteParams(DropFirst(LocaleUrl(geoUrls[i], locale))))
  }

  // ---------------------------------------------------------------------------
  // Ordering by population
  // ---------------------------------------------------------------------------

  /** The comparator `(a, b) => b.population - a.population`: `a` may stay in front of `b`
      when it is at least as populous. */
  predicate ByPopulation(a: GeoUrl, b: GeoUrl) {
    a.population >= b.population
  }

  lemma ByPopulationTotalPreorder()
    ensures TotalPreorder(ByPopulation)
  {
  }

  /** `.sort((a, b) => b.population - a.population)`. */
  function SortByPopulation(s: seq<GeoUrl>): (r: seq<GeoUrl>)
    ensures multiset(r) == multiset(s)
    ensures forall i, j :: 0 <= i < j < |r| ==> r[i].population >= r[j].population
  {
    ByPopulationTotalPreorder();
    SortSorted(s, ByPopulation);
    Sort(s, ByPopulation)
  }

  /** URLs of equal population keep the order they had. */
  lemma SortByPopulationStable(s: seq<GeoUrl>, population: int)
    ensures var samePopulation := (u: GeoUrl) => u.population == population;
      Filter(SortByPopulation(s), samePopulation) == Filter(s, samePopulation)
  {
    ByPopulationTotalPreorder();
    SortStable(s, ByPopulation, (u: GeoUrl) => u.population == population);
  }

  // ---------------------------------------------------------------------------
  // getRelatedCitiesInProvince
  // ---------------------------------------------------------------------------

  datatype CityLink = CityLink(name: string, slug: string, url: string, population: int)

  function ToCityLink(u: GeoUrl): CityLink {
    CityLink(u.city, u.citySlug, u.urlEs, u.population)
  }

  /** The geo URLs of the province and service, other than the excluded city's. */
  function ProvinceCandidates(geoUrls: seq<GeoUrl>, province: string, serviceSlugEs: string,
                              excludeCitySlug: string): (r: seq<GeoUrl>)
    ensures forall u :: u in r <==>
      u in geoUrls && u.province == province && u.serviceEs == serviceSlugEs && u.citySlug != excludeCitySlug
  {
    Filter(geoUrls, (u: GeoUrl) =>
      u.province == province && u.serviceEs == serviceSlugEs && u.citySlug != excludeCitySlug)
  }

  /** `getRelatedCitiesInProvince`. */
  function RelatedCitiesInProvince(geoUrls: seq<GeoUrl>, province: string, serviceSlugEs: string,
                                   excludeCitySlug: string, limit: int := 12): (r: seq<CityLink>)
    ensures |r| == SliceLength(|ProvinceCandidates(geoUrls, province, serviceSlugEs, excludeCitySlug)|, limit)
    ensures 0 <= limit ==> |r| <= limit
  {
    var top := SliceTo(SortByPopulation(ProvinceCandidates(geoUrls, province, serviceSlugEs, excludeCitySlug)), limit);
    seq(|top|, i requires 0 <= i < |top| => ToCityLink(top[i]))
  }

  /** The related cities of a province are links of URLs of that province and service, never
      the excluded city, most populous first, and at most `limit` of them (all when fewer match). */
  lemma RelatedCitiesInProvinceSpec(geoUrls: seq<GeoUrl>, province: string, serviceSlugEs: string,
                                    excludeCitySlug: string, limit: int)
    ensures var r := RelatedCitiesInProvince(geoUrls, province, serviceSlugEs, excludeCitySlug, limit);
      && |r| == SliceLength(|ProvinceCandidates(geoUrls, province, serviceSlugEs, excludeCitySlug)|, limit)
      && (forall i :: 0 <= i < |r| ==>
            (exists u :: u in geoUrls && u.province == province &&
               u.serviceEs == serviceSlugEs && u.citySlug != excludeCitySlug && r[i] == ToCityLink(u)))
      && (forall i, j :: 0 <= i < j < |r| ==> r[i].population >= r[j].population)
  {
    var candidates := ProvinceCandidates(geoUrls, province, serviceSlugEs, excludeCitySlug);
    var sorted := SortByPopulation(candidates);
    var top := SliceTo(sorted, limit);
    var r := RelatedCitiesInProvince(geoUrls, province, serviceSlugEs, excludeCitySlug, limit);
    forall i | 0 <= i < |r| ensures exists u :: u in candidates && r[i] == ToCityLink(u) {
      assert top[i] in multiset(sorted);
    }
  }

  /** The links are those of distinct candidates: each candidate gives at most one link, so
      when no more than `limit` match, every candidate is listed. */
  lemma RelatedCitiesInProvinceDistinct(geoUrls: seq<GeoUrl>, province: string, serviceSlugEs: string,
                                        excludeCitySlug: string, limit: int)
    ensures var r := RelatedCitiesInProvince(geoUrls, province, serviceSlugEs, excludeCitySlug, limit);
      exists top: seq<GeoUrl> ::
        && |top| == |r|
        && multiset(top) <= multiset(ProvinceCandidates(geoUrls, province, serviceSlugEs, excludeCitySlug))
        && forall i :: 0 <= i < |r| ==> r[i] == ToCityLink(top[i])
  {
    var candidates := ProvinceCandidates(geoUrls, province, serviceSlugEs, excludeCitySlug);
    var sorted := SortByPopulation(candidates);
    var top := SliceTo(sorted, limit);
    var r := RelatedCitiesInProvince(geoUrls, province, serviceSlugEs, excludeCitySlug, limit);
    SliceToSubMultiset(sorted, limit);
    assert forall i :: 0 <= i < |r| ==> r[i] == ToCityLink(top[i]);
  }

  /** No matching URL is left out of the related cities while a less populous one is listed. */
  lemma RelatedCitiesInProvinceTop(geoUrls: seq<GeoUrl>, province: string, serviceSlugEs: string,
                                   excludeCitySlug: string, limit: int, u: GeoUrl, i: nat)
    requires u in ProvinceCandidates(geoUrls, province, serviceSlugEs, excludeCitySlug)
    requires var r := RelatedCitiesInProvince(geoUrls, province, serviceSlugEs, excludeCitySlug, limit);
      i < |r| && r[i].population < u.population
    ensures ToCityLink(u) in RelatedCitiesInProvince(geoUrls, province, serviceSlugEs, excludeCitySlug, limit)
  {
    var candidates := ProvinceCandidates(geoUrls, province, serviceSlugEs, excludeCitySlug);
    var sorted := SortByPopulation(candidates);
    var top := SliceTo(sorted, limit);
    var r := RelatedCitiesInProvince(geoUrls, province, serviceSlugEs, excludeCitySlug, limit);
    assert u in multiset(sorted);
    var j :| 0 <= j < |sorted| && sorted[j] == u;
    assert r[i].population == sorted[i].population;
    if j >= |top| {
      assert false;
    }
    assert r[j] == ToCityLink(u);
  }

  // ---------------------------------------------------------------------------
  // getRelatedCitiesInCCAA
  // ---------------------------------------------------------------------------

  datatype RegionalLink = RegionalLink(name: string, slug: string, url: string, province: string, population: int)

  function ToRegionalLink(u: GeoUrl): RegionalLink {
    RegionalLink(u.city, u.citySlug, u.urlEs, u.province, u.population)
  }

  /** The geo URLs of the CCAA and service outside the excluded province. */
  function RegionCandidates(geoUrls: seq<GeoUrl>, ccaa: string, serviceSlugEs: string,
                            excludeProvince: string): (r: seq<GeoUrl>)
    ensures forall u :: u in r <==>
      u in geoUrls && u.ccaa == ccaa && u.serviceEs == serviceSlugEs && u.province != excludeProvince
  {
    Filter(geoUrls, (u: GeoUrl) =>
      u.ccaa == ccaa && u.serviceEs == serviceSlugEs && u.province != excludeProvince)
  }

  /** One turn of the loop over the candidates: `u` replaces the entry of its province when
      there is none yet or when it is strictly more populous. */
  function KeepBiggest(biggest: JsMap.Entries<string, GeoUrl>, u: GeoUrl): JsMap.Entries<string, GeoUrl> {
    var existing := JsMap.Get(biggest, u.province);
    if existing.None? || u.population > existing.value.population then JsMap.Set(biggest, u.province, u)
    else biggest
  }

  /** The `biggestByProvince` map after the loop has seen the URLs of `s`. */
  function BiggestByProvince(s: seq<GeoUrl>): JsMap.Entries<string, GeoUrl> {
    if s == [] then [] else KeepBiggest(BiggestByProvince(s[..|s| - 1]), s[|s| - 1])
  }

  /** What `getRelatedCitiesInCCAA` returns. */
  function RegionRanking(geoUrls: seq<GeoUrl>, ccaa: string, serviceSlugEs: string,
                         excludeProvince: string, limit: int): (r: seq<RegionalLink>)
    ensures 0 <= limit ==> |r| <= limit
  {
    var ranked := SortByPopulation(JsMap.Values(BiggestByProvince(
      RegionCandidates(geoUrls, ccaa, serviceSlugEs, excludeProvince))));
    var top := SliceTo(ranked, limit);
    seq(|top|, i requires 0 <= i < |top| => ToRegionalLink(top[i]))
  }

  /** `getRelatedCitiesInCCAA`: the most populous matching city of each province. */
  method RelatedCitiesInCCAA(geoUrls: seq<GeoUrl>, ccaa: string, serviceSlugEs: string,
                             excludeProvince: string, limit: int := 10) returns (r: seq<RegionalLink>)
    ensures r == RegionRanking(geoUrls, ccaa, serviceSlugEs, excludeProvince, limit)
  {
    var matchingUrls := RegionCandidates(geoUrls, ccaa, serviceSlugEs, excludeProvince);
    var biggestByProvince: JsMap.Entries<string, GeoUrl> := [];
    for i := 0 to |matchingUrls|
      invariant biggestByProvince == BiggestByProvince(matchingUrls[..i])
    {
      var u := matchingUrls[i];
      ghost var before := biggestByProvince;
      var existing := JsMap.Get(biggestByProvince, u.province);
      if existing.None? || u.population > existing.value.population {
        biggestByProvince := JsMap.Set(biggestByProvince, u.province, u);
      }
      assert biggestByProvince == KeepBiggest(before, u);
      BiggestByProvinceStep(matchingUrls, i);
    }
    assert matchingUrls[..|matchingUrls|] == matchingUrls;
    var ranked := SortByPopulation(JsMap.Values(biggestByProvince));
    var top := SliceTo(ranked, limit);
    r := seq(|top|, i requires 0 <= i < |top| => ToRegionalLink(top[i]));
  }

  /** One more turn of the loop is one more step of the fold. */
  lemma BiggestByProvinceStep(s: seq<GeoUrl>, i: nat)
    requires i < |s|
    ensures BiggestByProvince(s[..i + 1]) == KeepBiggest(BiggestByProvince(s[..i]), s[i])
  {
    assert s[..i + 1][..i] == s[..i];
  }

  /** The entry of province `p` holds the first URL of `s` among the most populous of `p`. */
  ghost predicate FirstBiggestOf(s: seq<GeoUrl>, p: string, v: GeoUrl) {
    && v.province == p
    && (forall w :: w in s && w.province == p ==> w.population <= v.population)
    && exists k :: 0 <= k < |s| && s[k] == v && forall j :: 0 <= j < k && s[j].province == p ==> s[j].population < v.population
  }

  /** The loop keeps one entry per province seen, keyed by that province. */
  lemma {:induction false} BiggestByProvinceKeys(s: seq<GeoUrl>)
    ensures JsMap.DistinctKeys(BiggestByProvince(s))
    ensures forall u :: u in s ==> JsMap.Get(BiggestByProvince(s), u.province).Some?
  {
    if s != [] {
      var init, u := s[..|s| - 1], s[|s| - 1];
      assert s == init + [u];
      BiggestByProvinceKeys(init);
      var m := BiggestByProvince(init);
      JsMap.SetDistinct(m, u.province, u);
      forall w | w in s ensures JsMap.Get(BiggestByProvince(s), w.province).Some? {
        if w != u { assert w in init; }
        KeepBiggestGet(m, u, w.province);
      }
    }
  }

  /** A step of the loop keeps every province the map knows and adds the URL's own. */
  lemma KeepBiggestGet(m: JsMap.Entries<string, GeoUrl>, u: GeoUrl, p: string)
    requires JsMap.Get(m, p).Some? || p == u.province
    ensures JsMap.Get(KeepBiggest(m, u), p).Some?
  {
    if p != u.province {
      JsMap.SetOther(m, u.province, u, p);
    }
  }

  /** Each entry of the map holds the first of the most populous URLs of its province. */
  lemma {:induction false} BiggestByProvinceEntries(s: seq<GeoUrl>)
    ensures forall e :: e in BiggestByProvince(s) ==> FirstBiggestOf(s, e.0, e.1)
  {
    if s != [] {
      var init, u := s[..|s| - 1], s[|s| - 1];
      assert s == init + [u];
      BiggestByProvinceEntries(init);
      BiggestByProvinceKeys(init);
      var m := BiggestByProvince(init);
      var existing := JsMap.Get(m, u.province);
      forall e | e in BiggestByProvince(s) ensures FirstBiggestOf(s, e.0, e.1) {
        if (existing.None? || u.population > existing.value.population) && e == (u.province, u) {
          ReplacingEntry(init, u);
        } else {
          KeptEntry(init, u, e);
        }
      }
    }
  }

  /** A URL that takes its province's entry is the first of the most populous seen so far. */
  lemma ReplacingEntry(init: seq<GeoUrl>, u: GeoUrl)
    requires forall e :: e in BiggestByProvince(init) ==> FirstBiggestOf(init, e.0, e.1)
    requires var existing := JsMap.Get(BiggestByProvince(init), u.province);
      existing.None? || u.population > existing.value.population
    ensures FirstBiggestOf(init + [u], u.province, u)
  {
    var s := init + [u];
    var m := BiggestByProvince(init);
    var existing := JsMap.Get(m, u.province);
    BiggestByProvinceKeys(init);
    forall w | w in init && w.province == u.province ensures w.population < u.population {
      assert (u.province, existing.value) in m;
    }
    assert s[|s| - 1] == u;
    forall w | w in s && w.province == u.province ensures w.population <= u.population {
      if w != u { assert w in init; }
    }
  }

  /** An entry the step leaves in place stays the first of the most populous of its province. */
  lemma KeptEntry(init: seq<GeoUrl>, u: GeoUrl, e: (string, GeoUrl))
    requires forall e :: e in BiggestByProvince(init) ==> FirstBiggestOf(init, e.0, e.1)
    requires e in KeepBiggest(BiggestByProvince(init), u)
    requires var existing := JsMap.Get(BiggestByProvince(init), u.province);
      !((existing.None? || u.population > existing.value.population) && e == (u.province, u))
    ensures FirstBiggestOf(init + [u], e.0, e.1)
  {
    var s := init + [u];
    var m := BiggestByProvince(init);
    BiggestByProvinceKeys(init);
    var existing := JsMap.Get(m, u.province);
    var replaced := existing.None? || u.population > existing.value.population;
    if replaced {
      var r := JsMap.Set(m, u.province, u);
      if e.0 == u.province {
        JsMap.GetDistinct(r, e.0, e.1);
        assert false;
      }
    }
    assert e in m;
    KeptEntryOf(init, u, e);
  }

  lemma KeptEntryOf(init: seq<GeoUrl>, u: GeoUrl, e: (string, GeoUrl))
    requires forall e :: e in BiggestByProvince(init) ==> FirstBiggestOf(init, e.0, e.1)
    requires e in BiggestByProvince(init)
    requires e.0 == u.province ==> u.population <= e.1.population
    ensures FirstBiggestOf(init + [u], e.0, e.1)
  {
    var s := init + [u];
    assert FirstBiggestOf(init, e.0, e.1);
    var k :| 0 <= k < |init| && init[k] == e.1 &&
      forall j :: 0 <= j < k && init[j].province == e.0 ==> init[j].population < e.1.population;
    assert s[k] == e.1;
    forall w | w in s && w.province == e.0 ensures w.population <= e.1.population {
      if w != u { assert w in init; }
    }
  }

  /** The values of the map have pairwise different provinces. */
  lemma BiggestByProvinceDistinct(s: seq<GeoUrl>)
    ensures DistinctBy(JsMap.Values(BiggestByProvince(s)), (u: GeoUrl) => u.province)
  {
    var m := BiggestByProvince(s);
    BiggestByProvinceKeys(s);
    BiggestByProvinceEntries(s);
    forall i, j | 0 <= i < j < |m| ensures m[i].1.province != m[j].1.province {
      assert m[i] in m && m[j] in m;
    }
  }

  /** Every ranked link is the first of the most populous candidates of its province,
      and there are as many as `slice(0, limit)` keeps of one entry per province. */
  lemma RegionRankingMembers(geoUrls: seq<GeoUrl>, ccaa: string, serviceSlugEs: string,
                             excludeProvince: string, limit: int)
    ensures var candidates := RegionCandidates(geoUrls, ccaa, serviceSlugEs, excludeProvince);
      var r := RegionRanking(geoUrls, ccaa, serviceSlugEs, excludeProvince, limit);
      && |r| == SliceLength(|BiggestByProvince(candidates)|, limit)
      && forall i :: 0 <= i < |r| ==>
           (exists u :: && u in geoUrls && u.ccaa == ccaa && u.serviceEs == serviceSlugEs
                        && u.province != excludeProvince
                        && FirstBiggestOf(candidates, u.province, u) && r[i] == ToRegionalLink(u))
  {
    var candidates := RegionCandidates(geoUrls, ccaa, serviceSlugEs, excludeProvince);
    var m := BiggestByProvince(candidates);
    var ranked := SortByPopulation(JsMap.Values(m));
    var top := SliceTo(ranked, limit);
    var r := RegionRanking(geoUrls, ccaa, serviceSlugEs, excludeProvince, limit);
    BiggestByProvinceEntries(candidates);
    forall i | 0 <= i < |r|
      ensures exists u :: u in candidates && FirstBiggestOf(candidates, u.province, u) && r[i] == ToRegionalLink(u)
    {
      assert top[i] in multiset(ranked);
      var k :| 0 <= k < |m| && JsMap.Values(m)[k] == top[i];
      assert m[k] in m;
    }
  }

  /** The ranking holds at most one city per province, most populous first. */
  lemma RegionRankingOrder(geoUrls: seq<GeoUrl>, ccaa: string, serviceSlugEs: string,
                           excludeProvince: string, limit: int)
    ensures var r := RegionRanking(geoUrls, ccaa, serviceSlugEs, excludeProvince, limit);
      forall i, j :: 0 <= i < j < |r| ==> r[i].province != r[j].province && r[i].population >= r[j].population
  {
    var candidates := RegionCandidates(geoUrls, ccaa, serviceSlugEs, excludeProvince);
    var values := JsMap.Values(BiggestByProvince(candidates));
    BiggestByProvinceDistinct(candidates);
    ByPopulationTotalPreorder();
    SortDistinctBy(values, ByPopulation, (u: GeoUrl) => u.province);
  }

  /** Every province seen has an entry at least as populous as any URL of it seen. */
  lemma BiggestByProvinceCovers(s: seq<GeoUrl>, u: GeoUrl)
    requires u in s
    ensures JsMap.Get(BiggestByProvince(s), u.province).Some?
    ensures var v := JsMap.Get(BiggestByProvince(s), u.province).value;
      v in JsMap.Values(BiggestByProvince(s)) && v.province == u.province && v.population >= u.population
  {
    var m := BiggestByProvince(s);
    BiggestByProvinceKeys(s);
    BiggestByProvinceEntries(s);
    var v := JsMap.Get(m, u.province).value;
    assert (u.province, v) in m;
    assert FirstBiggestOf(s, u.province, v);
    var k :| 0 <= k < |m| && m[k] == (u.province, v);
    assert JsMap.Values(m)[k] == v;
  }

  /** While the ranking is shorter than a non-negative `limit`, every province with a
      candidate is in it, with a city at least as populous as any candidate of that province. */
  lemma RegionRankingComplete(geoUrls: seq<GeoUrl>, ccaa: string, serviceSlugEs: string,
                              excludeProvince: string, limit: int, u: GeoUrl)
    requires u in RegionCandidates(geoUrls, ccaa, serviceSlugEs, excludeProvince)
    requires 0 <= limit
    requires |RegionRanking(geoUrls, ccaa, serviceSlugEs, excludeProvince, limit)| < limit
    ensures var r := RegionRanking(geoUrls, ccaa, serviceSlugEs, excludeProvince, limit);
      exists i :: 0 <= i < |r| && r[i].province == u.province && r[i].population >= u.population
  {
    var candidates := RegionCandidates(geoUrls, ccaa, serviceSlugEs, excludeProvince);
    var values := JsMap.Values(BiggestByProvince(candidates));
    var ranked := SortByPopulation(values);
    var top := SliceTo(ranked, limit);
    var r := RegionRanking(geoUrls, ccaa, serviceSlugEs, excludeProvince, limit);
    BiggestByProvinceCovers(candidates, u);
    var v := JsMap.Get(BiggestByProvince(candidates), u.province).value;
    assert v in multiset(ranked);
    var i :| 0 <= i < |ranked| && ranked[i] == v;
    assert |top| == |ranked|;
    assert top[i] == v;
    assert r[i] == ToRegionalLink(v);
  }

  /** At the cap too, no province is left out while a less populous city is listed: a
      candidate more populous than a listed link has its province listed, with a city at
      least as populous. */
  lemma RegionRankingTop(geoUrls: seq<GeoUrl>, ccaa: string, serviceSlugEs: string,
                         excludeProvince: string, limit: int, u: GeoUrl, i: nat)
    requires u in RegionCandidates(geoUrls, ccaa, serviceSlugEs, excludeProvince)
    requires var r := RegionRanking(geoUrls, ccaa, serviceSlugEs, excludeProvince, limit);
      i < |r| && r[i].population < u.population
    ensures var r := RegionRanking(geoUrls, ccaa, serviceSlugEs, excludeProvince, limit);
      exists j :: 0 <= j < |r| && r[j].province == u.province && r[j].population >= u.population
  {
    var candidates := RegionCandidates(geoUrls, ccaa, serviceSlugEs, excludeProvince);
    var values := JsMap.Values(BiggestByProvince(candidates));
    var ranked := SortByPopulation(values);
    var top := SliceTo(ranked, limit);
    var r := RegionRanking(geoUrls, ccaa, serviceSlugEs, excludeProvince, limit);
    BiggestByProvinceCovers(candidates, u);
    var v := JsMap.Get(BiggestByProvince(candidates), u.province).value;
    assert v in multiset(ranked);
    var j :| 0 <= j < |ranked| && ranked[j] == v;
    assert r[i].population == ranked[i].population;
    if j >= |top| {
      assert false;
    }
    assert r[j] == ToRegionalLink(v);
  }

  // ---------------------------------------------------------------------------
  // getOtherServicesForCity
  // ---------------------------------------------------------------------------

  datatype ServiceLink = ServiceLink(name: string, slug: string, url: string, pilar: Pilar)

  /** The Spanish display name of a service slug, the slug itself when it has none. */
  function ServiceLabelEs(serviceEs: string): (name: string)
    ensures serviceEs in SERVICE_NAMES ==> name == SERVICE_NAMES[serviceEs].es
    ensures serviceEs !in SERVICE_NAMES ==> name == serviceEs
  {
    if serviceEs in SERVICE_NAMES then SERVICE_NAMES[serviceEs].es else serviceEs
  }

  function ToServiceLink(u: GeoUrl): ServiceLink {
    ServiceLink(ServiceLabelEs(u.serviceEs), u.serviceEs, u.urlEs, u.pilar)
  }

  /** The geo URLs of the city for a service other than the excluded one. */
  function CityServiceCandidates(geoUrls: seq<GeoUrl>, citySlug: string, excludeServiceSlugEs: string): (r: seq<GeoUrl>)
    ensures forall u :: u in r <==> u in geoUrls && u.citySlug == citySlug && u.serviceEs != excludeServiceSlugEs
  {
    Filter(geoUrls, (u: GeoUrl) => u.citySlug == citySlug && u.serviceEs != excludeServiceSlugEs)
  }

  /** `getOtherServicesForCity`. */
  function OtherServicesForCity(geoUrls: seq<GeoUrl>, citySlug: string, excludeServiceSlugEs: string): (r: seq<ServiceLink>)
    ensures |r| == |CityServiceCandidates(geoUrls, citySlug, excludeServiceSlugEs)|
  {
    var sorted := SortByPopulation(CityServiceCandidates(geoUrls, citySlug, excludeServiceSlugEs));
    seq(|sorted|, i requires 0 <= i < |sorted| => ToServiceLink(sorted[i]))
  }

  /** One link per URL of the city outside the excluded service, each named by the
      service's Spanish label or, failing that, its slug. */
  lemma OtherServicesForCityMembers(geoUrls: seq<GeoUrl>, citySlug: string, excludeServiceSlugEs: string)
    ensures var r := OtherServicesForCity(geoUrls, citySlug, excludeServiceSlugEs);
      && |r| == |CityServiceCandidates(geoUrls, citySlug, excludeServiceSlugEs)|
      && forall i :: 0 <= i < |r| ==>
           && r[i].slug != excludeServiceSlugEs
           && (r[i].slug in SERVICE_NAMES ==> r[i].name == SERVICE_NAMES[r[i].slug].es)
           && (r[i].slug !in SERVICE_NAMES ==> r[i].name == r[i].slug)
           && (exists u :: u in geoUrls && u.citySlug == citySlug && u.serviceEs == r[i].slug &&
                 u.urlEs == r[i].url && u.pilar == r[i].pilar)
  {
    var candidates := CityServiceCandidates(geoUrls, citySlug, excludeServiceSlugEs);
    var sorted := SortByPopulation(candidates);
    var r := OtherServicesForCity(geoUrls, citySlug, excludeServiceSlugEs);
    forall i | 0 <= i < |r| ensures sorted[i] in candidates {
      assert sorted[i] in multiset(candidates);
    }
  }

  /** The links are those of a rearrangement of the candidates: each candidate URL gives
      exactly as many links as it occurs among the candidates. */
  lemma OtherServicesForCityPermutation(geoUrls: seq<GeoUrl>, citySlug: string, excludeServiceSlugEs: string)
    ensures var r := OtherServicesForCity(geoUrls, citySlug, excludeServiceSlugEs);
      exists sorted: seq<GeoUrl> ::
        && |sorted| == |r|
        && multiset(sorted) == multiset(CityServiceCandidates(geoUrls, citySlug, excludeServiceSlugEs))
        && forall i :: 0 <= i < |r| ==> r[i] == ToServiceLink(sorted[i])
  {
    var sorted := SortByPopulation(CityServiceCandidates(geoUrls, citySlug, excludeServiceSlugEs));
    var r := OtherServicesForCity(geoUrls, citySlug, excludeServiceSlugEs);
    assert forall i :: 0 <= i < |r| ==> r[i] == ToServiceLink(sorted[i]);
  }

  /** No URL of the city for another service is missing from the links. */
  lemma OtherServicesForCityComplete(geoUrls: seq<GeoUrl>, citySlug: string, excludeServiceSlugEs: string, u: GeoUrl)
    requires u in geoUrls && u.citySlug == citySlug && u.serviceEs != excludeServiceSlugEs
    ensures ToServiceLink(u) in OtherServicesForCity(geoUrls, citySlug, excludeServiceSlugEs)
  {
    var candidates := CityServiceCandidates(geoUrls, citySlug, excludeServiceSlugEs);
    var sorted := SortByPopulation(candidates);
    var r := OtherServicesForCity(geoUrls, citySlug, excludeServiceSlugEs);
    assert u in multiset(sorted);
    var i :| 0 <= i < |sorted| && sorted[i] == u;
    assert r[i] == ToServiceLink(u);
  }

  /** The URLs of one city share its population, so the sort keeps them in dataset order. */
  lemma OtherServicesForCityInOrder(geoUrls: seq<GeoUrl>, citySlug: string, excludeServiceSlugEs: string,
                                    population: int)
    requires forall u :: u in geoUrls && u.citySlug == citySlug ==> u.population == population
    ensures var candidates := CityServiceCandidates(geoUrls, citySlug, excludeServiceSlugEs);
      OtherServicesForCity(geoUrls, citySlug, excludeServiceSlugEs) ==
        seq(|candidates|, i requires 0 <= i < |candidates| => ToServiceLink(candidates[i]))
  {
    var candidates := CityServiceCandidates(geoUrls, citySlug, excludeServiceSlugEs);
    var samePopulation := (u: GeoUrl) => u.population == population;
    SortByPopulationStable(candidates, population);
    FilterAll(candidates, samePopulation);
    forall u | u in SortByPopulation(candidates) ensures samePopulation(u) {
      assert u in multiset(candidates);
    }
    FilterAll(SortByPopulation(candidates), samePopulation);
  }

  // ---------------------------------------------------------------------------
  // getProvincesByCCAA
  // ---------------------------------------------------------------------------

  /** `getProvincesByCCAA`: the provinces of the CCAA's municipalities, each once, in string order. */
  method ProvincesByCCAA(municipalities: seq<Municipality>, ccaa: string) returns (r: seq<string>)
    ensures forall p :: p in r <==> exists m :: m in municipalities && m.ccaa == ccaa && m.provincia == p
    ensures forall i, j :: 0 <= i < j < |r| ==> StringLe(r[i], r[j]) && r[i] != r[j]
  {
    var provinces: seq<string> := [];
    for i := 0 to |municipalities|
      invariant forall p :: p in provinces <==>
        exists m :: m in municipalities[..i] && m.ccaa == ccaa && m.provincia == p
      invariant forall a, b :: 0 <= a < b < |provinces| ==> provinces[a] != provinces[b]
    {
      var m := municipalities[i];
      assert municipalities[..i + 1] == municipalities[..i] + [m];
      if m.ccaa == ccaa {
        provinces := JsMap.AddToSet(provinces, m.provincia);
      }
    }
    assert municipalities[..|municipalities|] == municipalities;
    StringLeTotalPreorder();
    SortSorted(provinces, StringLe);
    SortDistinctBy(provinces, StringLe, (p: string) => p);
    r := Sort(provinces, StringLe);
    forall p ensures p in r <==> p in provinces {
      assert p in r <==> p in multiset(r);
    }
  }

  // ---------------------------------------------------------------------------
  // getProvincialCapital
  // ---------------------------------------------------------------------------

  /** `getProvincialCapital`: the first of the most populous municipalities of the province,
      none when the province has no municipality. */
  method ProvincialCapital(municipalities: seq<Municipality>, province: string) returns (r: Option<Municipality>)
    ensures r.None? <==> forall m :: m in municipalities ==> m.provincia != province
    ensures r.Some? ==> r.value.provincia == province
    ensures r.Some? ==> forall m :: m in municipalities && m.provincia == province ==> m.habitantes <= r.value.habitantes
    ensures r.Some? ==>
      exists k :: && 0 <= k < |municipalities| && municipalities[k] == r.value
                  && forall j :: 0 <= j < k && municipalities[j].provincia == province ==>
                       municipalities[j].habitantes < r.value.habitantes
  {
    var capital: Option<Municipality> := None;
    ghost var k := 0;
    for i := 0 to |municipalities|
      invariant capital.None? <==> forall j :: 0 <= j < i ==> municipalities[j].provincia != province
      invariant capital.Some? ==> 0 <= k < i && municipalities[k] == capital.value && capital.value.provincia == province
      invariant capital.Some? ==> forall j :: 0 <= j < i && municipalities[j].provincia == province ==>
        municipalities[j].habitantes <= capital.value.habitantes
      invariant capital.Some? ==> forall j :: 0 <= j < k && municipalities[j].provincia == province ==>
        municipalities[j].habitantes < capital.value.habitantes
    {
      var m := municipalities[i];
      if m.provincia == province {
        if capital.None? || m.habitantes > capital.value.habitantes {
          capital := Some(m);
          k := i;
        }
      }
    }
    r := capital;
  }
}
