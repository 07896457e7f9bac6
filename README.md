# Geo landing core of the josegilarte.es site, in Dafny

This project models the logic behind the site's programmatic "service × city" landing
pages and two small interactive pieces of its home page:

- **Geo data** (`geo_data.dfy`, module `GeoData`):
  - parsing a combined slug such as `agencia-seo-madrid` into its service pattern and
    municipality;
  - the URL queries;
  - the static route params;
  - the "related cities" rankings inside a province and inside a CCAA (autonomous
    community), with the biggest city of each province;
  - the "other services in this city" links;
  - the provinces of a CCAA;
  - the provincial capital (the most populous municipality).
- **Structured data** (`geo_seo.dfy`, `GeoSeo`): the schema.org JSON-LD `@graph` of a
  landing page. It holds the web page, the breadcrumb, the professional service, two
  reviews and, when there are FAQs, the FAQ page. All of them have ids under the page URL.
- **Sitemap** (`sitemap.dfy`, `Sitemap`): the two locale roots, then an es and an en
  entry per geo URL, prioritised by tier.
- **Localised content** (`geo_content.dfy`, `GeoContent`): the es and en content tables
  of the eight services, the lookup that fails for an unknown service, the location
  phrases the templates build, and the section labels.
- **Portfolio filter** (`portfolio.dfy`, `Portfolio`): the ten showcased projects and
  the category filter buttons.
- **Bullet holes** (`bullet_holes.dfy`, `BulletHoles`): the capped list of holes that
  clicks leave on screen. It is a class whose state is the id counter and the list.

Supporting modules:

- `Wrappers`: `Option` and `Result`.
- `Seqs`: filter, subsequence, and `slice(0, n)`.
- `Sorting`: a stable insertion sort, which is the ordering `Array.prototype.sort`
  guarantees since ES2019, and string ordering.
- `JsMap`: a JavaScript `Map`/`Set` as an insertion-ordered list of entries, where
  setting an existing key keeps its position.
- `GeoTypes`: the entities of `lib/geo/types.ts`.

The JSON datasets (municipalities, service patterns, geo URLs) are parameters of every
operation that reads them. Properties that rely on the data being well formed state it
as a precondition, for example "no two municipalities share a slug".

## Model

| member | source | states |
|---|---|---|
| GeoData.ParseGeoSlug | lib/geo/data.ts:43-59 | the loop over the service map returns the outcome of trying the prefixes in map order |
| GeoData.FirstMatchSpec | lib/geo/data.ts:49-58 | no match iff no prefix accepts the slug; on a match, that prefix accepts it and every earlier prefix does not |
| GeoData.ParseSound | lib/geo/data.ts:49-55 | a successful parse returns a pattern and a municipality of the datasets; the slug is the pattern's slug of that locale, a dash and the city slug; the city's tier is among the service's tiers |
| GeoData.ParseNoneIff | lib/geo/data.ts:43-59 | with unique slugs, parsing fails exactly when no pattern and municipality of a served tier spell the slug |
| GeoData.ParsesBuiltSlug | lib/geo/data.ts:49-55 | every service-slug-dash-city-slug of a served tier parses |
| GeoData.ServiceMap | lib/geo/data.ts:27-34 | `serviceMapEs` / `serviceMapEn`: `new Map` of each pattern's locale slug to the pattern (stated in ServiceMapEntry and ServiceMapGet) |
| GeoData.CityMap | lib/geo/data.ts:37 | `cityMap`: `new Map` of each municipality's slug to it (stated in CityMapGet, CityMapGetUnique and GetMunicipality) |
| GeoData.ServiceMapEntry | lib/geo/data.ts:26-33 | each entry of the service map holds a pattern under its own slug of the locale |
| GeoData.ServiceMapGet | lib/geo/data.ts:26-33 | with unique slugs, the map answers each pattern's slug with that pattern |
| GeoData.CityMapGet | lib/geo/data.ts:36-37 | what the city map answers is a municipality of the dataset with that slug |
| GeoData.CityMapGetUnique | lib/geo/data.ts:36-37 | with unique slugs, the city map answers each municipality's slug with it |
| GeoData.UrlsByPilar | lib/geo/data.ts:63-66 | exactly the URLs of the pilar, each as often as in the dataset, in dataset order |
| GeoData.UrlsByTier | lib/geo/data.ts:68-71 | exactly the URLs of the tier, each as often as in the dataset, in dataset order |
| GeoData.UrlsByCity | lib/geo/data.ts:73-76 | exactly the URLs of the city, each as often as in the dataset, in dataset order |
| GeoData.GetMunicipality | lib/geo/data.ts:78-80 | found iff some municipality has the slug; the result has the slug and is the last municipality with it |
| GeoData.GeoStaticParams | lib/geo/data.ts:86-90 | one route per geo URL, in order; its slug is the locale's URL without its first character |
| GeoData.SortByPopulation | lib/geo/data.ts:106 | the sort is a permutation in non-increasing population order |
| GeoData.SortByPopulationStable | lib/geo/data.ts:106 | URLs of equal population keep their relative order |
| GeoData.ProvinceCandidates | lib/geo/data.ts:99-105 | exactly the URLs of the province and service outside the excluded city |
| GeoData.RelatedCitiesInProvince | lib/geo/data.ts:93-114 | `getRelatedCitiesInProvince`: filter, sort by population, `slice(0, limit)` (12 by default), map to links; as many links as the slice keeps, never more than a non-negative `limit` |
| GeoData.RelatedCitiesInProvinceSpec | lib/geo/data.ts:93-113 | `slice(0, limit)` of the candidates' count many links, each from a URL of the province and service other than the excluded city, most populous first |
| GeoData.RelatedCitiesInProvinceDistinct | lib/geo/data.ts:106-107 | the links are those of distinct candidates (a sub-multiset of them), so with no more than `limit` candidates every one is listed |
| GeoData.RelatedCitiesInProvinceTop | lib/geo/data.ts:106-107 | a candidate more populous than a listed one is listed too |
| GeoData.RegionCandidates | lib/geo/data.ts:129-134 | exactly the URLs of the CCAA and service outside the excluded province |
| GeoData.RegionRanking | lib/geo/data.ts:146-153 | the values of `biggestByProvince`, sorted by population, sliced to `limit` (10 by default) and mapped to links; never more than a non-negative `limit` |
| GeoData.RelatedCitiesInCCAA | lib/geo/data.ts:117-154 | the loop filling `biggestByProvince`, then the sort, slice and map, yields the ranking |
| GeoData.BiggestByProvinceStep | lib/geo/data.ts:138-143 | one turn of the loop is one step of the fold over the candidates |
| GeoData.BiggestByProvinceKeys | lib/geo/data.ts:137-143 | the map has one entry per province seen and none twice |
| GeoData.KeepBiggestGet | lib/geo/data.ts:139-142 | a loop turn keeps every province known and adds the URL's own |
| GeoData.BiggestByProvinceEntries | lib/geo/data.ts:137-143 | each entry holds the first of the most populous URLs of its province (strict `>` keeps the earlier one) |
| GeoData.ReplacingEntry | lib/geo/data.ts:140-141 | a URL that replaces its province's entry is the first of the most populous seen so far |
| GeoData.KeptEntry | lib/geo/data.ts:140 | an entry the loop turn leaves in place stays the first of the most populous of its province |
| GeoData.KeptEntryOf | lib/geo/data.ts:140 | an entry not beaten by the new URL keeps its property |
| GeoData.BiggestByProvinceDistinct | lib/geo/data.ts:146 | the map's values have pairwise different provinces |
| GeoData.BiggestByProvinceCovers | lib/geo/data.ts:138-143 | every province seen has an entry at least as populous as each of its URLs |
| GeoData.RegionRankingMembers | lib/geo/data.ts:117-154 | `slice(0, limit)` of one entry per province many links, each the first most populous candidate of its province |
| GeoData.RegionRankingOrder | lib/geo/data.ts:146-147 | at most one link per province, most populous first |
| GeoData.RegionRankingComplete | lib/geo/data.ts:146-148 | below the limit, every candidate's province is listed with a city at least as populous |
| GeoData.RegionRankingTop | lib/geo/data.ts:146-147 | at the cap too: a candidate more populous than a listed link has its province listed with a city at least as populous |
| GeoData.ServiceLabelEs | lib/geo/data.ts:168-170 | the Spanish display name for a known service slug, the slug itself otherwise |
| GeoData.CityServiceCandidates | lib/geo/data.ts:162-165 | exactly the URLs of the city for a service other than the excluded one |
| GeoData.OtherServicesForCity | lib/geo/data.ts:158-177 | `getOtherServicesForCity`: filter, sort by population, map to labelled links; one link per candidate |
| GeoData.OtherServicesForCityMembers | lib/geo/data.ts:158-176 | one link per candidate; each link is named by its label, never the excluded service, and comes from a URL of the city |
| GeoData.OtherServicesForCityPermutation | lib/geo/data.ts:161-175 | the links come from a rearrangement of the candidates, each URL giving exactly as many links as it occurs among them |
| GeoData.OtherServicesForCityComplete | lib/geo/data.ts:162-166 | no URL of the city for another service is missing |
| GeoData.OtherServicesForCityInOrder | lib/geo/data.ts:166 | when the city's URLs share one population, the links follow dataset order |
| GeoData.ProvincesByCCAA | lib/geo/data.ts:180-188 | exactly the provinces of the CCAA's municipalities, each once, strictly ascending |
| GeoData.ProvincialCapital | lib/geo/data.ts:191-201 | none iff no municipality is in the province; otherwise the first of its most populous municipalities |
| GeoSeo.InLanguage | lib/geo/seo.ts:21-24 | `es-ES` for Spanish, `en-US` for English |
| GeoSeo.HomeLabel | lib/geo/seo.ts:38-41 | `HOME_LABEL_MAP`: "Inicio" or "Home" (stated in BreadcrumbItems) |
| GeoSeo.JobTitle | lib/geo/seo.ts:33-36 | `JOB_TITLE_MAP` of the locale |
| GeoSeo.ServiceType | lib/geo/seo.ts:44-46 | `getServiceType`: the pilar's entry of `SERVICE_TYPE_MAP` (stated in ServiceTypeInjective) |
| GeoSeo.BuildSlug | lib/geo/seo.ts:48-51 | the locale's service slug, a dash and the city slug (stated in BuildSlugRoundTrip) |
| GeoSeo.BuildPageUrl | lib/geo/seo.ts:53-55 | `BASE_URL/locale/slug` (stated in SitemapMatchesPageUrl) |
| GeoSeo.BuildWebPage | lib/geo/seo.ts:57-73 | the WebPage node (stated in GeoSchemaIds and GeoSchemaPage) |
| GeoSeo.BuildBreadcrumbList | lib/geo/seo.ts:75-109 | the BreadcrumbList node (stated in BreadcrumbItems) |
| GeoSeo.BuildReviews | lib/geo/seo.ts:111-128 | the two Review nodes (stated in GeoSchemaShape and GeoSchemaIds) |
| GeoSeo.BuildProfessionalService | lib/geo/seo.ts:130-176 | the ProfessionalService node (stated in GeoSchemaPage) |
| GeoSeo.BuildFaqPage | lib/geo/seo.ts:178-194 | the FAQPage node (stated in FaqPageEntries) |
| GeoSeo.GenerateGeoSchema | lib/geo/seo.ts:200-221 | `generateGeoSchema`: the `@context` and the graph (stated in GeoSchemaShape, GeoSchemaIds, GeoSchemaIdsDistinct) |
| GeoSeo.ServiceTypeInjective | lib/geo/seo.ts:26-31 | each pilar has its own schema service type |
| GeoSeo.GeoSchemaShape | lib/geo/seo.ts:200-221 | web page, breadcrumb, service, two reviews, then the FAQ page exactly when there are FAQs |
| GeoSeo.GeoSchemaIds | lib/geo/seo.ts:57-194 | node i's id is the page URL plus its fragment; the web page points to the breadcrumb's id |
| GeoSeo.GeoSchemaIdsDistinct | lib/geo/seo.ts:200-215 | the nodes of a graph have pairwise different ids |
| GeoSeo.FragmentsDistinct | lib/geo/seo.ts:65-190 | the id fragments are pairwise different |
| GeoSeo.GeoSchemaPage | lib/geo/seo.ts:57-73 | the web page and the service node both carry the page URL; the page's language is the locale's tag; the service type is the pilar's |
| GeoSeo.BreadcrumbItems | lib/geo/seo.ts:75-109 | four items at positions 1 to 4: home (linking to the locale root), the CCAA, the province and the page heading; only home links |
| GeoSeo.FaqPageEntries | lib/geo/seo.ts:178-194 | one question per FAQ, in order, with its answer |
| GeoSeo.BuildSlugParses | lib/geo/seo.ts:48-51 | with unique slugs, a built slug parses, to a pair that builds the same slug (not necessarily the same pair without prefix-free slugs) |
| GeoSeo.BuildSlugRoundTrip | lib/geo/seo.ts:48-51 | with prefix-free service slugs and unique city slugs, parsing a built slug gives exactly its service and city |
| Sitemap.TierPriority | app/sitemap.ts:7-12 | 0.9 to 0.6, a tenth less per tier, always below the roots |
| Sitemap.TierPriorityDecreasing | app/sitemap.ts:7-12 | a larger tier has a strictly lower priority |
| Sitemap.GeoEntry | app/sitemap.ts:33-44 | one geo entry of the locale (stated in SitemapGeoEntries) |
| Sitemap.Sitemap | app/sitemap.ts:14-48 | `sitemap()`: roots, then geo pages (stated in SitemapRoots, SitemapGeoEntries, SitemapPriorities) |
| Sitemap.GeoPages | app/sitemap.ts:32-45 | two entries per URL: the es entry at 2i, the en entry at 2i+1 |
| Sitemap.SitemapRoots | app/sitemap.ts:17-30 | `/es` then `/en` at priority 1.0 open a list two entries longer than the geo pages |
| Sitemap.SitemapGeoEntries | app/sitemap.ts:32-47 | URL i has its es page and then its en page, both at its tier's priority |
| Sitemap.SitemapPriorities | app/sitemap.ts:47 | every geo entry ranks below the roots |
| Sitemap.SitemapMatchesPageUrl | app/sitemap.ts:34 | the es sitemap URL equals the schema page URL of the route slug |
| GeoContent.GetServiceContent | lib/geo/content.ts:872-886 | content iff the slug is in the locale's table, else the error message |
| GeoContent.GetServiceContentSpec | lib/geo/content.ts:872-886 | the lookup succeeds exactly for the display-named services, in both locales |
| GeoContent.ContentMap | lib/geo/content.ts:876 | the es table for Spanish, the en table otherwise (keys stated in ContentKeys) |
| GeoContent.ContentKeys | lib/geo/content.ts:40-862 | the es and en tables cover the same eight services as the display names |
| GeoContent.MetaLocation | lib/geo/content.ts:44 | "en/in city" alone iff city equals province; otherwise "… city, " then the province |
| GeoContent.IntroLocation | lib/geo/content.ts:49 | the city alone iff city equals province; otherwise it starts with the city and ends on the province or CCAA |
| GeoContent.Preposition | lib/geo/content.ts:44 | "en" in Spanish, "in" in English (stated in MetaLocation) |
| GeoContent.Joiner | lib/geo/content.ts:49 | the join between city and area of each service's intro (stated in IntroLocation) |
| GeoContent.TitleText | lib/geo/content.ts:7 | `title(city)` of the service and locale |
| GeoContent.MetaDescriptionText | lib/geo/content.ts:9 | `metaDescription(city, province, ccaa)`, built from the meta location (stated in MetaDescriptionCityOnly) |
| GeoContent.H1Text | lib/geo/content.ts:11 | `h1(city)` |
| GeoContent.IntroText | lib/geo/content.ts:13 | `intro(city, province, ccaa)`, built from the intro location (stated in IntroCityOnly) |
| GeoContent.WhyTitleText | lib/geo/content.ts:15 | `whyTitle(city)` |
| GeoContent.CtaTitleText | lib/geo/content.ts:21 | `ctaTitle(city)` |
| GeoContent.CtaDescriptionText | lib/geo/content.ts:23 | `ctaDescription(city)` |
| GeoContent.CtaButton | lib/geo/content.ts:27 | `ctaButtonText` |
| GeoContent.CtaSecondary | lib/geo/content.ts:29 | `ctaSecondaryText` |
| GeoContent.Urgency | lib/geo/content.ts:31 | `urgencyMessage` |
| GeoContent.Trust | lib/geo/content.ts:33 | `trustStat` |
| GeoContent.MetaDescriptionCityOnly | lib/geo/content.ts:43-46 | every service's meta description names the city alone iff it is its own province |
| GeoContent.IntroCityOnly | lib/geo/content.ts:48-822 | every intro names the city alone iff it is its own province; otherwise it ends on the CCAA for CCAA-wide services, else on the province |
| GeoContent.IntroScopes | lib/geo/content.ts:202 | experto-seo reaches out to the CCAA; agencia-seo joins city and province with a comma |
| GeoContent.WhyPoints | lib/geo/content.ts:53-58 | four points, in order |
| GeoContent.Faqs | lib/geo/content.ts:59-76 | four question–answer pairs, in order |
| GeoContent.ProcessSteps | lib/geo/content.ts:80-85 | four fixed steps that take no arguments |
| GeoContent.GetSectionLabels | lib/geo/content.ts:892-911 | the home label agrees with the breadcrumb's home label of the schema |
| Portfolio.FilterValue | components/sections/portfolio.tsx:113-119 | no category exactly for "all" |
| Portfolio.FilterProjects | components/sections/portfolio.tsx:137-140 | all projects for no category, else exactly those listing it, in order |
| Portfolio.FilteredProjects | components/sections/portfolio.tsx:137-140 | at most ten projects, in showcase order; "all" shows every one |
| Portfolio.ProjectIds | components/sections/portfolio.tsx:20-111 | ten projects with ids 1 to 10, pairwise different |
| BulletHoles.AddHole | components/ui/bullet-holes.tsx:27-30 | the new hole is last; the list never exceeds 12; when full, the oldest is dropped |
| BulletHoles.RemoveHole | components/ui/bullet-holes.tsx:32-34 | exactly the holes with another id remain, in order |
| BulletHoles.AddHoleAscending | components/ui/bullet-holes.tsx:20-30 | adding a hole with a larger id keeps ids ascending |
| BulletHoles.RemoveHoleAscending | components/ui/bullet-holes.tsx:32-34 | removal keeps ids ascending |
| BulletHoles.BulletHoleLayer.constructor | components/ui/bullet-holes.tsx:15-18 | the counter starts at 0, with no holes |
| BulletHoles.BulletHoleLayer.Click | components/ui/bullet-holes.tsx:20-30 | the hole takes the counter, which steps on, and it is added by the reducer; ids stay ascending and below the counter |
| BulletHoles.BulletHoleLayer.Expire | components/ui/bullet-holes.tsx:32-34 | the hole is removed by id; the counter is unchanged and the invariant is kept |

## Left out

- The JSON datasets are not reproduced. The operations take them as parameters, and
  their well-formedness (unique slugs, prefix-free service slugs) is a precondition
  where a property needs it.
- The marketing sentences of the content tables are not reproduced. Each template is
  `Text(service, locale, field, index, args)`. This records which service, locale and
  field a sentence belongs to, and the arguments it is built from. The location phrases
  that choose between the city alone and "city, province" / "city y province" /
  "city y toda ccaa" are modelled exactly.
- JavaScript property lookups on plain objects (`SERVICE_NAMES[slug]`,
  `contentMap[slug]`) are modelled as map lookups. Inherited keys such as `constructor`
  are not modelled.
- String ordering in `Array.prototype.sort` compares UTF-16 code units. The model
  compares the characters of `seq<char>`. The two agree outside surrogate pairs.
- Sitemap priorities are integer tenths rather than floating-point numbers.
  `lastModified` (the current date) is left out.
- JavaScript `number` fields are `int`: `population`, `habitantes`, `tier`, the hole's `x`
  and `y` (`MouseEvent.clientX`/`clientY`, which can be fractional) and the `limit` of the
  rankings. Fractional values, `NaN`, the infinities and the truncation `slice` applies
  to a fractional `limit` are not modelled; the comparator `b.population - a.population`
  is taken as exact integer subtraction.
- The bullet-hole timer (`setTimeout` with `HOLE_LIFETIME_MS`, 3000 ms), the DOM listener, the
  fine-pointer media query, the random spark lengths and opacities of the impact and the animation are not
  modelled. `Expire` is the timer's callback, called by whoever models time.
- BulletHoles.BulletHoleLayer: `nextId` is module-level in the source and shared by
  every mounted component. The model keeps it in the single layer instance.
- GeoData.OtherServicesForCityMembers: the link's `pilar` is the `Pilar` value, not
  its string spelling.
- GeoSeo: the nested objects of the ProfessionalService node (area served, provider,
  aggregate rating, contact point) are flattened into fields of one datatype, and the
  `@type` keys are implied by the datatype's constructors.
- The React components, their rendering, i18n message lookups and animations are not
  modelled. Only the filter and state logic of the portfolio and bullet holes is.
