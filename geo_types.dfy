/** The records of the geo-landing layer (lib/geo/types.ts) and the site constants
    shared by the modules that build URLs. */
module GeoTypes {

  /** Municipality size class, 1 (largest) to 4. */
  type Tier = t: int | 1 <= t <= 4 witness 1

  /** The four service pillars. */
  datatype Pilar = Seo | Ia | Growth | Geo

  /** The two site locales, "es" and "en". */
  datatype Locale = Es | En

  datatype Municipality = Municipality(
    name: string,
    originalName: string,
    slug: string,
    provincia: string,
    ccaa: string,
    habitantes: int,
    tier: Tier)

  datatype ServicePattern = ServicePattern(
    pilar: Pilar,
    slugEs: string,
    slugEn: string,
    kwEs: string,
    kwEn: string,
    tiers: seq<Tier>)

  datatype GeoUrl = GeoUrl(
    urlEs: string,
    urlEn: string,
    city: string,
    citySlug: string,
    province: string,
    ccaa: string,
    population: int,
    tier: Tier,
    pilar: Pilar,
    serviceEs: string,
    serviceEn: string,
    kwEs: string,
    kwEn: string)

  const BASE_URL: string := "https://josegilarte.es"

  function LocaleCode(locale: Locale): string {
    match locale
    case Es => "es"
    case En => "en"
  }

  /** The service's slug in the given locale. */
  function LocaleSlug(service: ServicePattern, locale: Locale): string {
    match locale
    case Es => service.slugEs
    case En => service.slugEn
  }

  /** The geo URL's path in the given locale. */
  function LocaleUrl(u: GeoUrl, locale: Locale): string {
    match locale
    case Es => u.urlEs
    case En => u.urlEn
  }
}
