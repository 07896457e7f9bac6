/** The sitemap of the site (app/sitemap.ts): the two locale roots, then an entry per
    locale for every geo URL. Priorities are integer tenths (9 stands for 0.9). */
module Sitemap {
  import opened GeoTypes
  import GeoData
  import GeoSeo

  datatype SitemapEntry = SitemapEntry(url: string, changeFrequency: string, priority: int)

  const MONTHLY: string := "monthly"

  /** Priority of the two locale roots, 1.0. */
  const ROOT_PRIORITY: int := 10

  /** `TIER_PRIORITY`: 0.9 for tier 1 down to 0.6 for tier 4, a tenth less per tier. */
  function TierPriority(tier: Tier): (p: int)
    ensures p == 10 - tier
    ensures 0 < p < ROOT_PRIORITY
  {
    if tier == 1 then 9
    else if tier == 2 then 8
    else if tier == 3 then 7
    else 6
  }

  /** A larger tier never has a higher priority, and a strictly larger tier a strictly lower one. */
  lemma TierPriorityDecreasing(a: Tier, b: Tier)
    requires a < b
    ensures TierPriority(a) > TierPriority(b)
  {
  }

  /** The entry of a geo URL in the given locale. */
  function GeoEntry(u: GeoUrl, locale: Locale): SitemapEntry {
    SitemapEntry(BASE_URL + "/" + LocaleCode(locale) + LocaleUrl(u, locale), MONTHLY, TierPriority(u.tier))
  }

  /** `geoUrls.flatMap(...)`: the es entry and then the en entry of each URL, in order. */
  function GeoPages(geoUrls: seq<GeoUrl>): (r: seq<SitemapEntry>)
    ensures |r| == 2 * |geoUrls|
    ensures forall i :: 0 <= i < |geoUrls| ==> r[2 * i] == GeoEntry(geoUrls[i], Es) && r[2 * i + 1] == GeoEntry(geoUrls[i], En)
  {
    if geoUrls == [] then []
    else
      var rest := GeoPages(geoUrls[1..]);
      var r := [GeoEntry(geoUrls[0], Es), GeoEntry(geoUrls[0], En)] + rest;
      assert forall i :: 1 <= i < |geoUrls| ==> geoUrls[i] == geoUrls[1..][i - 1] && r[2 * i] == rest[2 * (i - 1)];
      r
  }

  /** `sitemap()` without `lastModified`. */
  function Sitemap(geoUrls: seq<GeoUrl>): seq<SitemapEntry> {
    [SitemapEntry(BASE_URL + "/es", MONTHLY, ROOT_PRIORITY), SitemapEntry(BASE_URL + "/en", MONTHLY, ROOT_PRIORITY)]
    + GeoPages(geoUrls)
  }

  /** Two roots, `/es` then `/en`, at the root priority, then two entries per geo URL. */
  lemma SitemapRoots(geoUrls: seq<GeoUrl>)
    ensures var r := Sitemap(geoUrls);
      && |r| == 2 + 2 * |geoUrls|
      && r[0].url == BASE_URL + "/es" && r[1].url == BASE_URL + "/en"
      && r[0].priority == ROOT_PRIORITY && r[1].priority == ROOT_PRIORITY
  {
  }

  /** Each geo URL has its es page and then its en page, both at the URL's tier priority. */
  lemma SitemapGeoEntries(geoUrls: seq<GeoUrl>, i: nat)
    requires i < |geoUrls|
    ensures var r := Sitemap(geoUrls);
      && r[2 + 2 * i].url == BASE_URL + "/es" + geoUrls[i].urlEs
      && r[3 + 2 * i].url == BASE_URL + "/en" + geoUrls[i].urlEn
      && r[2 + 2 * i].priority == r[3 + 2 * i].priority == TierPriority(geoUrls[i].tier)
  {
    var r := Sitemap(geoUrls);
    var pages := GeoPages(geoUrls);
    assert r[2 + 2 * i] == pages[2 * i];
    assert r[3 + 2 * i] == pages[2 * i + 1];
  }

  /** Every geo entry ranks below the roots. */
  lemma SitemapPriorities(geoUrls: seq<GeoUrl>)
    ensures var r := Sitemap(geoUrls);
      forall k :: 2 <= k < |r| ==> r[k].priority < ROOT_PRIORITY
  {
    var r := Sitemap(geoUrls);
    var pages := GeoPages(geoUrls);
    forall k | 2 <= k < |r| ensures r[k].priority < ROOT_PRIORITY {
      var i := (k - 2) / 2;
      assert r[k] == pages[k - 2];
      if k - 2 == 2 * i {
        assert pages[2 * i] == GeoEntry(geoUrls[i], Es);
      } else {
        assert pages[2 * i + 1] == GeoEntry(geoUrls[i], En);
      }
    }
  }

  /** For a geo URL whose path starts with `/`, the es entry is the page URL the schema gives
      the slug that the static params take from that path. */
  lemma SitemapMatchesPageUrl(u: GeoUrl)
    requires |u.urlEs| > 0 && u.urlEs[0] == '/'
    ensures GeoEntry(u, Es).url == GeoSeo.BuildPageUrl(Es, GeoData.DropFirst(u.urlEs))
  {
    assert u.urlEs == "/" + GeoData.DropFirst(u.urlEs);
    assert BASE_URL + "/" + "es" + ("/" + GeoData.DropFirst(u.urlEs))
        == BASE_URL + "/" + "es" + "/" + GeoData.DropFirst(u.urlEs);
  }
}
