/** The project showcase and its category filter (components/sections/portfolio.tsx). */
module Portfolio {
  import opened Wrappers
  import opened Seqs

  datatype Project = Project(id: int, name: string, logo: string, categories: seq<string>,
                             result: string, url: string, gradient: string)

  const SEO: string := "SEO"
  const SEM: string := "SEM"
  const WEB: string := "Desarrollo Web"
  const AUTOMATION: string := "Automatización"

  /** `PROJECTS`, in display order. */
  const PROJECTS: seq<Project> := [
    Project(1, "CEDEU", "/logos/cedeu.png", [SEM], "+60K€/día en Ads", "https://cedeu.es",
            "from-[oklch(0.32_0.08_260)] to-[oklch(0.45_0.10_260)]"),
    Project(2, "UMILES Group", "/logos/umiles.svg", [SEO, WEB, AUTOMATION], "Ecosistema integrado",
            "https://umilesgroup.com", "from-[oklch(0.28_0.06_260)] to-[oklch(0.40_0.08_260)]"),
    Project(3, "SinVello!", "/logos/sinvello.png", [SEO, AUTOMATION], "Organic growth",
            "https://sinvelloporlaser.es", "from-[oklch(0.40_0.10_83)] to-[oklch(0.55_0.12_83)]"),
    Project(4, "Pizzon Pizza", "/logos/pizzon.png", [SEO, AUTOMATION], "SEO Local + Reseñas",
            "https://pizzonpizza.com", "from-[oklch(0.30_0.07_260)] to-[oklch(0.45_0.10_83)]"),
    Project(5, "Iberfurgo", "/logos/iberfurgo.png", [SEO, WEB], "SEO + Web nueva",
            "https://iberfurgo.com", "from-[oklch(0.30_0.06_260)] to-[oklch(0.42_0.08_170)]"),
    Project(6, "Ratpanat", "/logos/ratpanat.png", [WEB, AUTOMATION], "Web + Flujos IA",
            "https://ratpanat.com", "from-[oklch(0.35_0.08_170)] to-[oklch(0.45_0.09_260)]"),
    Project(7, "La Formica Edile", "/logos/formica.png", [SEO, AUTOMATION], "Growth + Procesos",
            "https://laformicaedile.it", "from-[oklch(0.28_0.07_145)] to-[oklch(0.42_0.10_145)]"),
    Project(8, "Belair Sedie", "/logos/belair.png", [WEB, AUTOMATION], "Web + Sistemas",
            "https://belairsedie.it", "from-[oklch(0.32_0.06_200)] to-[oklch(0.44_0.08_200)]"),
    Project(9, "Vigar", "/logos/vigar.svg", [WEB], "Web corporativa",
            "https://vigar.com", "from-[oklch(0.35_0.09_83)] to-[oklch(0.48_0.11_83)]"),
    Project(10, "Alicia Bravo", "/logos/aliciabravo.png", [WEB], "Web desde cero",
            "https://aliciabravo.es", "from-[oklch(0.30_0.08_300)] to-[oklch(0.44_0.10_300)]")
  ]

  /** The filter buttons, `FILTER_KEYS`. */
  datatype FilterKey = FilterAll | FilterSeo | FilterSem | FilterWeb | FilterAuto

  /** `FILTER_MAP`: the category a button selects, none for "all". */
  function FilterValue(key: FilterKey): (v: Option<string>)
    ensures v.None? <==> key == FilterAll
  {
    match key
    case FilterAll => None
    case FilterSeo => Some(SEO)
    case FilterSem => Some(SEM)
    case FilterWeb => Some(WEB)
    case FilterAuto => Some(AUTOMATION)
  }

  /** The projects shown for a filter value: all of them for none, otherwise those listing
      the category. */
  function FilterProjects(projects: seq<Project>, filterValue: Option<string>): (r: seq<Project>)
    ensures filterValue.None? ==> r == projects
    ensures filterValue.Some? ==> forall p :: p in r <==> p in projects && filterValue.value in p.categories
    ensures filterValue.Some? ==>
      forall p :: multiset(r)[p] == (if filterValue.value in p.categories then multiset(projects)[p] else 0)
    ensures IsSubseq(r, projects)
    ensures |r| <= |projects|
  {
    if filterValue.None? then
      assert IsSubseq(projects, projects) by { SubseqRefl(projects); }
      projects
    else
      var category := filterValue.value;
      var keep := (p: Project) => category in p.categories;
      FilterCounts(projects, keep);
      FilterSubseq(projects, keep);
      Filter(projects, keep)
  }

  lemma {:induction false} SubseqRefl(s: seq<Project>)
    ensures IsSubseq(s, s)
  {
    if s != [] {
      SubseqRefl(s[1..]);
    }
  }

  /** `filteredProjects` for the active filter. */
  function FilteredProjects(key: FilterKey): (r: seq<Project>)
    ensures |r| <= 10
    ensures IsSubseq(r, PROJECTS)
    ensures key == FilterAll ==> r == PROJECTS
    ensures key != FilterAll ==> forall p :: p in r <==> p in PROJECTS && FilterValue(key).value in p.categories
  {
    FilterProjects(PROJECTS, FilterValue(key))
  }

  /** The showcase holds ten projects, numbered 1 to 10 in order, so their ids are unique. */
  lemma ProjectIds()
    ensures |PROJECTS| == 10
    ensures forall i :: 0 <= i < |PROJECTS| ==> PROJECTS[i].id == i + 1
    ensures forall i, j :: 0 <= i < j < |PROJECTS| ==> PROJECTS[i].id != PROJECTS[j].id
  {
  }
}
