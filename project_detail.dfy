/** The project detail page: a total decision over the looked-up record
    (redirect, restricted NDA layout, or full layout) and what each layout
    shows. */
module ProjectDetail {
  import opened Common
  import opened Catalog
  import Projects

  /** The full layout's visible content. */
  datatype FullLayout = FullLayout(
    category: string,
    featuredBadge: bool,
    title: string,
    description: string,
    headerLive: Option<string>,
    headerSource: Option<string>,
    overview: string,
    keyFeatures: Option<seq<string>>,
    tech: seq<string>,
    sidebarLive: Option<string>,
    sidebarSource: Option<string>)

  /** What the page renders. The NDA layout carries only the title and the
      tech list; its only links are the fixed "/projects" and "/contact" ones. */
  datatype DetailView =
    | Redirect(to: string, replace: bool)
    | Restricted(title: string, tech: seq<string>)
    | Full(layout: FullLayout)

  /** `slug ? getProject(slug) : undefined`: the record the page looks up,
      none when the slug is missing or empty. */
  function Lookup(slug: Option<string>, getProject: string -> Option<Project>): Option<Project> {
    if Truthy(slug) then getProject(slug.value) else None
  }

  function FullLayoutFor(p: Project): (f: FullLayout)
    ensures f.headerLive.Some? <==> Truthy(p.liveUrl)
    ensures f.headerLive.Some? ==> f.headerLive == p.liveUrl
    ensures f.sidebarLive == f.headerLive
    ensures f.headerSource.Some? <==> Truthy(p.githubUrl) || Truthy(p.gitlabUrl)
    ensures f.headerSource.Some? ==> f.headerSource == (if Truthy(p.githubUrl) then p.githubUrl else p.gitlabUrl)
    ensures f.sidebarSource == f.headerSource
    ensures f.keyFeatures.Some? <==> p.highlights.Some? && |p.highlights.value| > 0
    ensures f.keyFeatures.Some? ==> f.keyFeatures == p.highlights
    ensures f.featuredBadge == p.featured
    ensures f.overview == p.longDescription && f.tech == p.tech && f.title == p.title
    ensures f.category == p.category && f.description == p.description
  {
    var live := if Truthy(p.liveUrl) then p.liveUrl else None;
    var src := OrElse(p.githubUrl, p.gitlabUrl);
    var source := if Truthy(src) then src else None;
    FullLayout(
      p.category, p.featured, p.title, p.description, live, source, p.longDescription,
      if p.highlights.Some? && |p.highlights.value| > 0 then p.highlights else None,
      p.tech, live, source)
  }

  /** The decision: redirect check first, then the NDA check, then the full layout. */
  function Resolve(slug: Option<string>, getProject: string -> Option<Project>): (v: DetailView)
    ensures v.Redirect? <==> !Truthy(slug) || getProject(slug.value).None?
    ensures v.Redirect? ==> v == Redirect("/projects", true)
    ensures v.Restricted? <==> Lookup(slug, getProject).Some? && Lookup(slug, getProject).value.nda
    ensures v.Restricted? ==> v.title == Lookup(slug, getProject).value.title
                              && v.tech == Lookup(slug, getProject).value.tech
    ensures v.Full? <==> Lookup(slug, getProject).Some? && !Lookup(slug, getProject).value.nda
    ensures v.Full? ==> v.layout == FullLayoutFor(Lookup(slug, getProject).value)
  {
    match Lookup(slug, getProject)
    case None => Redirect("/projects", true)
    case Some(p) => if p.nda then Restricted(p.title, p.tech) else Full(FullLayoutFor(p))
  }

  /** The external (live or source) links a view renders. */
  function ExternalLinks(v: DetailView): set<string> {
    match v
    case Full(f) =>
      (if f.headerLive.Some? then {f.headerLive.value} else {})
      + (if f.headerSource.Some? then {f.headerSource.value} else {})
    case _ => {}
  }

  /** An NDA record never renders a live or source link, and no long-form section. */
  lemma NdaHidesLinks(slug: Option<string>, getProject: string -> Option<Project>)
    requires Lookup(slug, getProject).Some? && Lookup(slug, getProject).value.nda
    ensures ExternalLinks(Resolve(slug, getProject)) == {}
    ensures !Resolve(slug, getProject).Full?
  {
  }

  /** A non-NDA record renders exactly its truthy live URL and its preferred source URL. */
  lemma FullLayoutLinks(slug: Option<string>, getProject: string -> Option<Project>)
    requires Lookup(slug, getProject).Some? && !Lookup(slug, getProject).value.nda
    ensures var p := Lookup(slug, getProject).value;
      ExternalLinks(Resolve(slug, getProject))
        == (if Truthy(p.liveUrl) then {p.liveUrl.value} else {})
           + (if Truthy(OrElse(p.githubUrl, p.gitlabUrl)) then {OrElse(p.githubUrl, p.gitlabUrl).value} else {})
  {
  }

  /** A listing card's Details link, followed to the detail page with a lookup
      that finds the card's record, lands on the full layout of that record. */
  lemma DetailsLinkOpensFullLayout(p: Project, getProject: string -> Option<Project>)
    requires getProject(p.id) == Some(p)
    requires p.id != ""
    ensures Projects.CardFor(p).detailsLink.Some? ==> Resolve(Some(p.id), getProject) == Full(FullLayoutFor(p))
  {
  }
}
