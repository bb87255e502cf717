/** `build_object_project`: from a notification e-mail to a project lead, and the
    project record and status it produces. */
module BuildProject {
  import opened Wrappers
  import opened Text
  import opened Urls
  import opened Page
  import opened Crawler
  import opened ProjectCrawler
  import opened Extract

  /** `ProjectStatus`, a string enumeration. */
  datatype ProjectStatus = New | Answered | Rejected | Pending
  {
    function Value(): string
    {
      match this
      case New => "new"
      case Answered => "answered"
      case Rejected => "rejected"
      case Pending => "pending"
    }
  }

  /** `PROJECT_STATUS_VALUES`. */
  function StatusValues(): set<string>
  {
    {"new", "answered", "rejected", "pending"}
  }

  /** The four members have four different values, and those are exactly the
      status values. */
  lemma StatusValuesExact(s: ProjectStatus, t: ProjectStatus, v: string)
    ensures s.Value() in StatusValues()
    ensures s.Value() == t.Value() ==> s == t
    ensures v in StatusValues() ==> exists k: ProjectStatus :: k.Value() == v
  {
    if v in StatusValues() {
      var k := if v == "new" then New else if v == "answered" then Answered
               else if v == "rejected" then Rejected else Pending;
      assert k.Value() == v;
    }
  }

  /** A project lead: title, description, tags, page URL and status. */
  datatype Project = Project(title: string, description: string, tags: seq<string>, url: string, status: ProjectStatus)

  /** What `build_object_project` returns: the project, when there is one, and
      whether the project is open. */
  datatype Outcome = Outcome(project: Option<Project>, available: bool)

  /** What can make `build_object_project` raise: the link extraction, or loading
      the page when the crawler is built. */
  datatype BuildError = Extraction(extract: ExtractError) | Fetch(fetch: FetchError)

  /** The calls `build_object_project` makes, in order. */
  datatype Step = ExtractUrl | NewCrawler | CheckAvailability | CrawlTitle | CrawlDetails | CrawlTags

  datatype Build = Build(result: Result<Outcome, BuildError>, calls: seq<Step>)

  /** What a lead is built from besides the e-mail: how a link is parsed into a URL
      (`urlparse`), how the network answers a new crawler's session, the HTML
      parser and the robots.txt evaluator. */
  datatype World = World(
    urlOf: string -> Url,
    answer: (nat, Url) -> Response,
    parse: string -> Document,
    allow: (string, string, Url) -> bool)

  /** `build_object_project(email_content)` over the parsed e-mail, with the shared
      robots cache holding `robots`. */
  function BuildSpec(email: EmailDoc, w: World, robots: map<RobotsKey, Option<string>>): Build
  {
    match ExtractProjectUrl(email)
    case Err(e) => Build(Err(Extraction(e)), [ExtractUrl])
    case Ok(None) => Build(Ok(Outcome(None, false)), [ExtractUrl])
    case Ok(Some(u)) =>
      var b := LeadSpec(u, FreshLoad(w, robots, u).result);
      Build(b.result, [ExtractUrl] + b.calls)
  }

  /** The shared robots cache after `build_object_project(email_content)`. */
  function RobotsAfterBuild(email: EmailDoc, w: World, robots: map<RobotsKey, Option<string>>): map<RobotsKey, Option<string>>
  {
    match ExtractProjectUrl(email)
    case Ok(Some(u)) => FreshLoad(w, robots, u).after.robots
    case _ => robots
  }

  /** The part of `build_object_project` after a link `u` was found, where `loaded`
      is what the new crawler loaded. */
  function LeadSpec(u: string, loaded: Result<Option<Document>, FetchError>): Build
  {
    match loaded
    case Err(e) => Build(Err(Fetch(e)), [NewCrawler])
    case Ok(doc) =>
      if !IsOpen(doc) then
        Build(Ok(Outcome(None, false)), [NewCrawler, CheckAvailability])
      else
        Build(Ok(Outcome(Some(Project(TitleOf(doc), DetailsOf(doc), TagsOf(doc), u, New)), true)),
              [NewCrawler, CheckAvailability, CrawlTitle, CrawlDetails, CrawlTags])
  }

  /** What a new crawler for `u`, with a new session and the shared robots cache
      holding `robots`, loads when it is built. */
  function FreshLoad(w: World, robots: map<RobotsKey, Option<string>>, u: string): Loaded
  {
    LoadSpec(Config(w.urlOf(u), DefaultUserAgent, w.parse, w.allow, w.answer), Caches(map[], map[], robots, 0), w.urlOf(u))
  }

  /** The early exits: no link, no crawler; a closed project, no crawling of its
      fields; and the flag says whether there is a project, on every path. */
  lemma BuildProperties(email: EmailDoc, w: World, robots: map<RobotsKey, Option<string>>)
    ensures var b := BuildSpec(email, w, robots);
      ExtractProjectUrl(email) == Ok(None) ==> b.result == Ok(Outcome(None, false)) && NewCrawler !in b.calls
    ensures var b := BuildSpec(email, w, robots);
      b.result.Ok? ==> (b.result.value.available <==> b.result.value.project.Some?)
    ensures var b := BuildSpec(email, w, robots);
      b.result.Ok? && !b.result.value.available && NewCrawler in b.calls ==>
        CrawlTitle !in b.calls && CrawlDetails !in b.calls && CrawlTags !in b.calls
  {
  }

  /** A project that is built is new, open, and carries the extracted link and the
      fields of the loaded page. */
  lemma BuiltProject(email: EmailDoc, w: World, robots: map<RobotsKey, Option<string>>)
    requires BuildSpec(email, w, robots).result.Ok? && BuildSpec(email, w, robots).result.value.project.Some?
    ensures var p := BuildSpec(email, w, robots).result.value.project.value;
      ExtractProjectUrl(email) == Ok(Some(p.url)) && Contains(p.url, ProjectMarker)
      && p.status == New && FreshLoad(w, robots, p.url).result.Ok? && IsOpen(FreshLoad(w, robots, p.url).result.value)
      && p.title == TitleOf(FreshLoad(w, robots, p.url).result.value) && p.description == DetailsOf(FreshLoad(w, robots, p.url).result.value)
      && p.tags == TagsOf(FreshLoad(w, robots, p.url).result.value)
  {
  }

  /** `build_object_project(email_content)` with the crawler objects: the e-mail's
      link names the page of a new crawler, which behaves as `BuildSpec` says. */
  method BuildObjectProject(email: EmailDoc, w: World, robots: RobotsCache)
    returns (r: Result<Outcome, BuildError>, ghost calls: seq<Step>)
    modifies robots
    ensures r == BuildSpec(email, w, old(robots.entries)).result
    ensures calls == BuildSpec(email, w, old(robots.entries)).calls
    ensures robots.entries == RobotsAfterBuild(email, w, old(robots.entries))
  {
    var link := ExtractProjectUrl(email);
    if link.Err? {
      return Err(Extraction(link.error)), [ExtractUrl];
    }
    if link.value.None? {
      return Ok(Outcome(None, false)), [ExtractUrl];
    }
    ghost var rest;
    r, rest := CrawlLead(link.value.value, w, robots);
    calls := [ExtractUrl] + rest;
  }

  /** The crawler part of `build_object_project` for the link `u`. */
  method CrawlLead(u: string, w: World, robots: RobotsCache)
    returns (r: Result<Outcome, BuildError>, ghost calls: seq<Step>)
    modifies robots
    ensures var l := FreshLoad(w, old(robots.entries), u);
      r == LeadSpec(u, l.result).result && calls == LeadSpec(u, l.result).calls
      && robots.entries == l.after.robots
  {
    ghost var l := FreshLoad(w, robots.entries, u);
    calls := [NewCrawler];
    var made := CodeurProjectCrawler.Create(w.urlOf(u), w.answer, robots, w.parse, w.allow);
    if made.Err? {
      return Err(Fetch(made.error)), calls;
    }
    var c := made.value;
    LoadIsStable(c.base.Cfg(), Caches(map[], map[], old(robots.entries), 0), w.urlOf(u));
    assert c.Pending() == Loaded(l.result, l.after, []);
    ghost var rest;
    var outcome;
    outcome, rest := ReadLead(u, c);
    r, calls := Ok(outcome), calls + rest;
  }

  /** A crawler whose page is loaded: loading it again gives the same result and
      changes nothing. */
  ghost predicate Settled(c: CodeurProjectCrawler)
    reads c, c.base, c.base.robots, c.base.session
  {
    c.Pending().result.Ok? && c.Pending() == Loaded(c.Pending().result, c.base.State(), [])
  }

  /** The calls `build_object_project` makes on the crawler it built, whose caches
      are still empty. */
  method ReadLead(u: string, c: CodeurProjectCrawler) returns (r: Outcome, ghost calls: seq<Step>)
    requires c.Valid() && Settled(c)
    requires c.availabilityCache == map[] && c.titleCache == map[] && c.detailCache == map[] && c.tagsCache == map[]
    modifies c`availabilityCache, c`titleCache, c`detailCache, c`tagsCache
    modifies c.base`pageCache, c.base`soupCache, c.base`html, c.base`soup, c.base`events, c.base.robots, c.base.session
    ensures var lead := LeadSpec(u, old(c.Pending().result));
      Ok(r) == lead.result && [NewCrawler] + calls == lead.calls
    ensures c.base.robots.entries == old(c.base.robots.entries)
  {
    ghost var doc := c.Pending().result.value;
    ghost var settled := c.Pending();
    calls := [CheckAvailability];
    var open := c.CheckProjectAvailability();
    assert c.base.State() == old(c.base.State()) && c.Pending() == settled;
    assert open == Ok(IsOpen(doc));
    if !open.value {
      return Outcome(None, false), calls;
    }
    calls := calls + [CrawlTitle];
    var title := c.CrawlProjectTitle();
    assert c.base.State() == old(c.base.State()) && c.Pending() == settled;
    assert title == Ok(TitleOf(doc));
    calls := calls + [CrawlDetails];
    var details := c.CrawlProjectDetails();
    assert c.base.State() == old(c.base.State()) && c.Pending() == settled;
    assert details == Ok(DetailsOf(doc));
    calls := calls + [CrawlTags];
    var tags := c.CrawlProjectTags();
    assert tags == Ok(TagsOf(doc));
    r := Outcome(Some(Project(title.value, details.value, tags.value, u, New)), true);
    assert LeadSpec(u, Ok(doc)).calls == [NewCrawler] + calls;
  }
}
