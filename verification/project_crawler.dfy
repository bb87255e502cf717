/** `CodeurProjectCrawler` of app/services/project_crawler.py: a polite crawler
    bound to one project page, with getters for its availability, title,
    description, tags and budget, each cached under the page's normalised URL. */
module ProjectCrawler {
  import opened Wrappers
  import opened Text
  import opened Urls
  import opened Page
  import opened Budget
  import opened Crawler

  /** The word a status span must contain for the project to be open. */
  const OpenMarker: string := "Ouvert"
  /** The label text node of the tags paragraph (with a no-break space before ':'). */
  const TagsLabel: string := "Profils recherch\U{e9}s\U{a0}:"

  // ---------------------------------------------------------------------------
  // What each getter reads from a document (`None`: no document could be had)

  /** `check_project_availability`: some status span mentions "Ouvert". */
  predicate IsOpen(doc: Option<Document>)
  {
    doc.Some? && doc.value.status.Some? && doc.value.status.value.statusLine.Some?
    && exists i :: 0 <= i < |doc.value.status.value.statusLine.value|
                   && Contains(doc.value.status.value.statusLine.value[i], OpenMarker)
  }

  /** `crawl_project_title`: the heading text, or "" without one. */
  function TitleOf(doc: Option<Document>): string
  {
    if doc.Some? && doc.value.title.Some? then doc.value.title.value else ""
  }

  /** `crawl_project_details`: the description content, or "" when the description
      block or its content block is missing. */
  function DetailsOf(doc: Option<Document>): string
  {
    if doc.Some? && doc.value.description.Some? && doc.value.description.value.content.Some?
    then doc.value.description.value.content.value
    else ""
  }

  /** The tags one descendant contributes: a link's non-empty text; a text node's
      stripped text unless empty or the label. */
  function NodeTags(n: Node): seq<string>
  {
    match n
    case Anchor(text) => if text != "" then [text] else []
    case TextNode(raw) =>
      var text := Strip(raw);
      if text != "" && text != TagsLabel then [text] else []
    case OtherElement => []
  }

  /** The tags of a sequence of descendants, in order. */
  function NodesTags(nodes: seq<Node>): seq<string>
  {
    if nodes == [] then [] else NodeTags(nodes[0]) + NodesTags(nodes[1..])
  }

  /** Concatenation, in order. */
  function Flatten<T>(ss: seq<seq<T>>): seq<T>
  {
    if ss == [] then [] else ss[0] + Flatten(ss[1..])
  }

  /** The descendants of every direct `<span>` of every tags paragraph, in document order. */
  function TagNodes(d: Document): seq<Node>
  {
    Flatten(Flatten(d.tagParagraphs))
  }

  /** `crawl_project_tags`. */
  function TagsOf(doc: Option<Document>): seq<string>
  {
    if doc.Some? then NodesTags(TagNodes(doc.value)) else []
  }

  /** `crawl_project_amount`: no budget element means `0`; otherwise the parsed budget
      text, which may raise `ValueError`. */
  function AmountOf(doc: Option<Document>): Result<Amount, AmountError>
  {
    if doc.Some? && doc.value.budget.Some? && doc.value.budget.value.tooltip.Some?
    then ParseBudget(doc.value.budget.value.tooltip.value)
    else Ok(Zero)
  }

  // ---------------------------------------------------------------------------
  // Properties of the tags

  /** Every tag is non-empty; a tag from a text node is that node's stripped text
      and never the label. */
  lemma NodeTagsShape(n: Node)
    ensures forall t :: t in NodeTags(n) ==> t != ""
    ensures n.TextNode? ==> forall t :: t in NodeTags(n) ==> t == Strip(n.raw) && t != TagsLabel
    ensures n.OtherElement? ==> NodeTags(n) == []
  {
  }

  /** The tags of `a + b` are the tags of `a` followed by those of `b`. */
  lemma {:induction false} NodesTagsAppend(a: seq<Node>, b: seq<Node>)
    ensures NodesTags(a + b) == NodesTags(a) + NodesTags(b)
  {
    if a == [] {
      assert a + b == b;
    } else {
      assert (a + b)[1..] == a[1..] + b;
      NodesTagsAppend(a[1..], b);
    }
  }

  lemma {:induction false} FlattenAppend<T>(a: seq<seq<T>>, b: seq<seq<T>>)
    ensures Flatten(a + b) == Flatten(a) + Flatten(b)
  {
    if a == [] {
      assert a + b == b;
    } else {
      assert (a + b)[1..] == a[1..] + b;
      FlattenAppend(a[1..], b);
    }
  }

  /** One more element at the end of `Flatten`'s argument adds it at the end. */
  lemma FlattenPrefix<T>(ss: seq<seq<T>>, j: nat)
    requires j < |ss|
    ensures Flatten(ss[..j + 1]) == Flatten(ss[..j]) + ss[j]
  {
    assert ss[..j + 1] == ss[..j] + [ss[j]];
    FlattenAppend(ss[..j], [ss[j]]);
    assert Flatten([ss[j]]) == ss[j] + Flatten([]);
  }

  /** Document order: the tags of consecutive paragraphs come in paragraph order. */
  lemma ParagraphsInOrder(d: Document, a: seq<seq<seq<Node>>>, b: seq<seq<seq<Node>>>)
    requires d.tagParagraphs == a + b
    ensures TagsOf(Some(d)) == NodesTags(Flatten(Flatten(a))) + NodesTags(Flatten(Flatten(b)))
  {
    FlattenAppend(a, b);
    FlattenAppend(Flatten(a), Flatten(b));
    NodesTagsAppend(Flatten(Flatten(a)), Flatten(Flatten(b)));
  }

  /** A tag is collected exactly when some descendant contributes it. */
  lemma {:induction false} NodesTagsMembers(nodes: seq<Node>, t: string)
    ensures t in NodesTags(nodes) <==> exists i :: 0 <= i < |nodes| && t in NodeTags(nodes[i])
  {
    if nodes != [] {
      NodesTagsMembers(nodes[1..], t);
      if t in NodeTags(nodes[0]) {
        assert t in NodesTags(nodes);
      } else if t in NodesTags(nodes[1..]) {
        var i :| 0 <= i < |nodes[1..]| && t in NodeTags(nodes[1..][i]);
        assert t in NodeTags(nodes[i + 1]);
      } else {
        forall i | 0 < i < |nodes|
          ensures t !in NodeTags(nodes[i])
        {
          assert nodes[1..][i - 1] == nodes[i];
        }
      }
    }
  }

  /** No tag is empty, and a tag from a text node is never the label; tags from
      links are kept whatever their text. */
  lemma TagsShape(doc: Option<Document>, t: string)
    requires t in TagsOf(doc)
    ensures t != ""
    ensures doc.Some? && (forall n :: n in TagNodes(doc.value) ==> !n.Anchor?) ==> t != TagsLabel
  {
    var nodes := TagNodes(doc.value);
    NodesTagsMembers(nodes, t);
    var i :| 0 <= i < |nodes| && t in NodeTags(nodes[i]);
    NodeTagsShape(nodes[i]);
  }

  // ---------------------------------------------------------------------------
  // The crawler object

  /** Why `crawl_project_amount` raised: the fetch failed, or `int()` refused a group. */
  datatype AmountFailure = FetchFailed(fetch: FetchError) | BadAmount(value: AmountError)

  /** What a getter returns when the document is loaded: `f` of the document, or the
      error the fetch raised. */
  function OnDocument<T>(r: Result<Option<Document>, FetchError>, f: Option<Document> -> T): Result<T, FetchError>
  {
    match r
    case Ok(doc) => Ok(f(doc))
    case Err(e) => Err(e)
  }

  /** `CodeurProjectCrawler`: a crawler bound to one project page (`base`, the
      inherited `Crawler` state) with one cache per getter, keyed by the page's
      normalised URL. */
  class CodeurProjectCrawler {
    const base: Crawler
    var availabilityCache: map<Url, bool>
    var titleCache: map<Url, string>
    var detailCache: map<Url, string>
    var tagsCache: map<Url, seq<string>>
    var amountCache: map<Url, Amount>

    ghost predicate Valid()
      reads this, base, base.robots, base.session
    {
      base.Valid()
    }

    /** The key of every cache: the normalised page URL. */
    function Key(): Url
    {
      CacheKey(Some(base.url), base.url)
    }

    /** What loading the page now would give. */
    ghost function Pending(): Loaded
      reads base, base.robots, base.session
    {
      LoadSpec(base.Cfg(), base.State(), base.url)
    }

    /** The crawler state moved exactly as loading the page said it would. */
    twostate predicate LoadedPage()
      reads base, base.robots, base.session
    {
      base.State() == old(Pending()).after && base.events == old(base.events) + old(Pending()).events
    }

    constructor (base: Crawler)
      ensures this.base == base
      ensures availabilityCache == map[] && titleCache == map[] && detailCache == map[]
      ensures tagsCache == map[] && amountCache == map[]
    {
      this.base := base;
      availabilityCache := map[];
      titleCache := map[];
      detailCache := map[];
      tagsCache := map[];
      amountCache := map[];
    }

    /** `CodeurProjectCrawler(url)`: a new crawler with a new session (whose GETs the
        network answers with `answer`) and the default agent, which loads its page
        at once; the construction raises when that load raises. */
    static method Create(url: Url, answer: (nat, Url) -> Response, robots: RobotsCache,
                         parse: string -> Document, allow: (string, string, Url) -> bool)
      returns (r: Result<CodeurProjectCrawler, FetchError>)
      modifies robots
      ensures var l := LoadSpec(Config(url, DefaultUserAgent, parse, allow, answer),
                                Caches(map[], map[], old(robots.entries), 0), url);
        robots.entries == l.after.robots && (r.Err? <==> l.result.Err?)
        && (r.Err? ==> r.error == l.result.error)
      ensures r.Ok? ==>
        var c := r.value;
        var l := LoadSpec(Config(url, DefaultUserAgent, parse, allow, answer),
                          Caches(map[], map[], old(robots.entries), 0), url);
        fresh(c) && fresh(c.base) && fresh(c.base.session) && c.Valid()
        && c.base.url == url && c.base.robots == robots
        && c.base.Cfg() == Config(url, DefaultUserAgent, parse, allow, answer)
        && c.base.State() == l.after && c.base.events == l.events && c.base.soup == l.result.value
        && c.availabilityCache == map[] && c.titleCache == map[] && c.detailCache == map[]
        && c.tagsCache == map[] && c.amountCache == map[]
    {
      var session := new Session(answer);
      var crawler := new Crawler(url, session, None, robots, parse, allow);
      var doc := crawler.EnsureDocument(url);
      if doc.Err? {
        return Err(doc.error);
      }
      var c := new CodeurProjectCrawler(crawler);
      r := Ok(c);
    }

    /** `check_project_availability()`. */
    method CheckProjectAvailability() returns (r: Result<bool, FetchError>)
      requires Valid()
      modifies this`availabilityCache, base`pageCache, base`soupCache, base`html, base`soup, base`events
      modifies base.robots, base.session
      ensures Valid()
      ensures Key() in old(availabilityCache) ==>
        r == Ok(old(availabilityCache)[Key()]) && availabilityCache == old(availabilityCache)
        && unchanged(base, base.robots, base.session)
      ensures Key() !in old(availabilityCache) ==>
        LoadedPage() && r == OnDocument(old(Pending()).result, IsOpen)
        && availabilityCache == if r.Ok? then old(availabilityCache)[Key() := r.value] else old(availabilityCache)
    {
      var key := CacheKey(Some(base.url), base.url);
      if key in availabilityCache {
        return Ok(availabilityCache[key]);
      }
      ghost var pending := Pending();
      var loaded := base.EnsureDocument(base.url);
      assert loaded == pending.result && LoadedPage();
      if loaded.Err? {
        return Err(loaded.error);
      }
      var open := false;
      match loaded.value {
        case None =>
        case Some(doc) =>
          match doc.status {
            case None =>
            case Some(container) =>
              match container.statusLine {
                case None =>
                case Some(spans) =>
                  open := AnySpanOpen(spans);
              }
          }
      }
      assert open == IsOpen(loaded.value);
      availabilityCache := availabilityCache[key := open];
      r := Ok(open);
    }

    /** `crawl_project_title()`. */
    method CrawlProjectTitle() returns (r: Result<string, FetchError>)
      requires Valid()
      modifies this`titleCache, base`pageCache, base`soupCache, base`html, base`soup, base`events
      modifies base.robots, base.session
      ensures Valid()
      ensures Key() in old(titleCache) ==>
        r == Ok(old(titleCache)[Key()]) && titleCache == old(titleCache)
        && unchanged(base, base.robots, base.session)
      ensures Key() !in old(titleCache) ==>
        LoadedPage() && r == OnDocument(old(Pending()).result, TitleOf)
        && titleCache == if r.Ok? then old(titleCache)[Key() := r.value] else old(titleCache)
    {
      var key := CacheKey(Some(base.url), base.url);
      if key in titleCache {
        return Ok(titleCache[key]);
      }
      var loaded := base.EnsureDocument(base.url);
      if loaded.Err? {
        return Err(loaded.error);
      }
      var text := "";
      if loaded.value.Some? && loaded.value.value.title.Some? {
        text := loaded.value.value.title.value;
      }
      titleCache := titleCache[key := text];
      r := Ok(text);
    }

    /** `crawl_project_details()`. */
    method CrawlProjectDetails() returns (r: Result<string, FetchError>)
      requires Valid()
      modifies this`detailCache, base`pageCache, base`soupCache, base`html, base`soup, base`events
      modifies base.robots, base.session
      ensures Valid()
      ensures Key() in old(detailCache) ==>
        r == Ok(old(detailCache)[Key()]) && detailCache == old(detailCache)
        && unchanged(base, base.robots, base.session)
      ensures Key() !in old(detailCache) ==>
        LoadedPage() && r == OnDocument(old(Pending()).result, DetailsOf)
        && detailCache == if r.Ok? then old(detailCache)[Key() := r.value] else old(detailCache)
    {
      var key := CacheKey(Some(base.url), base.url);
      if key in detailCache {
        return Ok(detailCache[key]);
      }
      var loaded := base.EnsureDocument(base.url);
      if loaded.Err? {
        return Err(loaded.error);
      }
      var text := "";
      if loaded.value.Some? && loaded.value.value.description.Some? {
        var block := loaded.value.value.description.value;
        if block.content.Some? {
          text := block.content.value;
        }
      }
      detailCache := detailCache[key := text];
      r := Ok(text);
    }

    /** `crawl_project_tags()`: every direct span of every tags paragraph, every
        descendant of it, in document order. */
    method CrawlProjectTags() returns (r: Result<seq<string>, FetchError>)
      requires Valid()
      modifies this`tagsCache, base`pageCache, base`soupCache, base`html, base`soup, base`events
      modifies base.robots, base.session
      ensures Valid()
      ensures Key() in old(tagsCache) ==>
        r == Ok(old(tagsCache)[Key()]) && tagsCache == old(tagsCache)
        && unchanged(base, base.robots, base.session)
      ensures Key() !in old(tagsCache) ==>
        LoadedPage() && r == OnDocument(old(Pending()).result, TagsOf)
        && tagsCache == if r.Ok? then old(tagsCache)[Key() := r.value] else old(tagsCache)
    {
      var key := CacheKey(Some(base.url), base.url);
      if key in tagsCache {
        return Ok(tagsCache[key]);
      }
      var loaded := base.EnsureDocument(base.url);
      if loaded.Err? {
        return Err(loaded.error);
      }
      var tags: seq<string> := [];
      if loaded.value.Some? {
        tags := CollectTags(loaded.value.value.tagParagraphs);
      }
      tagsCache := tagsCache[key := tags];
      r := Ok(tags);
    }

    /** `crawl_project_amount()`; a `ValueError` from `int()` is raised and nothing
        is cached. */
    method CrawlProjectAmount() returns (r: Result<Amount, AmountFailure>)
      requires Valid()
      modifies this`amountCache, base`pageCache, base`soupCache, base`html, base`soup, base`events
      modifies base.robots, base.session
      ensures Valid()
      ensures Key() in old(amountCache) ==>
        r == Ok(old(amountCache)[Key()]) && amountCache == old(amountCache)
        && unchanged(base, base.robots, base.session)
      ensures Key() !in old(amountCache) ==>
        LoadedPage()
        && r == (match old(Pending()).result
                 case Err(e) => Err(FetchFailed(e))
                 case Ok(doc) => match AmountOf(doc) case Ok(a) => Ok(a) case Err(v) => Err(BadAmount(v)))
        && amountCache == if r.Ok? then old(amountCache)[Key() := r.value] else old(amountCache)
    {
      var key := CacheKey(Some(base.url), base.url);
      if key in amountCache {
        return Ok(amountCache[key]);
      }
      var loaded := base.EnsureDocument(base.url);
      if loaded.Err? {
        return Err(FetchFailed(loaded.error));
      }
      var amount := Zero;
      if loaded.value.Some? && loaded.value.value.budget.Some? {
        var paragraph := loaded.value.value.budget.value;
        if paragraph.tooltip.Some? {
          var parsed := ParseBudget(paragraph.tooltip.value);
          if parsed.Err? {
            return Err(BadAmount(parsed.error));
          }
          amount := parsed.value;
        }
      }
      amountCache := amountCache[key := amount];
      r := Ok(amount);
    }
  }

  /** The loop of `check_project_availability` over the status spans: it stops at
      the first span mentioning "Ouvert". */
  method AnySpanOpen(spans: seq<string>) returns (open: bool)
    ensures open <==> exists i :: 0 <= i < |spans| && Contains(spans[i], OpenMarker)
  {
    open := false;
    var i := 0;
    while i < |spans|
      invariant 0 <= i <= |spans|
      invariant forall j :: 0 <= j < i ==> !Contains(spans[j], OpenMarker)
    {
      if Contains(spans[i], OpenMarker) {
        return true;
      }
      i := i + 1;
    }
  }

  /** The loops of `crawl_project_tags` over the tags paragraphs of a document. */
  method CollectTags(ps: seq<seq<seq<Node>>>) returns (tags: seq<string>)
    ensures tags == NodesTags(Flatten(Flatten(ps)))
  {
    tags := [];
    for i := 0 to |ps|
      invariant tags == NodesTags(Flatten(Flatten(ps[..i])))
    {
      var spans := ps[i];
      var more := CollectSpanTags(spans);
      FlattenPrefix(ps, i);
      FlattenAppend(Flatten(ps[..i]), spans);
      NodesTagsAppend(Flatten(Flatten(ps[..i])), Flatten(spans));
      tags := tags + more;
    }
    assert ps[..|ps|] == ps;
  }

  /** The loops of `crawl_project_tags` over the direct spans of one paragraph. */
  method CollectSpanTags(spans: seq<seq<Node>>) returns (tags: seq<string>)
    ensures tags == NodesTags(Flatten(spans))
  {
    tags := [];
    for j := 0 to |spans|
      invariant tags == NodesTags(Flatten(spans[..j]))
    {
      var nodes := spans[j];
      assert Flatten(spans[..j]) + nodes[..0] == Flatten(spans[..j]);
      for k := 0 to |nodes|
        invariant tags == NodesTags(Flatten(spans[..j]) + nodes[..k])
      {
        var found: seq<string> := [];
        match nodes[k] {
          case Anchor(text) =>
            if text != "" {
              found := [text];
            }
          case TextNode(raw) =>
            var text := Strip(raw);
            if text != "" && text != TagsLabel {
              found := [text];
            }
          case OtherElement =>
        }
        TagsStep(Flatten(spans[..j]), nodes, k);
        tags := tags + found;
      }
      assert nodes[..|nodes|] == nodes;
      FlattenPrefix(spans, j);
    }
    assert spans[..|spans|] == spans;
  }

  /** The loop step of `CrawlProjectTags`: the tags after one more descendant. */
  lemma TagsStep(done: seq<Node>, nodes: seq<Node>, k: nat)
    requires k < |nodes|
    ensures NodesTags(done + nodes[..k + 1]) == NodesTags(done + nodes[..k]) + NodeTags(nodes[k])
  {
    assert done + nodes[..k + 1] == (done + nodes[..k]) + [nodes[k]];
    NodesTagsAppend(done + nodes[..k], [nodes[k]]);
    assert NodesTags([nodes[k]]) == NodeTags(nodes[k]) + NodesTags([]);
  }
}
