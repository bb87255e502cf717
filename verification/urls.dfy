/** URLs as `urllib.parse.urlparse` splits them, with the query already split into
    decoded (key, value) pairs in their original order, as `parse_qs(...,
    keep_blank_values=True)` reads them. The normalisation and the site policy of
    the polite fetcher (app/services/crawler.py) are stated over this record. */
module Urls {
  import opened Wrappers
  import opened Text

  datatype QueryParam = QueryParam(key: string, value: string)

  datatype Url = Url(scheme: string, netloc: string, path: string, query: seq<QueryParam>, fragment: string)

  /** The only query parameter the crawler keeps and the site allows. */
  const PageParam: string := "page"

  /** Paths under this prefix are internal pages the crawler must not visit. */
  const SystemPrefix: string := "/system/projects/"

  /** The `page` entries of a query, in their original order. */
  function PageEntries(q: seq<QueryParam>): (r: seq<QueryParam>)
    ensures |r| <= |q|
    ensures forall i :: 0 <= i < |r| ==> r[i].key == PageParam
  {
    if q == [] then []
    else (if q[0].key == PageParam then [q[0]] else []) + PageEntries(q[1..])
  }

  /** `_normalize_url`: the same URL with every query parameter other than `page` dropped. */
  function NormalizeUrl(u: Url): Url
  {
    u.(query := PageEntries(u.query))
  }

  /** `_cache_key`: the normalised form of the argument, or of the crawler's own URL
      when the argument is absent (Python `None` or the empty string). */
  function CacheKey(arg: Option<Url>, own: Url): Url
  {
    NormalizeUrl(if arg.Some? then arg.value else own)
  }

  predicate OnlyPageParams(q: seq<QueryParam>)
  {
    forall i :: 0 <= i < |q| ==> q[i].key == PageParam
  }

  /** `_complies_with_site_policy`: not a system path, and no query key other than `page`. */
  predicate CompliesWithSitePolicy(u: Url)
  {
    !StartsWith(u.path, SystemPrefix) && OnlyPageParams(u.query)
  }

  /** The key of the class-wide robots cache: (scheme, netloc, user agent). */
  datatype RobotsKey = RobotsKey(scheme: string, netloc: string, agent: string)

  function RobotsKeyOf(u: Url, agent: string): RobotsKey
  {
    RobotsKey(u.scheme, u.netloc, agent)
  }

  /** `urljoin(f"{scheme}://{netloc}", "/robots.txt")`. */
  function RobotsUrl(u: Url): (r: Url)
    ensures r.scheme == u.scheme && r.netloc == u.netloc && r.path == "/robots.txt" && r.query == []
  {
    Url(u.scheme, u.netloc, "/robots.txt", [], "")
  }

  // ---------------------------------------------------------------------------
  // Properties of the normalisation and of the policy

  /** Filtering `page` entries distributes over concatenation: relative order is kept. */
  lemma {:induction false} PageEntriesAppend(a: seq<QueryParam>, b: seq<QueryParam>)
    ensures PageEntries(a + b) == PageEntries(a) + PageEntries(b)
  {
    if a == [] {
      assert a + b == b;
    } else {
      assert (a + b)[1..] == a[1..] + b;
      PageEntriesAppend(a[1..], b);
    }
  }

  /** Every `page` entry survives, and nothing else does: a query with only `page`
      keys is left exactly as it was, and any other entry is removed. */
  lemma {:induction false} PageEntriesKeepsPages(q: seq<QueryParam>)
    ensures OnlyPageParams(q) <==> PageEntries(q) == q
  {
    if q != [] {
      PageEntriesKeepsPages(q[1..]);
      if q[0].key != PageParam {
        assert |PageEntries(q)| <= |q[1..]| < |q|;
      } else {
        assert OnlyPageParams(q) <==> OnlyPageParams(q[1..]);
      }
    }
  }

  /** The number of `page` values kept is the number present. */
  function CountPages(q: seq<QueryParam>): nat
  {
    if q == [] then 0 else (if q[0].key == PageParam then 1 else 0) + CountPages(q[1..])
  }

  lemma {:induction false} PageEntriesCount(q: seq<QueryParam>)
    ensures |PageEntries(q)| == CountPages(q)
  {
    if q != [] { PageEntriesCount(q[1..]); }
  }

  /** A normalised URL keeps scheme, host, path and fragment, holds only `page`
      parameters, and normalising it again changes nothing. */
  lemma NormalizeUrlProperties(u: Url)
    ensures var n := NormalizeUrl(u);
      n.scheme == u.scheme && n.netloc == u.netloc && n.path == u.path && n.fragment == u.fragment
      && OnlyPageParams(n.query) && NormalizeUrl(n) == n
  {
    PageEntriesKeepsPages(PageEntries(u.query));
  }

  /** A URL the policy accepts is its own cache key; a URL off the system paths
      is accepted once normalised. */
  lemma {:induction false} PolicyAndNormalization(u: Url)
    ensures CompliesWithSitePolicy(u) ==> NormalizeUrl(u) == u
    ensures !StartsWith(u.path, SystemPrefix) ==> CompliesWithSitePolicy(NormalizeUrl(u))
  {
    PageEntriesKeepsPages(u.query);
  }

  /** The policy rejects every system path, whatever the query. */
  lemma SystemPathsRejected(u: Url)
    requires StartsWith(u.path, SystemPrefix)
    ensures !CompliesWithSitePolicy(u)
  {
  }

  /** The cache key is the normalised argument, falling back to the crawler's
      own URL; either way it is a normal form. */
  lemma CacheKeyFallback(arg: Option<Url>, own: Url)
    ensures arg.None? ==> CacheKey(arg, own) == NormalizeUrl(own)
    ensures arg.Some? ==> CacheKey(arg, own) == NormalizeUrl(arg.value)
    ensures NormalizeUrl(CacheKey(arg, own)) == CacheKey(arg, own)
  {
    NormalizeUrlProperties(if arg.Some? then arg.value else own);
  }

  /** Normalising keeps scheme and host, so a URL and its cache key share one robots entry. */
  lemma RobotsKeyOfNormalized(u: Url, agent: string)
    ensures RobotsKeyOf(NormalizeUrl(u), agent) == RobotsKeyOf(u, agent)
  {
  }
}
