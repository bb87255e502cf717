/** The polite fetcher of app/services/crawler.py: URL normalisation and site
    policy (module Urls), a per-instance page cache and parsed-document cache, a
    robots cache shared by every crawler, and a bounded retry loop with
    exponential backoff and a courtesy delay after every attempt.

    The network is a `Session` whose n-th GET is answered by an oracle; sleeping
    is recorded as events in a ghost log; durations and jitter are not modelled. */
module Crawler {
  import opened Wrappers
  import opened Urls
  import opened Page

  const DefaultUserAgent: string := "CodeurAgentCrawler/1.0 (yingqi.luo.fr@gmail.com)"
  const MaxRetries: nat := 3
  const BackoffBase: nat := 2
  /** The first backoff; Python starts from the float 1.0. */
  const FirstBackoff: nat := 1

  /** What one GET gives: a transport failure (`requests.RequestException`), or a
      reply with a status code and a body. */
  datatype Response = TransportFailure | Reply(status: int, text: string)

  /** Why a fetch raised: the transport failed, `raise_for_status` refused a status,
      or the loop ran out of attempts (the `HTTPError` after the loop). */
  datatype FetchError = Transport | HttpStatus(code: int) | RetriesExhausted

  /** Statuses `raise_for_status` raises for. */
  predicate IsErrorStatus(code: int)
  {
    400 <= code < 600
  }

  /** Statuses the loop retries. */
  predicate IsRetryStatus(code: int)
  {
    code == 429 || code == 503
  }

  /** Answers after which the loop tries again (while attempts remain). */
  predicate Retryable(resp: Response)
  {
    resp.TransportFailure? || IsRetryStatus(resp.status)
  }

  /** What a single answer means once no retry is left. */
  function Verdict(resp: Response): Result<string, FetchError>
  {
    match resp
    case TransportFailure => Err(Transport)
    case Reply(code, text) => if IsErrorStatus(code) then Err(HttpStatus(code)) else Ok(text)
  }

  /** What the fetcher does, in order: a GET, a courtesy delay, a backoff sleep
      with the base value of the backoff (jitter left out). */
  datatype Event = Get(url: Url) | CourtesyDelay | BackoffSleep(base: nat)

  /** The network: the n-th GET of the session (counting from 0) for `url` gets
      `answer(n, url)`. */
  class Session {
    const answer: (nat, Url) -> Response
    var sent: nat

    constructor (answer: (nat, Url) -> Response)
      ensures this.answer == answer && sent == 0
    {
      this.answer := answer;
      sent := 0;
    }

    method Get(target: Url) returns (resp: Response)
      modifies this
      ensures resp == answer(old(sent), target) && sent == old(sent) + 1
    {
      resp := answer(sent, target);
      sent := sent + 1;
    }
  }

  /** The class-level `_robots_cache`: one object shared by every crawler. An entry
      is the robots.txt text that was parsed, or `None` when fetching it failed. */
  class RobotsCache {
    var entries: map<RobotsKey, Option<string>>

    constructor ()
      ensures entries == map[]
    {
      entries := map[];
    }
  }

  // ---------------------------------------------------------------------------
  // The retry loop, as a function of the answers the attempts get

  /** One run of `_request_with_retries`: what it returns or raises, how many GETs
      it made, and what it did in order. */
  datatype RetryRun = RetryRun(result: Result<string, FetchError>, attempts: nat, events: seq<Event>)

  /** The events of an attempt that is retried: on a transport failure the courtesy
      delay comes before the backoff sleep, on a 429/503 the backoff sleep comes
      first and the courtesy delay of the `finally` clause after it. */
  function RetriedEvents(url: Url, resp: Response, backoff: nat): seq<Event>
  {
    if resp.TransportFailure? then [Get(url), CourtesyDelay, BackoffSleep(backoff)]
    else [Get(url), BackoffSleep(backoff), CourtesyDelay]
  }

  /** The run from attempt `k` on (0-based), with `backoff` the current backoff: a
      retryable answer while attempts remain goes on with the doubled backoff; any
      other answer ends the run with its verdict, after one courtesy delay. */
  function RetryFrom(url: Url, answer: (nat, Url) -> Response, start: nat, k: nat, backoff: nat): RetryRun
    requires k < MaxRetries
    decreases MaxRetries - k
  {
    var resp := answer(start + k, url);
    if k + 1 < MaxRetries && Retryable(resp) then
      var rest := RetryFrom(url, answer, start, k + 1, backoff * BackoffBase);
      rest.(events := RetriedEvents(url, resp, backoff) + rest.events)
    else RetryRun(Verdict(resp), k + 1, [Get(url), CourtesyDelay])
  }

  /** `_request_with_retries(url)` on a session that has already sent `start` requests. */
  function Retry(url: Url, answer: (nat, Url) -> Response, start: nat): RetryRun
  {
    RetryFrom(url, answer, start, 0, FirstBackoff)
  }

  /** The attempt that decides the run: the first one whose answer is not retryable,
      or the last one allowed. */
  function DecidingAttempt(url: Url, answer: (nat, Url) -> Response, start: nat, k: nat): (i: nat)
    requires k < MaxRetries
    ensures k <= i < MaxRetries
    ensures forall n :: start + k <= n < start + i ==> Retryable(answer(n, url))
    ensures i < MaxRetries - 1 ==> !Retryable(answer(start + i, url))
    decreases MaxRetries - k
  {
    if k == MaxRetries - 1 || !Retryable(answer(start + k, url)) then k
    else DecidingAttempt(url, answer, start, k + 1)
  }

  /** One step of `DecidingAttempt`, so that proofs need not unfold it. */
  lemma DecidingStep(url: Url, answer: (nat, Url) -> Response, start: nat, k: nat)
    requires k < MaxRetries
    ensures DecidingAttempt(url, answer, start, k)
      == if k + 1 < MaxRetries && Retryable(answer(start + k, url)) then DecidingAttempt(url, answer, start, k + 1) else k
  {
  }

  /** The pacing of a run: GETs and courtesy delays in order, backoff sleeps left out. */
  datatype Tick = Request | Pause

  function Ticks(events: seq<Event>): seq<Tick>
  {
    if events == [] then [] else TickOf(events[0]) + Ticks(events[1..])
  }

  /** The base values of the backoff sleeps, in order. */
  function Backoffs(events: seq<Event>): seq<nat>
  {
    if events == [] then [] else BackoffOf(events[0]) + Backoffs(events[1..])
  }

  /** `n` attempts, each a GET followed by exactly one courtesy delay. */
  function Paced(n: nat): seq<Tick>
  {
    if n == 0 then [] else [Request, Pause] + Paced(n - 1)
  }

  /** The doubling backoff values from `b`: b, 2b, 4b, ... (`n` of them). */
  function Doubling(b: nat, n: nat): seq<nat>
    decreases n
  {
    if n == 0 then [] else [b] + Doubling(b * BackoffBase, n - 1)
  }

  /** The ticks of one event. */
  function TickOf(e: Event): seq<Tick>
  {
    match e
    case Get(_) => [Request]
    case CourtesyDelay => [Pause]
    case BackoffSleep(_) => []
  }

  /** The backoff value of one event, if it is a backoff sleep. */
  function BackoffOf(e: Event): seq<nat>
  {
    if e.BackoffSleep? then [e.base] else []
  }

  lemma {:induction false} TicksAppend(a: seq<Event>, b: seq<Event>)
    ensures Ticks(a + b) == Ticks(a) + Ticks(b)
  {
    if a == [] {
      assert a + b == b;
    } else {
      var ab := a + b;
      assert ab[0] == a[0] && ab[1..] == a[1..] + b;
      assert Ticks(ab) == TickOf(a[0]) + Ticks(a[1..] + b);
      assert Ticks(a) == TickOf(a[0]) + Ticks(a[1..]);
      TicksAppend(a[1..], b);
      assert TickOf(a[0]) + (Ticks(a[1..]) + Ticks(b)) == (TickOf(a[0]) + Ticks(a[1..])) + Ticks(b);
    }
  }

  lemma {:induction false} BackoffsAppend(a: seq<Event>, b: seq<Event>)
    ensures Backoffs(a + b) == Backoffs(a) + Backoffs(b)
  {
    if a == [] {
      assert a + b == b;
    } else {
      var ab := a + b;
      assert ab[0] == a[0] && ab[1..] == a[1..] + b;
      assert Backoffs(ab) == BackoffOf(a[0]) + Backoffs(a[1..] + b);
      assert Backoffs(a) == BackoffOf(a[0]) + Backoffs(a[1..]);
      BackoffsAppend(a[1..], b);
      assert BackoffOf(a[0]) + (Backoffs(a[1..]) + Backoffs(b)) == (BackoffOf(a[0]) + Backoffs(a[1..])) + Backoffs(b);
    }
  }

  lemma EventsOf2(u: Url)
    ensures Ticks([Get(u), CourtesyDelay]) == [Request, Pause]
    ensures Backoffs([Get(u), CourtesyDelay]) == []
  {
    var e := [Get(u), CourtesyDelay];
    assert e[1..] == [CourtesyDelay] && e[1..][1..] == [];
    assert Ticks(e[1..]) == [Pause] && Backoffs(e[1..]) == [];
  }

  lemma EventsOf3(u: Url, b: nat)
    ensures Ticks([Get(u), CourtesyDelay, BackoffSleep(b)]) == [Request, Pause]
    ensures Backoffs([Get(u), CourtesyDelay, BackoffSleep(b)]) == [b]
    ensures Ticks([Get(u), BackoffSleep(b), CourtesyDelay]) == [Request, Pause]
    ensures Backoffs([Get(u), BackoffSleep(b), CourtesyDelay]) == [b]
  {
    var e := [Get(u), CourtesyDelay, BackoffSleep(b)];
    assert e[1..] == [CourtesyDelay, BackoffSleep(b)] && e[1..][1..] == [BackoffSleep(b)] && e[1..][1..][1..] == [];
    assert Ticks(e[1..][1..]) == [] && Backoffs(e[1..][1..]) == [b];
    assert Ticks(e[1..]) == [Pause] && Backoffs(e[1..]) == [b];
    var f := [Get(u), BackoffSleep(b), CourtesyDelay];
    assert f[1..] == [BackoffSleep(b), CourtesyDelay] && f[1..][1..] == [CourtesyDelay] && f[1..][1..][1..] == [];
    assert Ticks(f[1..][1..]) == [Pause] && Backoffs(f[1..][1..]) == [];
    assert Ticks(f[1..]) == [Pause] && Backoffs(f[1..]) == [b];
  }

  /** One step of the run, as a lemma, so that proofs need not unfold `RetryFrom`. */
  lemma RetryFromStep(url: Url, answer: (nat, Url) -> Response, start: nat, k: nat, backoff: nat)
    requires k < MaxRetries
    ensures var resp := answer(start + k, url);
      var run := RetryFrom(url, answer, start, k, backoff);
      if k + 1 < MaxRetries && Retryable(resp) then
        var rest := RetryFrom(url, answer, start, k + 1, backoff * BackoffBase);
        run.result == rest.result && run.attempts == rest.attempts
        && run.events == RetriedEvents(url, resp, backoff) + rest.events
      else run == RetryRun(Verdict(resp), k + 1, [Get(url), CourtesyDelay])
  {
  }

  /** How the loop of `_request_with_retries` keeps track of the whole run `whole`:
      after the events `done`, what remains is the run from attempt `k`. An attempt
      either ends the run or leaves the run from attempt `k + 1` remaining. */
  lemma RetryResumes(url: Url, answer: (nat, Url) -> Response, start: nat, k: nat, backoff: nat,
                     whole: RetryRun, done: seq<Event>, base: seq<Event>)
    requires k < MaxRetries
    requires var run := RetryFrom(url, answer, start, k, backoff);
      whole.result == run.result && whole.attempts == run.attempts && done + run.events == base + whole.events
    ensures var resp := answer(start + k, url);
      if k + 1 < MaxRetries && Retryable(resp) then
        var rest := RetryFrom(url, answer, start, k + 1, backoff * BackoffBase);
        whole.result == rest.result && whole.attempts == rest.attempts
        && (done + RetriedEvents(url, resp, backoff)) + rest.events == base + whole.events
      else
        whole.result == Verdict(resp) && whole.attempts == k + 1
        && done + [Get(url), CourtesyDelay] == base + whole.events
  {
    RetryFromStep(url, answer, start, k, backoff);
    var resp := answer(start + k, url);
    if k + 1 < MaxRetries && Retryable(resp) {
      var rest := RetryFrom(url, answer, start, k + 1, backoff * BackoffBase);
      assert (done + RetriedEvents(url, resp, backoff)) + rest.events
          == done + (RetriedEvents(url, resp, backoff) + rest.events);
    }
  }

  /** The run from attempt `k` is decided by the deciding attempt's answer. */
  lemma {:induction false} RetryFromDecides(url: Url, answer: (nat, Url) -> Response, start: nat, k: nat, backoff: nat)
    requires k < MaxRetries
    ensures var run := RetryFrom(url, answer, start, k, backoff);
      var i := DecidingAttempt(url, answer, start, k);
      run.result == Verdict(answer(start + i, url)) && run.attempts == i + 1
    decreases MaxRetries - k
  {
    RetryFromStep(url, answer, start, k, backoff);
    DecidingStep(url, answer, start, k);
    if k + 1 < MaxRetries && Retryable(answer(start + k, url)) {
      RetryFromDecides(url, answer, start, k + 1, backoff * BackoffBase);
    }
  }

  /** The run from attempt `k` makes one GET and one courtesy delay per attempt, with
      the doubling backoffs between attempts. */
  lemma RetryFromPacing(url: Url, answer: (nat, Url) -> Response, start: nat, k: nat, backoff: nat)
    requires k < MaxRetries
    ensures var run := RetryFrom(url, answer, start, k, backoff);
      var i := DecidingAttempt(url, answer, start, k);
      Ticks(run.events) == Paced(i + 1 - k) && Backoffs(run.events) == Doubling(backoff, i - k)
  {
    RetryFromDecides(url, answer, start, k, backoff);
    RetryFromTicks(url, answer, start, k, backoff);
    RetryFromBackoffs(url, answer, start, k, backoff);
  }

  /** The GETs and courtesy delays of a run alternate, one pair per attempt. */
  lemma {:induction false} RetryFromTicks(url: Url, answer: (nat, Url) -> Response, start: nat, k: nat, backoff: nat)
    requires k < MaxRetries
    ensures var run := RetryFrom(url, answer, start, k, backoff);
      k < run.attempts && Ticks(run.events) == Paced(run.attempts - k)
    decreases MaxRetries - k
  {
    RetryFromStep(url, answer, start, k, backoff);
    var resp := answer(start + k, url);
    if k + 1 < MaxRetries && Retryable(resp) {
      var rest := RetryFrom(url, answer, start, k + 1, backoff * BackoffBase);
      RetryFromTicks(url, answer, start, k + 1, backoff * BackoffBase);
      var head := RetriedEvents(url, resp, backoff);
      TicksAppend(head, rest.events);
      EventsOf3(url, backoff);
      assert Paced(rest.attempts - k) == [Request, Pause] + Paced(rest.attempts - (k + 1));
    } else {
      EventsOf2(url);
      assert Paced(1) == [Request, Pause] + Paced(0);
    }
  }

  /** The backoff sleeps of a run double from the current backoff, one per retried attempt. */
  lemma {:induction false} RetryFromBackoffs(url: Url, answer: (nat, Url) -> Response, start: nat, k: nat, backoff: nat)
    requires k < MaxRetries
    ensures var run := RetryFrom(url, answer, start, k, backoff);
      k < run.attempts && Backoffs(run.events) == Doubling(backoff, run.attempts - 1 - k)
    decreases MaxRetries - k
  {
    RetryFromStep(url, answer, start, k, backoff);
    var resp := answer(start + k, url);
    if k + 1 < MaxRetries && Retryable(resp) {
      var rest := RetryFrom(url, answer, start, k + 1, backoff * BackoffBase);
      RetryFromBackoffs(url, answer, start, k + 1, backoff * BackoffBase);
      var head := RetriedEvents(url, resp, backoff);
      BackoffsAppend(head, rest.events);
      EventsOf3(url, backoff);
      assert Doubling(backoff, rest.attempts - 1 - k) == [backoff] + Doubling(backoff * BackoffBase, rest.attempts - 1 - (k + 1));
    } else {
      EventsOf2(url);
    }
  }

  /** `_request_with_retries` as the source promises it: at most `MaxRetries` GETs;
      the first non-retryable answer decides (text of a non-error reply, or the
      error raised for it without retrying); the third consecutive failure raises,
      so the error after the loop is never reached; every attempt is followed by
      exactly one courtesy delay; the backoff sleeps have the base values 1, then 2. */
  lemma RetrySpec(url: Url, answer: (nat, Url) -> Response, start: nat)
    ensures var run := Retry(url, answer, start);
      var i := DecidingAttempt(url, answer, start, 0);
      1 <= run.attempts <= MaxRetries
      && run.attempts == i + 1
      && run.result == Verdict(answer(start + i, url))
      && run.result != Err(RetriesExhausted)
      && Ticks(run.events) == Paced(run.attempts)
      && Backoffs(run.events) == [1, 2][..run.attempts - 1]
  {
    RetryFromDecides(url, answer, start, 0, FirstBackoff);
    RetryFromTicks(url, answer, start, 0, FirstBackoff);
    RetryFromBackoffs(url, answer, start, 0, FirstBackoff);
    var run := Retry(url, answer, start);
    DoublingFromOne(run.attempts - 1);
    var i := DecidingAttempt(url, answer, start, 0);
    VerdictNotExhausted(answer(start + i, url));
  }

  /** The first backoff values: 1, then 2. */
  lemma DoublingFromOne(n: nat)
    requires n <= 2
    ensures Doubling(FirstBackoff, n) == [1, 2][..n]
  {
    assert Doubling(2, 0) == [];
    assert Doubling(2, 1) == [2] + Doubling(4, 0);
  }

  /** A single answer never gives the error reserved for the end of the loop. */
  lemma VerdictNotExhausted(resp: Response)
    ensures Verdict(resp) != Err(RetriesExhausted)
  {
  }

  /** A non-error reply on the first attempt is returned at once: one GET, one delay. */
  lemma RetryFirstSuccess(url: Url, answer: (nat, Url) -> Response, start: nat, code: int, text: string)
    requires answer(start, url) == Reply(code, text) && !IsErrorStatus(code)
    ensures Retry(url, answer, start) == RetryRun(Ok(text), 1, [Get(url), CourtesyDelay])
  {
  }

  /** A 429 followed by a success returns the success after one backoff of base 1. */
  lemma RetryAfterTooManyRequests(url: Url, answer: (nat, Url) -> Response, start: nat, text: string)
    requires answer(start, url) == Reply(429, "") && answer(start + 1, url) == Reply(200, text)
    ensures Retry(url, answer, start).result == Ok(text)
    ensures Retry(url, answer, start).events
      == [Get(url), BackoffSleep(1), CourtesyDelay, Get(url), CourtesyDelay]
  {
  }

  /** Three consecutive 503 replies exhaust the attempts and raise for the last one. */
  lemma RetryThreeUnavailable(url: Url, answer: (nat, Url) -> Response, start: nat)
    requires answer(start, url) == answer(start + 1, url) == answer(start + 2, url) == Reply(503, "")
    ensures Retry(url, answer, start).result == Err(HttpStatus(503))
    ensures Retry(url, answer, start).attempts == MaxRetries
  {
  }

  // ---------------------------------------------------------------------------
  // Robots cache and fetch, as functions of the caches

  /** The parser `_ensure_robot_parser` builds from one answer: the robots.txt text
      when the reply passes `raise_for_status`, otherwise `None`. */
  function RobotsRules(resp: Response): Option<string>
  {
    match resp
    case TransportFailure => None
    case Reply(code, text) => if IsErrorStatus(code) then None else Some(text)
  }

  /** `_can_fetch` once the parser is known: no parser allows everything. */
  predicate Permits(rules: Option<string>, allow: (string, string, Url) -> bool, agent: string, target: Url)
  {
    rules.None? || allow(rules.value, agent, target)
  }

  /** What one crawler is built from: its own URL, user agent, the HTML parser, the
      robots.txt evaluator (`RobotFileParser.can_fetch`) and its session's oracle. */
  datatype Config = Config(
    own: Url,
    agent: string,
    parse: string -> Document,
    allow: (string, string, Url) -> bool,
    answer: (nat, Url) -> Response)

  /** The state the fetch operations read and write: page cache, document cache,
      the shared robots cache and the number of requests the session has sent. */
  datatype Caches = Caches(
    pages: map<Url, string>,
    soups: map<Url, Document>,
    robots: map<RobotsKey, Option<string>>,
    sent: nat)

  /** The document cache holds exactly the parsed pages of the page cache. */
  predicate Coherent(c: Config, s: Caches)
  {
    s.soups.Keys == s.pages.Keys && forall k :: k in s.soups ==> s.soups[k] == c.parse(s.pages[k])
  }

  datatype RobotsStep = RobotsStep(rules: Option<string>, robots: map<RobotsKey, Option<string>>, sent: nat, events: seq<Event>)

  /** `_ensure_robot_parser(target)`: the cached entry, or one GET of robots.txt whose
      outcome is cached, followed by a courtesy delay. */
  function RobotsLookup(c: Config, robots: map<RobotsKey, Option<string>>, sent: nat, target: Url): RobotsStep
  {
    var key := RobotsKeyOf(target, c.agent);
    if key in robots then RobotsStep(robots[key], robots, sent, [])
    else
      var rules := RobotsRules(c.answer(sent, RobotsUrl(target)));
      RobotsStep(rules, robots[key := rules], sent + 1, [Get(RobotsUrl(target)), CourtesyDelay])
  }

  datatype Fetched = Fetched(result: Result<Option<string>, FetchError>, after: Caches, events: seq<Event>)

  /** `_fetch_html(url)`. */
  function FetchSpec(c: Config, s: Caches, url: Url): Fetched
  {
    if !CompliesWithSitePolicy(url) then Fetched(Ok(None), s, [])
    else
      var key := CacheKey(Some(url), c.own);
      if key in s.pages then Fetched(Ok(Some(s.pages[key])), s, [])
      else FetchUncached(c, s, key)
  }

  /** The rest of `_fetch_html` for a normalised `key` not in the page cache: ask the
      robots rules, then request the page with retries and cache it. */
  function FetchUncached(c: Config, s: Caches, key: Url): Fetched
  {
    var rs := RobotsLookup(c, s.robots, s.sent, key);
    var s1 := s.(robots := rs.robots, sent := rs.sent);
    if !Permits(rs.rules, c.allow, c.agent, key) then Fetched(Ok(None), s1, rs.events)
    else
      var run := Retry(key, c.answer, rs.sent);
      var s2 := s1.(sent := rs.sent + run.attempts);
      match run.result
      case Err(e) => Fetched(Err(e), s2, rs.events + run.events)
      case Ok(text) => Fetched(Ok(Some(text)), s2.(pages := s.pages[key := text]), rs.events + run.events)
  }

  datatype Loaded = Loaded(result: Result<Option<Document>, FetchError>, after: Caches, events: seq<Event>)

  /** `_ensure_document(url)`: the cached document, or the fetched page parsed and
      stored in both caches. */
  function LoadSpec(c: Config, s: Caches, url: Url): Loaded
  {
    var key := CacheKey(Some(url), c.own);
    if key in s.soups then Loaded(Ok(Some(s.soups[key])), s, []) else LoadFetched(c, s, url)
  }

  /** The rest of `_ensure_document` when the document cache missed: fetch the page,
      parse it and store it under the normalised key in both caches. */
  function LoadFetched(c: Config, s: Caches, url: Url): Loaded
  {
    var key := CacheKey(Some(url), c.own);
    var f := FetchSpec(c, s, url);
    match f.result
    case Err(e) => Loaded(Err(e), f.after, f.events)
    case Ok(None) => Loaded(Ok(None), f.after, f.events)
    case Ok(Some(text)) =>
      var doc := c.parse(text);
      Loaded(Ok(Some(doc)), f.after.(pages := f.after.pages[key := text], soups := f.after.soups[key := doc]), f.events)
  }

  // ---------------------------------------------------------------------------
  // Properties of fetching

  /** A URL the site policy refuses gives `None` with no request and no change. */
  lemma FetchRefusedByPolicy(c: Config, s: Caches, url: Url)
    requires !CompliesWithSitePolicy(url)
    ensures FetchSpec(c, s, url) == Fetched(Ok(None), s, [])
  {
  }

  /** A page already cached under the normalised key is returned with no request. */
  lemma FetchCachedPage(c: Config, s: Caches, url: Url)
    requires CompliesWithSitePolicy(url) && CacheKey(Some(url), c.own) in s.pages
    ensures FetchSpec(c, s, url) == Fetched(Ok(Some(s.pages[CacheKey(Some(url), c.own)])), s, [])
  {
  }

  /** robots.txt is fetched at most once per (scheme, host, agent): a cached entry
      is used without a request, and a fetched one is cached, so looking it up again
      costs nothing and gives the same rules; other entries are kept. */
  lemma RobotsLookupOnce(c: Config, robots: map<RobotsKey, Option<string>>, sent: nat, target: Url)
    ensures var rs := RobotsLookup(c, robots, sent, target);
      var key := RobotsKeyOf(target, c.agent);
      key in rs.robots && rs.rules == rs.robots[key]
      && (key in robots ==> rs.robots == robots && rs.sent == sent && rs.events == [])
      && (key !in robots ==> rs.robots == robots[key := rs.rules] && rs.sent == sent + 1)
      && RobotsLookup(c, rs.robots, rs.sent, target) == RobotsStep(rs.rules, rs.robots, rs.sent, [])
  {
  }

  /** A failed robots.txt request is cached as "no parser", which allows every URL. */
  lemma RobotsFailureAllows(c: Config, robots: map<RobotsKey, Option<string>>, sent: nat, target: Url)
    requires RobotsKeyOf(target, c.agent) !in robots
    requires !RobotsRules(c.answer(sent, RobotsUrl(target))).Some?
    ensures var rs := RobotsLookup(c, robots, sent, target);
      rs.robots[RobotsKeyOf(target, c.agent)] == None && Permits(rs.rules, c.allow, c.agent, target)
  {
  }

  /** A successful fetch is stored under the normalised key and nowhere else; any
      other outcome leaves the page cache as it was. A fetch sends at most one
      robots request and `MaxRetries` page requests; robots entries already cached
      are kept. A page the robots rules refuse is never requested. */
  lemma {:induction false} FetchSpecProperties(c: Config, s: Caches, url: Url)
    ensures var f := FetchSpec(c, s, url);
      var key := CacheKey(Some(url), c.own);
      (f.result.Ok? && f.result.value.Some? ==> f.after.pages == s.pages[key := f.result.value.value])
      && (!(f.result.Ok? && f.result.value.Some?) ==> f.after.pages == s.pages)
      && f.after.soups == s.soups
      && s.sent <= f.after.sent <= s.sent + 1 + MaxRetries
      && s.robots.Keys <= f.after.robots.Keys
      && (forall k :: k in s.robots ==> f.after.robots[k] == s.robots[k])
      && (CompliesWithSitePolicy(url) && key !in s.pages
          && !Permits(RobotsLookup(c, s.robots, s.sent, key).rules, c.allow, c.agent, key)
          ==> f.result == Ok(None) && f.events == RobotsLookup(c, s.robots, s.sent, key).events)
  {
    var f := FetchSpec(c, s, url);
    var key := CacheKey(Some(url), c.own);
    if CompliesWithSitePolicy(url) && key !in s.pages {
      assert f == FetchUncached(c, s, key);
      var rs := RobotsLookup(c, s.robots, s.sent, key);
      RobotsLookupOnce(c, s.robots, s.sent, key);
      if Permits(rs.rules, c.allow, c.agent, key) {
        RetrySpec(key, c.answer, rs.sent);
      }
    }
  }

  /** The fetched page is the text of the deciding attempt's reply, fetched under the
      normalised URL once robots.txt permits it. */
  lemma FetchSuccess(c: Config, s: Caches, url: Url)
    requires CompliesWithSitePolicy(url)
    requires CacheKey(Some(url), c.own) !in s.pages
    ensures var key := CacheKey(Some(url), c.own);
      var rs := RobotsLookup(c, s.robots, s.sent, key);
      var i := DecidingAttempt(key, c.answer, rs.sent, 0);
      var f := FetchSpec(c, s, url);
      f.result.Ok? && f.result.value.Some?
      <==> Permits(rs.rules, c.allow, c.agent, key) && Verdict(c.answer(rs.sent + i, key)).Ok?
  {
    var key := CacheKey(Some(url), c.own);
    var rs := RobotsLookup(c, s.robots, s.sent, key);
    RetrySpec(key, c.answer, rs.sent);
  }

  /** Loading keeps the document cache the parse of the page cache. */
  lemma {:induction false} LoadKeepsCoherence(c: Config, s: Caches, url: Url)
    requires Coherent(c, s)
    ensures Coherent(c, LoadSpec(c, s, url).after)
  {
    FetchSpecProperties(c, s, url);
  }

  /** Loading the same page twice: once the first load did not raise, the second
      returns the same outcome, sends nothing and changes nothing. So every getter of
      one crawler sees what its constructor loaded. */
  lemma {:induction false} LoadIsStable(c: Config, s: Caches, url: Url)
    requires Coherent(c, s)
    requires LoadSpec(c, s, url).result.Ok?
    ensures var l := LoadSpec(c, s, url);
      LoadSpec(c, l.after, url) == Loaded(l.result, l.after, [])
  {
    var l := LoadSpec(c, s, url);
    var key := CacheKey(Some(url), c.own);
    FetchSpecProperties(c, s, url);
    if key !in s.soups && CompliesWithSitePolicy(url) && l.result.value.None? {
      var rs := RobotsLookup(c, s.robots, s.sent, key);
      RobotsLookupOnce(c, s.robots, s.sent, key);
      assert !Permits(rs.rules, c.allow, c.agent, key);
      assert l.after.robots == rs.robots && l.after.sent == rs.sent;
      assert key !in l.after.pages;
    }
  }

  // ---------------------------------------------------------------------------
  // The crawler object

  /** `Crawler`: one target URL, its own page and document caches, the last
      fetched page and document, a session, and the robots cache it shares with
      every other crawler. */
  class Crawler {
    const url: Url
    const userAgent: string
    const session: Session
    const robots: RobotsCache
    const parse: string -> Document
    const allow: (string, string, Url) -> bool
    var pageCache: map<Url, string>
    var soupCache: map<Url, Document>
    var html: Option<string>
    var soup: Option<Document>
    /** Requests and sleeps, in the order they happened. */
    ghost var events: seq<Event>

    function Cfg(): Config
    {
      Config(url, userAgent, parse, allow, session.answer)
    }

    function State(): Caches
      reads this, robots, session
    {
      Caches(pageCache, soupCache, robots.entries, session.sent)
    }

    ghost predicate Valid()
      reads this, robots, session
    {
      Coherent(Cfg(), State())
    }

    /** `Crawler(url, session, user_agent)`; an empty agent falls back to the
        default one, as `user_agent or USER_AGENT` does. */
    constructor (url: Url, session: Session, userAgent: Option<string>, robots: RobotsCache,
                 parse: string -> Document, allow: (string, string, Url) -> bool)
      ensures this.url == url && this.session == session && this.robots == robots
      ensures this.parse == parse && this.allow == allow
      ensures this.userAgent == (if userAgent.Some? && userAgent.value != "" then userAgent.value else DefaultUserAgent)
      ensures pageCache == map[] && soupCache == map[] && html == None && soup == None && events == []
      ensures Valid()
    {
      this.url := url;
      this.session := session;
      this.robots := robots;
      this.parse := parse;
      this.allow := allow;
      this.userAgent := if userAgent.Some? && userAgent.value != "" then userAgent.value else DefaultUserAgent;
      pageCache := map[];
      soupCache := map[];
      html := None;
      soup := None;
      events := [];
    }

    /** One GET through the session. */
    method Send(target: Url) returns (resp: Response)
      modifies session, this`events
      ensures resp == session.answer(old(session.sent), target) && session.sent == old(session.sent) + 1
      ensures events == old(events) + [Get(target)]
    {
      resp := session.Get(target);
      events := events + [Get(target)];
    }

    /** `_courtesy_delay`: a random pause between requests. */
    method Courtesy()
      modifies this`events
      ensures events == old(events) + [CourtesyDelay]
    {
      events := events + [CourtesyDelay];
    }

    /** `_backoff_sleep(backoff)`: a pause of `backoff` seconds plus jitter. */
    method Backoff(backoff: nat)
      modifies this`events
      ensures events == old(events) + [BackoffSleep(backoff)]
    {
      events := events + [BackoffSleep(backoff)];
    }

    /** One pass of the loop of `_request_with_retries`: the GET, then what the
        outcome calls for. `None` means "try again" (the loop's `continue`). */
    method Attempt(target: Url, retries: nat, backoff: nat)
      returns (retries': nat, backoff': nat, outcome: Option<Result<string, FetchError>>)
      requires retries < MaxRetries
      modifies session, this`events
      ensures session.sent == old(session.sent) + 1
      ensures var resp := session.answer(old(session.sent), target);
        retries + 1 < MaxRetries && Retryable(resp) ==>
          outcome == None && retries' == retries + 1 && backoff' == backoff * BackoffBase
          && events == old(events) + RetriedEvents(target, resp, backoff)
      ensures var resp := session.answer(old(session.sent), target);
        !(retries + 1 < MaxRetries && Retryable(resp)) ==>
          outcome == Some(Verdict(resp)) && events == old(events) + [Get(target), CourtesyDelay]
    {
      retries', backoff', outcome := retries, backoff, None;
      var resp := Send(target);
      match resp {
        case TransportFailure =>
          retries' := retries + 1;
          Courtesy();
          if retries' >= MaxRetries {
            return retries', backoff', Some(Err(Transport));
          }
          Backoff(backoff);
          backoff' := backoff * BackoffBase;
        case Reply(code, text) =>
          if IsRetryStatus(code) {
            retries' := retries + 1;
            if retries' >= MaxRetries {
              Courtesy();
              return retries', backoff', Some(Err(HttpStatus(code)));
            }
            Backoff(backoff);
            backoff' := backoff * BackoffBase;
            Courtesy();
          } else if IsErrorStatus(code) {
            Courtesy();
            return retries', backoff', Some(Err(HttpStatus(code)));
          } else {
            Courtesy();
            return retries', backoff', Some(Ok(text));
          }
      }
      assert events == old(events) + RetriedEvents(target, resp, backoff);
    }

    /** `_request_with_retries(url)`, proved to follow `Retry`; see `RetrySpec` for
        what that run promises. */
    method RequestWithRetries(target: Url) returns (r: Result<string, FetchError>)
      modifies session, this`events
      ensures var run := Retry(target, session.answer, old(session.sent));
        r == run.result && session.sent == old(session.sent) + run.attempts
        && events == old(events) + run.events
    {
      var retries: nat := 0;
      var backoff: nat := FirstBackoff;
      ghost var start := session.sent;
      ghost var whole := Retry(target, session.answer, start);
      while retries < MaxRetries
        invariant retries < MaxRetries
        invariant session.sent == start + retries
        invariant whole.result == RetryFrom(target, session.answer, start, retries, backoff).result
        invariant whole.attempts == RetryFrom(target, session.answer, start, retries, backoff).attempts
        invariant events + RetryFrom(target, session.answer, start, retries, backoff).events == old(events) + whole.events
        decreases MaxRetries - retries
      {
        ghost var k, b, before := retries, backoff, events;
        var outcome;
        retries, backoff, outcome := Attempt(target, retries, backoff);
        RetryResumes(target, session.answer, start, k, b, whole, before, old(events));
        if outcome.Some? {
          return outcome.value;
        }
      }
      assert false;
      r := Err(RetriesExhausted);
    }

    /** `_ensure_robot_parser(target)`: the robots.txt rules for the target's scheme,
        host and this crawler's agent, fetched and cached on first use. */
    method EnsureRobotParser(target: Url) returns (rules: Option<string>)
      modifies robots, session, this`events
      ensures var rs := RobotsLookup(Cfg(), old(robots.entries), old(session.sent), target);
        rules == rs.rules && robots.entries == rs.robots && session.sent == rs.sent
        && events == old(events) + rs.events
    {
      var key := RobotsKeyOf(target, userAgent);
      if key in robots.entries {
        return robots.entries[key];
      }
      var robotsUrl := RobotsUrl(target);
      var resp := Send(robotsUrl);
      match resp {
        case TransportFailure =>
          rules := None;
        case Reply(code, text) =>
          if IsErrorStatus(code) {
            rules := None;
          } else {
            rules := Some(text);
          }
      }
      Courtesy();
      robots.entries := robots.entries[key := rules];
    }

    /** `_can_fetch(target)`: allowed when there are no rules, else as the rules say. */
    method CanFetch(target: Url) returns (ok: bool)
      modifies robots, session, this`events
      ensures var rs := RobotsLookup(Cfg(), old(robots.entries), old(session.sent), target);
        ok == Permits(rs.rules, allow, userAgent, target)
        && robots.entries == rs.robots && session.sent == rs.sent
        && events == old(events) + rs.events
    {
      var rules := EnsureRobotParser(target);
      if rules.None? {
        return true;
      }
      ok := allow(rules.value, userAgent, target);
    }

    /** `_fetch_html(u)`, proved to follow `FetchSpec`; see `FetchSpecProperties`. */
    method FetchHtml(u: Url) returns (r: Result<Option<string>, FetchError>)
      modifies this`pageCache, robots, session, this`events
      ensures var f := FetchSpec(Cfg(), old(State()), u);
        r == f.result && pageCache == f.after.pages && robots.entries == f.after.robots
        && session.sent == f.after.sent && events == old(events) + f.events
    {
      if !CompliesWithSitePolicy(u) {
        return Ok(None);
      }
      var key := CacheKey(Some(u), url);
      if key in pageCache {
        return Ok(Some(pageCache[key]));
      }
      r := FetchUncachedPage(key);
    }

    /** The part of `_fetch_html` after the page cache missed, for the normalised `key`. */
    method FetchUncachedPage(key: Url) returns (r: Result<Option<string>, FetchError>)
      modifies this`pageCache, robots, session, this`events
      ensures var f := FetchUncached(Cfg(), old(State()), key);
        r == f.result && pageCache == f.after.pages && robots.entries == f.after.robots
        && session.sent == f.after.sent && events == old(events) + f.events
    {
      ghost var f := FetchUncached(Cfg(), State(), key);
      ghost var rs := RobotsLookup(Cfg(), robots.entries, session.sent, key);
      var ok := CanFetch(key);
      if !ok {
        assert f == Fetched(Ok(None), old(State()).(robots := rs.robots, sent := rs.sent), rs.events);
        return Ok(None);
      }
      ghost var run := Retry(key, session.answer, rs.sent);
      var page := RequestWithRetries(key);
      assert events == old(events) + rs.events + run.events;
      assert f.after.sent == session.sent && f.after.robots == robots.entries && f.events == rs.events + run.events;
      if page.Err? {
        return Err(page.error);
      }
      pageCache := pageCache[key := page.value];
      r := Ok(Some(page.value));
    }

    /** `_ensure_document(u)`, proved to follow `LoadSpec`: also sets the current page
        and document (`html`, `soup`), left as they were when the fetch raises. */
    method EnsureDocument(u: Url) returns (r: Result<Option<Document>, FetchError>)
      requires Valid()
      modifies this`pageCache, this`soupCache, this`html, this`soup, robots, session, this`events
      ensures Valid()
      ensures var l := LoadSpec(Cfg(), old(State()), u);
        r == l.result && State() == l.after && events == old(events) + l.events
      ensures r.Ok? ==>
        soup == r.value && html == (if r.value.Some? then Some(pageCache[CacheKey(Some(u), url)]) else None)
      ensures r.Err? ==> html == old(html) && soup == old(soup)
    {
      LoadKeepsCoherence(Cfg(), State(), u);
      var key := CacheKey(Some(u), url);
      if key in soupCache {
        html := Some(pageCache[key]);
        soup := Some(soupCache[key]);
        return Ok(soup);
      }
      r := LoadUncachedDocument(u);
    }

    /** The part of `_ensure_document` after the document cache missed. */
    method LoadUncachedDocument(u: Url) returns (r: Result<Option<Document>, FetchError>)
      modifies this`pageCache, this`soupCache, this`html, this`soup, robots, session, this`events
      ensures var l := LoadFetched(Cfg(), old(State()), u);
        r == l.result && State() == l.after && events == old(events) + l.events
      ensures r.Ok? ==>
        soup == r.value && html == (if r.value.Some? then Some(pageCache[CacheKey(Some(u), url)]) else None)
      ensures r.Err? ==> html == old(html) && soup == old(soup)
    {
      ghost var s0 := State();
      var key := CacheKey(Some(u), url);
      var page := FetchHtml(u);
      FetchSpecProperties(Cfg(), s0, u);
      if page.Err? {
        return Err(page.error);
      }
      if page.value.None? {
        html := None;
        soup := None;
        return Ok(None);
      }
      var doc := parse(page.value.value);
      pageCache := pageCache[key := page.value.value];
      soupCache := soupCache[key := doc];
      html := page.value;
      soup := Some(doc);
      r := Ok(soup);
    }
  }
}
