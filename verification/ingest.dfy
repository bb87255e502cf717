/** The loop of the `/get_codeur_new_project_matched` route: keep the notification
    e-mails about new projects that the matcher accepts, build their leads, and
    return and store the open ones. */
module Ingest {
  import opened Wrappers
  import opened Text
  import opened Json
  import opened Urls
  import opened Page
  import opened Crawler
  import opened Extract
  import opened BuildProject
  import opened Store
  import Mongo

  const NotificationSender: string := "notification@compte.codeur.com"
  const NewProjectTitle: string := "Nouveau projet"

  /** An unread e-mail as `parse_email` gives it: title, sender and HTML content. */
  datatype Email = Email(title: string, sender: string, content: string)

  /** What the route depends on besides the e-mails: the e-mail HTML parser, the
      matcher `is_matched_project`, and the world the `i`-th lead is built in (a new
      session per lead, so the network answers each one separately). */
  datatype Env = Env(
    parseEmail: string -> EmailDoc,
    matches: string -> bool,
    urlOf: string -> Url,
    answers: nat -> (nat, Url) -> Response,
    parse: string -> Document,
    allow: (string, string, Url) -> bool)

  function WorldFor(env: Env, i: nat): World
  {
    World(env.urlOf, env.answers(i), env.parse, env.allow)
  }

  /** The sender and title test of the loop. */
  predicate FromNotifier(e: Email)
  {
    Contains(e.sender, NotificationSender) && Contains(e.title, NewProjectTitle)
  }

  /** `project.__dict__`: the five fields, the status as its string value. */
  function ProjectRecord(p: Project): Record
  {
    map["title" := JStr(p.title), "description" := JStr(p.description),
        "tags" := JArr(seq(|p.tags|, i requires 0 <= i < |p.tags| => JStr(p.tags[i]))),
        "url" := JStr(p.url), "status" := JStr(p.status.Value())]
  }

  /** A stored lead: status "new" and a `url` holding a project link. */
  predicate NewLead(rec: Record)
  {
    "status" in rec && rec["status"] == JStr("new")
    && "url" in rec && rec["url"].JStr? && Contains(rec["url"].s, ProjectMarker)
  }

  /** What makes the route raise: building a lead, or storing it. */
  datatype RouteError = BuildFailed(build: BuildError) | StoreFailed(store: StoreError)

  /** One pass of the loop: the record appended (if any), the robots cache and the
      stored documents afterwards, and the records passed to `upsert_project`. */
  datatype Handled = Handled(result: Result<Option<Record>, RouteError>, robots: map<RobotsKey, Option<string>>,
                             db: Db, upserts: seq<Record>)

  /** The pass of the loop for the `i`-th e-mail `e`. */
  function HandleSpec(env: Env, e: Email, i: nat, robots: map<RobotsKey, Option<string>>, db: Db): Handled
  {
    if !FromNotifier(e) || !env.matches(e.content) then Handled(Ok(None), robots, db, [])
    else
      var email := env.parseEmail(e.content);
      var b := BuildSpec(email, WorldFor(env, i), robots);
      var robots' := RobotsAfterBuild(email, WorldFor(env, i), robots);
      match b.result
      case Err(err) => Handled(Err(BuildFailed(err)), robots', db, [])
      case Ok(outcome) =>
        if outcome.available && outcome.project.Some? then
          var rec := ProjectRecord(outcome.project.value);
          var u := Upsert(db, rec);
          match u.result
          case Err(err) => Handled(Err(StoreFailed(err)), robots', u.after, [rec])
          case Ok(_) => Handled(Ok(Some(rec)), robots', u.after, [rec])
        else Handled(Ok(None), robots', db, [])
  }

  /** The route from the `k`-th unread e-mail on. */
  datatype Route = Route(result: Result<seq<Record>, RouteError>, robots: map<RobotsKey, Option<string>>,
                         db: Db, upserts: seq<Record>)

  function Prepend(acc: seq<Record>, r: Result<seq<Record>, RouteError>): Result<seq<Record>, RouteError>
  {
    match r
    case Ok(rs) => Ok(acc + rs)
    case Err(e) => Err(e)
  }

  lemma PrependNothing(r: Result<seq<Record>, RouteError>)
    ensures Prepend([], r) == r
  {
    if r.Ok? {
      assert [] + r.value == r.value;
    }
  }

  lemma PrependTwice(a: seq<Record>, b: seq<Record>, r: Result<seq<Record>, RouteError>)
    ensures Prepend(a, Prepend(b, r)) == Prepend(a + b, r)
  {
    if r.Ok? {
      assert a + (b + r.value) == (a + b) + r.value;
    }
  }

  /** A lead's record is stored under its `url`. */
  lemma LeadKey(p: Project)
    requires Contains(p.url, ProjectMarker)
    ensures UpsertKey(ProjectRecord(p)) == Ok(("url", JStr(p.url)))
  {
    assert p.url != [];
  }

  function IngestFrom(env: Env, emails: seq<Email>, k: nat, robots: map<RobotsKey, Option<string>>, db: Db): Route
    decreases |emails| - k
  {
    if k >= |emails| then Route(Ok([]), robots, db, [])
    else
      var h := HandleSpec(env, emails[k], k, robots, db);
      match h.result
      case Err(e) => Route(Err(e), h.robots, h.db, h.upserts)
      case Ok(added) =>
        var rest := IngestFrom(env, emails, k + 1, h.robots, h.db);
        var acc := if added.Some? then [added.value] else [];
        Route(Prepend(acc, rest.result), rest.robots, rest.db, h.upserts + rest.upserts)
  }

  /** One step of the route: the `k`-th pass, then the rest of the route. */
  lemma IngestStep(env: Env, emails: seq<Email>, k: nat, robots: map<RobotsKey, Option<string>>, db: Db, h: Handled)
    requires k < |emails| && h == HandleSpec(env, emails[k], k, robots, db)
    ensures h.result.Err? ==> IngestFrom(env, emails, k, robots, db) == Route(Err(h.result.error), h.robots, h.db, h.upserts)
    ensures h.result.Ok? ==>
      var rest := IngestFrom(env, emails, k + 1, h.robots, h.db);
      var acc := if h.result.value.Some? then [h.result.value.value] else [];
      IngestFrom(env, emails, k, robots, db) == Route(Prepend(acc, rest.result), rest.robots, rest.db, h.upserts + rest.upserts)
  {
  }

  /** The loop's bookkeeping across one pass that did not raise: when the route
      from the current e-mail (`cur`) is the pass's lead `acc` and store calls
      followed by the route from the next one (`rest`), the leads gathered so far
      grow by `acc`, the store calls made so far by the pass's, and what is still
      to come is `rest`. */
  lemma IngestResumes(whole: Route, projects: seq<Record>, log: seq<Record>, start: seq<Record>,
                      cur: Route, rest: Route, acc: seq<Record>, upserts: seq<Record>)
    requires whole.result == Prepend(projects, cur.result) && whole.robots == cur.robots && whole.db == cur.db
    requires start + whole.upserts == log + cur.upserts
    requires cur == Route(Prepend(acc, rest.result), rest.robots, rest.db, upserts + rest.upserts)
    ensures whole.result == Prepend(projects + acc, rest.result)
    ensures whole.robots == rest.robots && whole.db == rest.db
    ensures start + whole.upserts == (log + upserts) + rest.upserts
  {
    PrependTwice(projects, acc, rest.result);
    assert log + (upserts + rest.upserts) == (log + upserts) + rest.upserts;
  }

  /** An e-mail that fails the sender and title test, or that the matcher rejects,
      builds nothing, stores nothing and changes nothing. */
  lemma SkippedEmail(env: Env, e: Email, i: nat, robots: map<RobotsKey, Option<string>>, db: Db)
    requires !FromNotifier(e) || !env.matches(e.content)
    ensures HandleSpec(env, e, i, robots, db) == Handled(Ok(None), robots, db, [])
  {
  }

  /** With a matcher that accepts nothing (as `is_matched_project`, which returns
      `None`, does) the route returns `[]` and neither fetches nor stores. */
  lemma {:induction false} MatcherRejectsAll(env: Env, emails: seq<Email>, k: nat, robots: map<RobotsKey, Option<string>>, db: Db)
    requires forall c :: !env.matches(c)
    ensures IngestFrom(env, emails, k, robots, db) == Route(Ok([]), robots, db, [])
    decreases |emails| - k
  {
    if k < |emails| {
      var h := HandleSpec(env, emails[k], k, robots, db);
      SkippedEmail(env, emails[k], k, robots, db);
      MatcherRejectsAll(env, emails, k + 1, robots, db);
      IngestStep(env, emails, k, robots, db, h);
      PrependNothing(Ok([]));
      assert h.upserts + [] == [];
    }
  }

  /** A lead's record always has a key (its `url` is the extracted link, which is
      not empty), so storing it never fails for a missing key: a pass raises for
      the store exactly when it stores a lead while `get_database()` raises or
      the driver fails the write. A lead it appends is new and comes from an accepted
      notification. */
  lemma LeadRecordHasKey(env: Env, e: Email, i: nat, robots: map<RobotsKey, Option<string>>, db: Db)
    ensures var h := HandleSpec(env, e, i, robots, db);
      h.result.Err? && h.result.error.StoreFailed? ==> h.result.error.store != MissingKey
    ensures var h := HandleSpec(env, e, i, robots, db);
      (h.result.Err? && h.result.error.StoreFailed?) <==>
        h.upserts != [] && (Mongo.Database(db.globals).Err? || db.fails(db.ops))
    ensures HandleSpec(env, e, i, robots, db).result.Ok? && HandleSpec(env, e, i, robots, db).result.value.Some? ==>
      var rec := HandleSpec(env, e, i, robots, db).result.value.value;
      FromNotifier(e) && env.matches(e.content) && NewLead(rec)
  {
    if FromNotifier(e) && env.matches(e.content) {
      var email := env.parseEmail(e.content);
      var b := BuildSpec(email, WorldFor(env, i), robots);
      if b.result.Ok? && b.result.value.available && b.result.value.project.Some? {
        BuiltProject(email, WorldFor(env, i), robots);
        var p := b.result.value.project.value;
        LeadKey(p);
        UpsertOutcome(db, ProjectRecord(p));
      }
    }
  }

  /** What one pass stores: the record it appends, when it appends one, and
      nothing when it skips; the `mongo` globals and the driver stay as they were. */
  lemma HandledUpserts(env: Env, e: Email, i: nat, robots: map<RobotsKey, Option<string>>, db: Db)
    ensures var h := HandleSpec(env, e, i, robots, db);
      h.result.Ok? ==> h.upserts == (if h.result.value.Some? then [h.result.value.value] else [])
    ensures var h := HandleSpec(env, e, i, robots, db);
      h.db.globals == db.globals && h.db.fails == db.fails
  {
    if FromNotifier(e) && env.matches(e.content) {
      var b := BuildSpec(env.parseEmail(e.content), WorldFor(env, i), robots);
      if b.result.Ok? && b.result.value.available && b.result.value.project.Some? {
        UpsertOutcome(db, ProjectRecord(b.result.value.project.value));
      }
    }
  }

  /** The route raises for the store only when `get_database()` raises or the
      driver fails a write, never for a missing key; every lead it returns comes from an
      accepted notification, is new and links to a project page; and on success it
      returns exactly the records it stored, in the same order. */
  lemma RouteProperties(env: Env, emails: seq<Email>, k: nat, robots: map<RobotsKey, Option<string>>, db: Db)
    ensures var r := IngestFrom(env, emails, k, robots, db);
      r.result.Err? && r.result.error.StoreFailed? ==> r.result.error.store != MissingKey
    ensures var r := IngestFrom(env, emails, k, robots, db);
      r.result.Ok? ==> r.result.value == r.upserts
    ensures var r := IngestFrom(env, emails, k, robots, db);
      r.result.Ok? ==> forall rec :: rec in r.result.value ==>
        NewLead(rec) && exists i :: k <= i < |emails| && FromNotifier(emails[i]) && env.matches(emails[i].content)
  {
    RouteErrors(env, emails, k, robots, db);
    RouteReturnsStored(env, emails, k, robots, db);
    RouteLeads(env, emails, k, robots, db);
  }

  lemma {:induction false} RouteErrors(env: Env, emails: seq<Email>, k: nat, robots: map<RobotsKey, Option<string>>, db: Db)
    ensures var r := IngestFrom(env, emails, k, robots, db);
      r.result.Err? && r.result.error.StoreFailed? ==> r.result.error.store != MissingKey
    decreases |emails| - k
  {
    if k < |emails| {
      var h := HandleSpec(env, emails[k], k, robots, db);
      LeadRecordHasKey(env, emails[k], k, robots, db);
      if h.result.Ok? {
        RouteErrors(env, emails, k + 1, h.robots, h.db);
      }
    }
  }

  /** With `mongo` set up and a driver that never fails, only building a lead can
      make the route raise. */
  lemma {:induction false} RouteReliableStore(env: Env, emails: seq<Email>, k: nat, robots: map<RobotsKey, Option<string>>, db: Db)
    requires Mongo.Database(db.globals).Ok? && forall n :: !db.fails(n)
    ensures var r := IngestFrom(env, emails, k, robots, db);
      r.result.Err? ==> r.result.error.BuildFailed?
    decreases |emails| - k
  {
    if k < |emails| {
      var h := HandleSpec(env, emails[k], k, robots, db);
      LeadRecordHasKey(env, emails[k], k, robots, db);
      HandledUpserts(env, emails[k], k, robots, db);
      if h.result.Ok? {
        RouteReliableStore(env, emails, k + 1, h.robots, h.db);
      }
    }
  }

  lemma {:induction false} RouteReturnsStored(env: Env, emails: seq<Email>, k: nat, robots: map<RobotsKey, Option<string>>, db: Db)
    ensures var r := IngestFrom(env, emails, k, robots, db);
      r.result.Ok? ==> r.result.value == r.upserts
    decreases |emails| - k
  {
    if k < |emails| {
      var h := HandleSpec(env, emails[k], k, robots, db);
      HandledUpserts(env, emails[k], k, robots, db);
      if h.result.Ok? {
        RouteReturnsStored(env, emails, k + 1, h.robots, h.db);
      }
    }
  }

  lemma {:induction false} RouteLeads(env: Env, emails: seq<Email>, k: nat, robots: map<RobotsKey, Option<string>>, db: Db)
    ensures var r := IngestFrom(env, emails, k, robots, db);
      r.result.Ok? ==> forall rec :: rec in r.result.value ==>
        NewLead(rec) && exists i :: k <= i < |emails| && FromNotifier(emails[i]) && env.matches(emails[i].content)
    decreases |emails| - k
  {
    if k < |emails| {
      var h := HandleSpec(env, emails[k], k, robots, db);
      LeadRecordHasKey(env, emails[k], k, robots, db);
      if h.result.Ok? {
        RouteLeads(env, emails, k + 1, h.robots, h.db);
      }
    }
  }

  /** The filter/assemble/upsert loop of `get_codeur_new_project_matched` over the
      unread e-mails in order, with the shared robots cache and the `projects`
      collection. */
  method GetCodeurNewProjectMatched(env: Env, emails: seq<Email>, robots: RobotsCache, store: Collection)
    returns (r: Result<seq<Record>, RouteError>)
    modifies robots, store
    ensures var route := IngestFrom(env, emails, 0, old(robots.entries), old(store.State()));
      r == route.result && robots.entries == route.robots && store.State() == route.db
      && store.log == old(store.log) + route.upserts
  {
    ghost var whole := IngestFrom(env, emails, 0, robots.entries, store.State());
    var projects: seq<Record> := [];
    var k := 0;
    PrependNothing(whole.result);
    while k < |emails|
      invariant k <= |emails|
      invariant Resuming(env, emails, k, robots.entries, store.State(), store.log, whole, projects, old(store.log))
      decreases |emails| - k
    {
      var next := IngestPass(env, emails, k, robots, store, whole, projects, old(store.log));
      if next.Err? {
        return Err(next.error);
      }
      projects := next.value;
      k := k + 1;
    }
    assert IngestFrom(env, emails, k, robots.entries, store.State()) == Route(Ok([]), robots.entries, store.State(), []);
    assert projects + [] == projects;
    r := Ok(projects);
  }

  /** The loop's bookkeeping before the `k`-th pass: the whole route is the leads
      appended so far followed by the rest of the route, whose store calls follow
      the ones already made. */
  ghost predicate Resuming(env: Env, emails: seq<Email>, k: nat, robots: map<RobotsKey, Option<string>>, db: Db,
                           log: seq<Record>, whole: Route, projects: seq<Record>, start: seq<Record>)
  {
    var rest := IngestFrom(env, emails, k, robots, db);
    whole.result == Prepend(projects, rest.result) && whole.robots == rest.robots && whole.db == rest.db
    && start + whole.upserts == log + rest.upserts
  }

  /** The body of the loop for the `k`-th e-mail: either the route raises there, or
      the bookkeeping holds again before the next e-mail. */
  method IngestPass(env: Env, emails: seq<Email>, k: nat, robots: RobotsCache, store: Collection,
                    ghost whole: Route, projects: seq<Record>, ghost start: seq<Record>)
    returns (next: Result<seq<Record>, RouteError>)
    requires k < |emails|
    requires Resuming(env, emails, k, robots.entries, store.State(), store.log, whole, projects, start)
    modifies robots, store
    ensures next.Err? ==>
      whole.result == Err(next.error) && whole.robots == robots.entries && whole.db == store.State()
      && start + whole.upserts == store.log
    ensures next.Ok? ==> Resuming(env, emails, k + 1, robots.entries, store.State(), store.log, whole, next.value, start)
  {
    ghost var h := HandleSpec(env, emails[k], k, robots.entries, store.State());
    ghost var robots0, db0, log0 := robots.entries, store.State(), store.log;
    var added := HandleEmail(env, emails[k], k, robots, store);
    if added.Err? {
      IngestStep(env, emails, k, robots0, db0, h);
      return Err(added.error);
    }
    IngestStep(env, emails, k, robots0, db0, h);
    ghost var acc := if added.value.Some? then [added.value.value] else [];
    IngestResumes(whole, projects, log0, start, IngestFrom(env, emails, k, robots0, db0),
                  IngestFrom(env, emails, k + 1, h.robots, h.db), acc, h.upserts);
    if added.value.Some? {
      next := Ok(projects + [added.value.value]);
    } else {
      assert projects + [] == projects;
      next := Ok(projects);
    }
  }

  /** One pass of the loop: skip, or build the lead and store it when it is open. */
  method HandleEmail(env: Env, e: Email, i: nat, robots: RobotsCache, store: Collection)
    returns (r: Result<Option<Record>, RouteError>)
    modifies robots, store
    ensures var h := HandleSpec(env, e, i, old(robots.entries), old(store.State()));
      r == h.result && robots.entries == h.robots && store.State() == h.db && store.log == old(store.log) + h.upserts
  {
    if !FromNotifier(e) || !env.matches(e.content) {
      return Ok(None);
    }
    var built, calls := BuildObjectProject(env.parseEmail(e.content), WorldFor(env, i), robots);
    if built.Err? {
      return Err(BuildFailed(built.error));
    }
    if !(built.value.available && built.value.project.Some?) {
      return Ok(None);
    }
    BuiltProject(env.parseEmail(e.content), WorldFor(env, i), old(robots.entries));
    LeadKey(built.value.project.value);
    var rec := ProjectRecord(built.value.project.value);
    var stored := store.UpsertProject(rec);
    if stored.Err? {
      return Err(StoreFailed(stored.error));
    }
    r := Ok(Some(rec));
  }
}
