/** The `projects` collection and its gateway: `upsert_project` and `list_projects`. */
module Store {
  import opened Wrappers
  import opened Text
  import opened Json
  import Mongo

  /** A stored document without its `_id`. */
  type Record = map<string, Json>

  /** Why a gateway function raises: `_get_collection()` raised because
      `get_database()` did (its `RuntimeError` when `mongo` is not set up, or the
      driver's `InvalidName` for the database name), `upsert_project` found neither
      key (`ValueError`), or the driver raised during the operation. */
  datatype StoreError = Unavailable(cause: Mongo.MongoError) | MissingKey | DriverFailed

  /** What the gateway sees of the database: the documents of `projects` in
      insertion order, the `mongo` module globals `get_database()` reads, how many
      operations the driver has served, and which of them raise. */
  datatype Db = Db(docs: seq<Record>, globals: Mongo.Globals, ops: nat, fails: nat -> bool)

  /** The field the upsert matches on and its value: `project_id` when that is
      truthy, else `url`; neither truthy is an error. */
  function UpsertKey(project: Record): Result<(string, Json), StoreError>
  {
    var identifier := if Truthy(Get(project, "project_id", JNull)) then Get(project, "project_id", JNull)
                      else Get(project, "url", JNull);
    if !Truthy(identifier) then Err(MissingKey)
    else if Truthy(Get(project, "project_id", JNull)) then Ok(("project_id", identifier))
    else Ok(("url", identifier))
  }

  /** The selected key, as a property of the record: the key field is present with
      a truthy value, `project_id` wins, and the error happens exactly when
      neither key has a truthy value. */
  lemma UpsertKeyChoice(project: Record)
    ensures UpsertKey(project).Err? <==>
      !Truthy(Get(project, "project_id", JNull)) && !Truthy(Get(project, "url", JNull))
    ensures UpsertKey(project).Ok? ==>
      var (field, value) := UpsertKey(project).value;
      field in project && project[field] == value && Truthy(value)
      && (field == "project_id" <==> Truthy(Get(project, "project_id", JNull)))
      && (field == "url" <==> !Truthy(Get(project, "project_id", JNull)))
  {
  }

  predicate Matches(doc: Record, field: string, value: Json)
  {
    field in doc && doc[field] == value
  }

  /** The first document, in insertion order, whose `field` is `value`. */
  function FirstWith(docs: seq<Record>, field: string, value: Json): (r: Option<nat>)
    ensures r.Some? ==>
      r.value < |docs| && Matches(docs[r.value], field, value)
      && forall j :: 0 <= j < r.value ==> !Matches(docs[j], field, value)
    ensures r.None? ==> forall j :: 0 <= j < |docs| ==> !Matches(docs[j], field, value)
  {
    if docs == [] then None
    else if Matches(docs[0], field, value) then Some(0)
    else
      var r := FirstWith(docs[1..], field, value);
      assert forall j :: 1 <= j < |docs| ==> docs[j] == docs[1..][j - 1];
      if r.Some? then Some(r.value + 1) else None
  }

  /** `update_one({field: value}, {"$set": fields}, upsert=True)`: the first matching
      document gets every entry of `fields`, or a new one is appended. */
  function UpdateOne(docs: seq<Record>, field: string, value: Json, fields: Record): seq<Record>
  {
    match FirstWith(docs, field, value)
    case Some(i) => docs[i := docs[i] + fields]
    case None => docs + [map[field := value] + fields]
  }

  /** The collection after `upsert_project(project)` succeeded. */
  function Upserted(docs: seq<Record>, project: Record): seq<Record>
    requires UpsertKey(project).Ok?
  {
    var (field, value) := UpsertKey(project).value;
    UpdateOne(docs, field, value, project)
  }

  /** After an upsert, the document the key selects exists and holds every given
      field with the given value; its other fields and every other document are
      as they were, and at most one document was added. */
  lemma UpsertedRecord(docs: seq<Record>, project: Record)
    requires UpsertKey(project).Ok?
    ensures var (field, value) := UpsertKey(project).value;
      var after := Upserted(docs, project);
      FirstWith(docs, field, value).Some? ==>
        |after| == |docs| && after == docs[FirstWith(docs, field, value).value := docs[FirstWith(docs, field, value).value] + project]
    ensures var (field, value) := UpsertKey(project).value;
      FirstWith(docs, field, value).None? ==> Upserted(docs, project) == docs + [map[field := value] + project]
    ensures var (field, value) := UpsertKey(project).value;
      var after := Upserted(docs, project);
      exists i :: 0 <= i < |after| && Matches(after[i], field, value)
        && (forall k :: k in project ==> k in after[i] && after[i][k] == project[k])
        && (i < |docs| ==> forall k :: k in docs[i] && k !in project ==> k in after[i] && after[i][k] == docs[i][k])
        && (forall j :: 0 <= j < |docs| && j != i ==> after[j] == docs[j])
    ensures |Upserted(docs, project)| == |docs| || |Upserted(docs, project)| == |docs| + 1
  {
    UpsertKeyChoice(project);
    var (field, value) := UpsertKey(project).value;
    var after := Upserted(docs, project);
    match FirstWith(docs, field, value)
    case Some(i) =>
      assert Matches(after[i], field, value);
    case None =>
      assert Matches(after[|docs|], field, value);
  }

  /** Upserting the same record twice leaves the collection as upserting it once. */
  lemma UpsertIdempotent(docs: seq<Record>, project: Record)
    requires UpsertKey(project).Ok?
    ensures Upserted(Upserted(docs, project), project) == Upserted(docs, project)
  {
    UpsertKeyChoice(project);
    var (field, value) := UpsertKey(project).value;
    var once := Upserted(docs, project);
    match FirstWith(docs, field, value)
    case Some(i) =>
      assert forall j :: 0 <= j < i ==> once[j] == docs[j];
      assert Matches(once[i], field, value);
      assert FirstWith(once, field, value) == Some(i) by {
        FirstWithIs(once, field, value, i);
      }
      assert once[i] + project == once[i];
    case None =>
      assert forall j :: 0 <= j < |docs| ==> once[j] == docs[j];
      assert Matches(once[|docs|], field, value);
      assert FirstWith(once, field, value) == Some(|docs|) by {
        FirstWithIs(once, field, value, |docs|);
      }
      assert once[|docs|] + project == once[|docs|];
  }

  /** Two records with the same key: the second upsert updates the document the
      first one wrote or updated, adds none, and leaves it holding every field of
      the second record. */
  lemma UpsertSameKey(docs: seq<Record>, p1: Record, p2: Record)
    requires UpsertKey(p1).Ok? && UpsertKey(p2) == UpsertKey(p1)
    ensures var (field, value) := UpsertKey(p1).value;
      var once := Upserted(docs, p1);
      var twice := Upserted(once, p2);
      FirstWith(once, field, value).Some?
      && var i := FirstWith(once, field, value).value;
         |twice| == |once| && twice == once[i := once[i] + p2]
         && (forall k :: k in p2 ==> k in twice[i] && twice[i][k] == p2[k])
  {
    UpsertKeyChoice(p1);
    var (field, value) := UpsertKey(p1).value;
    var once := Upserted(docs, p1);
    match FirstWith(docs, field, value)
    case Some(i) =>
      assert forall j :: 0 <= j < i ==> once[j] == docs[j];
      assert Matches(once[i], field, value);
      FirstWithIs(once, field, value, i);
    case None =>
      assert forall j :: 0 <= j < |docs| ==> once[j] == docs[j];
      assert Matches(once[|docs|], field, value);
      FirstWithIs(once, field, value, |docs|);
  }

  /** `FirstWith` is the first matching index. */
  lemma FirstWithIs(docs: seq<Record>, field: string, value: Json, i: nat)
    requires i < |docs| && Matches(docs[i], field, value)
    requires forall j :: 0 <= j < i ==> !Matches(docs[j], field, value)
    ensures FirstWith(docs, field, value) == Some(i)
  {
  }

  /** How many documents `cursor.limit(limit)` yields out of `total`: all of them
      without a limit or with limit 0, `|limit|` of them otherwise (a negative
      limit is the same as its absolute value). */
  function LimitCount(total: nat, limit: Option<int>): (n: nat)
    ensures n <= total
  {
    match limit
    case None => total
    case Some(l) =>
      var m := if l < 0 then -l else l;
      if m == 0 || m >= total then total else m
  }

  /** The `i`-th document as `list_projects` returns it: its `_id` as a string. */
  function WithId(docs: seq<Record>, i: nat): Record
    requires i < |docs|
  {
    docs[i]["_id" := JStr(Decimal(i))]
  }

  /** `list_projects(limit)`: newest first (descending `_id`, which grows with
      insertion), at most as many as the limit says. */
  function Listed(docs: seq<Record>, limit: Option<int>): seq<Record>
  {
    seq(LimitCount(|docs|, limit), j requires 0 <= j < LimitCount(|docs|, limit) => WithId(docs, |docs| - 1 - j))
  }

  /** The listing is as long as the limit allows, every entry carries a decimal
      string `_id`, the `_id`s strictly decrease, and otherwise each entry is
      the stored document. */
  lemma ListedProperties(docs: seq<Record>, limit: Option<int>)
    ensures var r := Listed(docs, limit);
      |r| == (if limit.None? || limit.value == 0 then |docs| else Min(|docs|, Abs(limit.value)))
    ensures var r := Listed(docs, limit);
      forall j :: 0 <= j < |r| ==> "_id" in r[j] && r[j]["_id"].JStr? && AllDigits(r[j]["_id"].s)
    ensures var r := Listed(docs, limit);
      forall a, b :: 0 <= a < b < |r| ==> IdValue(r[a]) > IdValue(r[b])
    ensures var r := Listed(docs, limit);
      forall j :: 0 <= j < |r| ==> forall k :: k in docs[|docs| - 1 - j] && k != "_id" ==> k in r[j] && r[j][k] == docs[|docs| - 1 - j][k]
  {
    var r: seq<Record> := Listed(docs, limit);
    forall j | 0 <= j < |r|
      ensures r[j] == WithId(docs, |docs| - 1 - j) && IdValue(r[j]) == |docs| - 1 - j
    {
      DecimalRoundTrip(|docs| - 1 - j);
    }
  }

  /** The number a returned record's `_id` spells, or -1 when it is not a decimal string. */
  function IdValue(doc: Record): int
  {
    if "_id" in doc && doc["_id"].JStr? && AllDigits(doc["_id"].s) then DigitsValue(doc["_id"].s) else -1
  }

  /** `upsert_project(project)` on the database `db`: `_get_collection()`, then the
      key, then `update_one`, which is the driver's next operation. */
  datatype Upserting = Upserting(result: Result<(), StoreError>, after: Db)

  function Upsert(db: Db, project: Record): Upserting
  {
    match Mongo.Database(db.globals)
    case Err(e) => Upserting(Err(Unavailable(e)), db)
    case Ok(_) =>
      match UpsertKey(project)
      case Err(e) => Upserting(Err(e), db)
      case Ok((field, value)) =>
        var served := db.(ops := db.ops + 1);
        if db.fails(db.ops) then Upserting(Err(DriverFailed), served)
        else Upserting(Ok(()), served.(docs := UpdateOne(db.docs, field, value, project)))
  }

  /** The upsert raises exactly when `get_database()` raises, the record has no key,
      or the driver fails its `update_one`, in that order of precedence; only a
      success changes the documents, as `Upserted` says; the driver is asked only
      once the key is known; the globals are never touched. */
  lemma UpsertOutcome(db: Db, project: Record)
    ensures var u := Upsert(db, project);
      u.result.Err? <==> Mongo.Database(db.globals).Err? || UpsertKey(project).Err? || db.fails(db.ops)
    ensures var u := Upsert(db, project);
      (Mongo.Database(db.globals).Err? ==> u.result == Err(Unavailable(Mongo.Database(db.globals).error)))
      && (u.result == Err(MissingKey) <==> Mongo.Database(db.globals).Ok? && UpsertKey(project).Err?)
      && (u.result == Err(DriverFailed) <==>
            Mongo.Database(db.globals).Ok? && UpsertKey(project).Ok? && db.fails(db.ops))
    ensures var u := Upsert(db, project);
      u.after.globals == db.globals && u.after.fails == db.fails
      && u.after.ops == (if Mongo.Database(db.globals).Ok? && UpsertKey(project).Ok? then db.ops + 1 else db.ops)
    ensures var u := Upsert(db, project);
      u.result.Ok? ==> UpsertKey(project).Ok? && u.after.docs == Upserted(db.docs, project)
    ensures var u := Upsert(db, project);
      u.result.Err? ==> u.after.docs == db.docs
  {
  }

  /** `list_projects(limit)` on the database `db`: `_get_collection()`, then the
      query, which is the driver's next operation. */
  datatype Listing = Listing(result: Result<seq<Record>, StoreError>, after: Db)

  function List(db: Db, limit: Option<int>): Listing
  {
    match Mongo.Database(db.globals)
    case Err(e) => Listing(Err(Unavailable(e)), db)
    case Ok(_) =>
      var served := db.(ops := db.ops + 1);
      if db.fails(db.ops) then Listing(Err(DriverFailed), served)
      else Listing(Ok(Listed(db.docs, limit)), served)
  }

  /** Listing raises exactly when `get_database()` raises or the driver fails the
      query; otherwise it gives `Listed`; it never changes the documents. */
  lemma ListOutcome(db: Db, limit: Option<int>)
    ensures var l := List(db, limit);
      l.result.Err? <==> Mongo.Database(db.globals).Err? || db.fails(db.ops)
    ensures var l := List(db, limit);
      (Mongo.Database(db.globals).Err? ==> l.result == Err(Unavailable(Mongo.Database(db.globals).error)))
      && (l.result == Err(DriverFailed) <==> Mongo.Database(db.globals).Ok? && db.fails(db.ops))
    ensures var l := List(db, limit);
      l.result.Ok? ==> l.result.value == Listed(db.docs, limit)
    ensures var l := List(db, limit);
      l.after.docs == db.docs && l.after.globals == db.globals && l.after.fails == db.fails
  {
  }

  function Min(a: nat, b: nat): nat { if a < b then a else b }
  function Abs(x: int): nat { if x < 0 then -x else x }

  /** The MongoDB collection `projects` of the database the `mongo` module names;
      a document's `_id` is its position in insertion order. */
  class Collection {
    /** The `mongo` module, whose globals `_get_collection()` reads. */
    const mongo: Mongo.MongoState
    /** Whether the driver's `n`-th operation raises. */
    const fails: nat -> bool
    var docs: seq<Record>
    /** The operations the driver has served. */
    var ops: nat
    /** The records passed to `upsert_project`, in call order. */
    ghost var log: seq<Record>

    ghost function State(): Db
      reads this, mongo
    {
      Db(docs, mongo.State(), ops, fails)
    }

    constructor (mongo: Mongo.MongoState, fails: nat -> bool)
      ensures this.mongo == mongo && this.fails == fails
      ensures docs == [] && ops == 0 && log == []
    {
      this.mongo := mongo;
      this.fails := fails;
      docs := [];
      ops := 0;
      log := [];
    }

    /** `upsert_project(project)`. */
    method UpsertProject(project: Record) returns (r: Result<(), StoreError>)
      modifies this`docs, this`ops, this`log
      ensures var u := Upsert(old(State()), project); r == u.result && State() == u.after
      ensures log == old(log) + [project]
    {
      log := log + [project];
      var database := mongo.GetDatabase();
      if database.Err? {
        return Err(Unavailable(database.error));
      }
      var key := UpsertKey(project);
      if key.Err? {
        return Err(key.error);
      }
      var (field, value) := key.value;
      var failed := fails(ops);
      ops := ops + 1;
      if failed {
        return Err(DriverFailed);
      }
      docs := UpdateOne(docs, field, value, project);
      r := Ok(());
    }

    /** `list_projects(limit)`: walks the cursor and turns each `_id` into a string. */
    method ListProjects(limit: Option<int>) returns (r: Result<seq<Record>, StoreError>)
      modifies this`ops
      ensures var l := List(old(State()), limit); r == l.result && State() == l.after
    {
      var database := mongo.GetDatabase();
      if database.Err? {
        return Err(Unavailable(database.error));
      }
      var failed := fails(ops);
      ops := ops + 1;
      if failed {
        return Err(DriverFailed);
      }
      var n := LimitCount(|docs|, limit);
      var results := [];
      var j := 0;
      while j < n
        invariant 0 <= j <= n
        invariant |results| == j
        invariant forall a :: 0 <= a < j ==> results[a] == WithId(docs, |docs| - 1 - a)
      {
        var doc := docs[|docs| - 1 - j];
        doc := doc["_id" := JStr(Decimal(|docs| - 1 - j))];
        results := results + [doc];
        j := j + 1;
      }
      assert results == Listed(docs, limit);
      r := Ok(results);
    }
  }
}
