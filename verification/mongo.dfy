/** `mongo`: the module-level MongoDB client and database name, set by
    `connect_to_mongo`, dropped by `close_mongo_connection`, and read by
    `get_database`. */
module Mongo {
  import opened Wrappers
  import opened Text
  import opened Urls

  /** Why a `mongo` function raises. */
  datatype MongoError =
    | MissingDatabaseName   // `_extract_db_name` raises `ValueError`
    | UriNotSet             // `_get_mongo_uri` raises `RuntimeError`
    | NotInitialized        // `get_database` raises `RuntimeError`
    | BadUri                // the driver's client refuses the URI (`InvalidURI`)
    | BadName               // the driver refuses the database name (`InvalidName`)

  /** What the MongoDB driver accepts: the URIs its client constructor takes, and
      the names `client[name]` takes. */
  datatype Driver = Driver(acceptsUri: string -> bool, acceptsName: string -> bool)

  /** A driver client, known by the URI it was made from. */
  datatype Client = Client(uri: string)

  /** `_extract_db_name(uri)` on the path `urlparse` found in the URI. */
  function ExtractDbName(path: string): Result<string, MongoError>
  {
    if path != "" && path != "/" then Ok(LStripChar(path, '/')) else Err(MissingDatabaseName)
  }

  /** The name is the path without its leading slashes, for any path other than
      the empty one and "/". */
  lemma ExtractDbNameProperties(path: string)
    ensures ExtractDbName(path).Err? <==> path == "" || path == "/"
    ensures ExtractDbName(path).Ok? ==>
      var n := ExtractDbName(path).value;
      (n == "" || n[0] != '/') && path == Slashes(|path| - |n|) + n
  {
    if ExtractDbName(path).Ok? {
      var n := ExtractDbName(path).value;
      assert path[..|path| - |n|] == Slashes(|path| - |n|);
      assert path == path[..|path| - |n|] + n;
    }
  }

  /** The usual path "/name" gives the name (without further leading slashes);
      a path made of two slashes gives the empty name. */
  lemma ExtractDbNameOfPath(name: string)
    ensures ExtractDbName("/" + name) == (if name == "" then Err(MissingDatabaseName) else Ok(LStripChar(name, '/')))
    ensures ExtractDbName("//") == Ok("")
  {
    if name != "" {
      assert ("/" + name)[1..] == name;
    }
    assert "//"[1..] == "/";
  }

  /** `k` slashes. */
  function Slashes(k: nat): (r: string)
    ensures |r| == k && forall i :: 0 <= i < k ==> r[i] == '/'
  {
    if k == 0 then "" else "/" + Slashes(k - 1)
  }

  /** `_get_mongo_uri()`: `MONGODB_URI`, which must be set and non-empty. */
  function MongoUri(env: map<string, string>): Result<string, MongoError>
  {
    if "MONGODB_URI" in env && env["MONGODB_URI"] != "" then Ok(env["MONGODB_URI"]) else Err(UriNotSet)
  }

  /** The module globals `_mongo_client` and `_db_name`, the clients whose
      `close()` has been called, and the driver the module calls. */
  datatype Globals = Globals(client: Option<Client>, dbName: Option<string>, closed: seq<Client>, driver: Driver)

  datatype Step = Step(after: Globals, result: Result<(), MongoError>)

  /** `connect_to_mongo()`: nothing when a client exists; otherwise the client is
      made before the database name is read, so a URI the driver refuses sets
      nothing, and a URI without a name leaves the new client in place and the old
      name unchanged. */
  function Connect(g: Globals, env: map<string, string>, urlOf: string -> Url): Step
  {
    if g.client.Some? then Step(g, Ok(()))
    else
      match MongoUri(env)
      case Err(e) => Step(g, Err(e))
      case Ok(uri) =>
        if !g.driver.acceptsUri(uri) then Step(g, Err(BadUri))
        else
        var g1 := g.(client := Some(Client(uri)));
        match ExtractDbName(urlOf(uri).path)
        case Err(e) => Step(g1, Err(e))
        case Ok(name) => Step(g1.(dbName := Some(name)), Ok(()))
  }

  /** `close_mongo_connection()`: closes and drops the client; the name stays. */
  function Close(g: Globals): Globals
  {
    if g.client.Some? then g.(client := None, closed := g.closed + [g.client.value]) else g
  }

  /** `get_database()`: the client indexed with the database name, which the
      driver may refuse. */
  function Database(g: Globals): Result<(Client, string), MongoError>
  {
    if g.client.None? || g.dbName.None? then Err(NotInitialized)
    else if !g.driver.acceptsName(g.dbName.value) then Err(BadName)
    else Ok((g.client.value, g.dbName.value))
  }

  /** `get_database` raises `RuntimeError` exactly when a global is unset, and
      `InvalidName` exactly when both are set but the driver refuses the name;
      right after a successful connection it gives the new client and the URI's
      database name, unless the driver refuses that name. */
  lemma DatabaseReady(g: Globals, env: map<string, string>, urlOf: string -> Url)
    ensures Database(g).Ok? <==> g.client.Some? && g.dbName.Some? && g.driver.acceptsName(g.dbName.value)
    ensures Database(g) == Err(NotInitialized) <==> g.client.None? || g.dbName.None?
    ensures Database(g) == Err(BadName) <==>
      g.client.Some? && g.dbName.Some? && !g.driver.acceptsName(g.dbName.value)
    ensures g.client.None? && Connect(g, env, urlOf).result.Ok? ==>
      MongoUri(env).Ok? && g.driver.acceptsUri(MongoUri(env).value)
      && ExtractDbName(urlOf(MongoUri(env).value).path).Ok?
      && var name := ExtractDbName(urlOf(MongoUri(env).value).path).value;
         Database(Connect(g, env, urlOf).after)
         == (if g.driver.acceptsName(name) then Ok((Client(MongoUri(env).value), name)) else Err(BadName))
  {
  }

  /** Connecting without a client raises exactly when the URI is unset, the driver
      refuses it, or it names no database, in that order; a refused URI sets
      nothing, and only the missing name leaves a new client behind. */
  lemma ConnectOutcome(g: Globals, env: map<string, string>, urlOf: string -> Url)
    requires g.client.None?
    ensures var s := Connect(g, env, urlOf);
      (s.result == Err(UriNotSet) <==> MongoUri(env).Err?)
      && (s.result == Err(BadUri) <==> MongoUri(env).Ok? && !g.driver.acceptsUri(MongoUri(env).value))
      && (s.result == Err(MissingDatabaseName) <==>
            MongoUri(env).Ok? && g.driver.acceptsUri(MongoUri(env).value)
            && ExtractDbName(urlOf(MongoUri(env).value).path).Err?)
      && (s.result.Ok? <==>
            MongoUri(env).Ok? && g.driver.acceptsUri(MongoUri(env).value)
            && ExtractDbName(urlOf(MongoUri(env).value).path).Ok?)
    ensures var s := Connect(g, env, urlOf);
      (s.after.client.Some? <==> MongoUri(env).Ok? && g.driver.acceptsUri(MongoUri(env).value))
      && s.after.driver == g.driver && s.after.closed == g.closed
      && (s.result.Err? && s.result != Err(MissingDatabaseName) ==> s.after == g)
  {
  }

  /** A URI whose path is two slashes connects with the empty name, which a driver
      that refuses the empty name then rejects in `get_database`. */
  lemma EmptyNameRefused(g: Globals, env: map<string, string>, urlOf: string -> Url)
    requires g.client.None? && MongoUri(env).Ok? && g.driver.acceptsUri(MongoUri(env).value)
    requires urlOf(MongoUri(env).value).path == "//" && !g.driver.acceptsName("")
    ensures var s := Connect(g, env, urlOf);
      s.result.Ok? && s.after.dbName == Some("") && Database(s.after) == Err(BadName)
  {
    ExtractDbNameOfPath("");
  }

  /** Connecting again changes nothing once a client exists, also when the first
      connection raised for a missing database name; closing twice is closing
      once; a closed connection has no client and `get_database` raises. */
  lemma ConnectAndCloseRepeat(g: Globals, env: map<string, string>, urlOf: string -> Url)
    ensures var s := Connect(g, env, urlOf);
      s.after.client.Some? ==> Connect(s.after, env, urlOf) == Step(s.after, Ok(()))
    ensures Close(Close(g)) == Close(g)
    ensures Close(g).client.None? && Close(g).dbName == g.dbName && Close(g).driver == g.driver
      && Database(Close(g)) == Err(NotInitialized)
    ensures g.client.Some? ==> Close(g).closed == g.closed + [g.client.value]
  {
  }

  /** After closing, a new connection whose URI names no database keeps the client
      it made and the earlier database name, so `get_database` gives the new client
      with the old name. */
  lemma ReconnectKeepsOldName(g: Globals, env: map<string, string>, urlOf: string -> Url)
    requires g.dbName.Some?
    requires MongoUri(env).Ok? && g.driver.acceptsUri(MongoUri(env).value)
    requires urlOf(MongoUri(env).value).path in {"", "/"}
    ensures var s := Connect(Close(g), env, urlOf);
      s.result == Err(MissingDatabaseName) && s.after.client == Some(Client(MongoUri(env).value))
      && s.after.dbName == g.dbName
      && Database(s.after) == (if g.driver.acceptsName(g.dbName.value) then Ok((Client(MongoUri(env).value), g.dbName.value)) else Err(BadName))
  {
    var closed := Close(g);
    assert closed.client.None? && closed.dbName == g.dbName;
    var s := Connect(closed, env, urlOf);
    assert s.result == Err(MissingDatabaseName);
    assert s.after.client == Some(Client(MongoUri(env).value)) && s.after.dbName == g.dbName;
  }

  /** The module `mongo` with its two globals. */
  class MongoState {
    /** The driver the module calls. */
    const driver: Driver
    var client: Option<Client>
    var dbName: Option<string>
    /** The clients closed so far. */
    ghost var closed: seq<Client>

    ghost function State(): Globals
      reads this
    {
      Globals(client, dbName, closed, driver)
    }

    constructor (driver: Driver)
      ensures State() == Globals(None, None, [], driver)
    {
      this.driver := driver;
      client := None;
      dbName := None;
      closed := [];
    }

    /** `connect_to_mongo()`, with the environment and `urlparse` given. */
    method ConnectToMongo(env: map<string, string>, urlOf: string -> Url) returns (r: Result<(), MongoError>)
      modifies this`client, this`dbName
      ensures Step(State(), r) == Connect(old(State()), env, urlOf)
    {
      if client.Some? {
        return Ok(());
      }
      var uri := MongoUri(env);
      if uri.Err? {
        return Err(uri.error);
      }
      if !driver.acceptsUri(uri.value) {
        return Err(BadUri);
      }
      client := Some(Client(uri.value));
      var name := ExtractDbName(urlOf(uri.value).path);
      if name.Err? {
        return Err(name.error);
      }
      dbName := Some(name.value);
      r := Ok(());
    }

    /** `close_mongo_connection()`. */
    method CloseMongoConnection()
      modifies this`client, this`closed
      ensures State() == Close(old(State()))
    {
      if client.Some? {
        closed := closed + [client.value];
        client := None;
      }
    }

    /** `get_database()`. */
    method GetDatabase() returns (r: Result<(Client, string), MongoError>)
      ensures r == Database(State())
      ensures r.Ok? <==> client.Some? && dbName.Some? && driver.acceptsName(dbName.value)
    {
      if client.None? || dbName.None? {
        return Err(NotInitialized);
      }
      if !driver.acceptsName(dbName.value) {
        return Err(BadName);
      }
      r := Ok((client.value, dbName.value));
    }
  }
}
