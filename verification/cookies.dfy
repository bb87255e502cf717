/** `prepare_storage_state`: browser-exported cookies rewritten into the cookie
    records of a browser storage state. */
module Cookies {
  import opened Wrappers
  import opened Text
  import opened Json

  type Record = map<string, Json>

  const DefaultDomain: string := ".codeur.com"
  const DefaultPath: string := "/"
  const NoExpiry: int := -1

  /** The keys of a normalised cookie. */
  function CookieKeys(): set<string>
  {
    {"name", "value", "domain", "path", "expires", "httpOnly", "secure", "sameSite"}
  }

  /** Why `normalize_cookie` or `main` raises, in the order the cookie's fields are
      evaluated. */
  datatype CookieError =
    | NotAnObject            // indexing a non-dict raises `TypeError`
    | MissingField(key: string)  // `raw_cookie[key]` raises `KeyError`
    | BadExpiry              // `int(...)` raises `ValueError` or `TypeError`
    | UnhashableSameSite     // a list or object used as a dict key raises `TypeError`
    | NotIterable            // the decoded file is not something a loop can walk

  /** `int(v)` for a JSON value. */
  function IntOf(v: Json): Option<int>
  {
    match v
    case JInt(i) => Some(i)
    case JBool(b) => Some(if b then 1 else 0)
    case JStr(s) => ParseInt(s)
    case _ => None
  }

  /** `same_site_map.get(v, "None")`: the lowercase browser names; every other
      hashable value gives "None". */
  function SameSite(v: Json): Result<string, CookieError>
  {
    match v
    case JArr(_) => Err(UnhashableSameSite)
    case JObj(_) => Err(UnhashableSameSite)
    case JStr(s) =>
      if s == "lax" then Ok("Lax")
      else if s == "strict" then Ok("Strict")
      else Ok("None")
    case _ => Ok("None")
  }

  /** `normalize_cookie(raw_cookie)`. */
  function NormalizeCookie(raw: Json): Result<Record, CookieError>
  {
    match raw
    case JObj(fields) => NormalizeFields(fields)
    case _ => Err(NotAnObject)
  }

  /** `normalize_cookie` on a dict. */
  function NormalizeFields(fields: map<string, Json>): Result<Record, CookieError>
  {
    if "name" !in fields then Err(MissingField("name"))
    else if "value" !in fields then Err(MissingField("value"))
    else
      match IntOf(Get(fields, "expirationDate", JInt(NoExpiry)))
      case None => Err(BadExpiry)
      case Some(expires) =>
        match SameSite(Get(fields, "sameSite", JStr("None")))
        case Err(e) => Err(e)
        case Ok(sameSite) =>
          Ok(map[
            "name" := fields["name"],
            "value" := fields["value"],
            "domain" := Get(fields, "domain", JStr(DefaultDomain)),
            "path" := Get(fields, "path", JStr(DefaultPath)),
            "expires" := JInt(expires),
            "httpOnly" := JBool(Truthy(Get(fields, "httpOnly", JBool(false)))),
            "secure" := JBool(Truthy(Get(fields, "secure", JBool(true)))),
            "sameSite" := JStr(sameSite)])
  }

  /** A normalised cookie has exactly the eight keys; name and value are copied;
      domain and path are copied or defaulted; expiry is `int()` of the input's
      `expirationDate`, -1 when absent; the flags are booleans, `httpOnly` off and
      `secure` on by default; `sameSite` is the table's name for the input's
      `sameSite`, "None" when absent, and so one of "None", "Lax" and "Strict". */
  lemma NormalizedShape(raw: Json)
    requires NormalizeCookie(raw).Ok?
    ensures raw.JObj?
    ensures var c := NormalizeCookie(raw).value; var f := raw.fields;
      c.Keys == CookieKeys()
      && c["name"] == f["name"] && c["value"] == f["value"]
      && c["domain"] == (if "domain" in f then f["domain"] else JStr(".codeur.com"))
      && c["path"] == (if "path" in f then f["path"] else JStr("/"))
      && IntOf(Get(f, "expirationDate", JInt(-1))).Some?
      && c["expires"] == JInt(IntOf(Get(f, "expirationDate", JInt(-1))).value)
      && ("expirationDate" !in f ==> c["expires"] == JInt(-1))
      && c["httpOnly"] == JBool("httpOnly" in f && Truthy(f["httpOnly"]))
      && c["secure"] == JBool("secure" !in f || Truthy(f["secure"]))
      && SameSite(Get(f, "sameSite", JStr("None"))).Ok?
      && c["sameSite"] == JStr(SameSite(Get(f, "sameSite", JStr("None"))).value)
      && c["sameSite"] in {JStr("None"), JStr("Lax"), JStr("Strict")}
  {
  }

  /** An expiry that is already an integer is kept as it is, and a browser
      `sameSite` name is rewritten by the table, on the cookie itself. */
  lemma NormalizedExpiryAndSameSite(raw: Json)
    requires NormalizeCookie(raw).Ok?
    ensures var c := NormalizeCookie(raw).value; var f := raw.fields;
      ("expirationDate" in f && f["expirationDate"].JInt? ==> c["expires"] == f["expirationDate"])
      && ("sameSite" in f && f["sameSite"] == JStr("lax") ==> c["sameSite"] == JStr("Lax"))
      && ("sameSite" in f && f["sameSite"] == JStr("strict") ==> c["sameSite"] == JStr("Strict"))
      && ("sameSite" in f && f["sameSite"] == JStr("no_restriction") ==> c["sameSite"] == JStr("None"))
  {
    NormalizedShape(raw);
  }

  /** `int()` keeps an integer as it is and reads a boolean as 0 or 1. */
  lemma IntOfNumbers(v: Json)
    ensures v.JInt? ==> IntOf(v) == Some(v.i)
    ensures v.JBool? ==> IntOf(v) == Some(if v.b then 1 else 0)
    ensures v.JNull? || v.JArr? || v.JObj? ==> IntOf(v).None?
  {
  }

  /** A concrete cookie: the exported expiry and lowercase `sameSite` become the
      storage-state expiry and "Lax", and the missing fields take their defaults. */
  lemma NormalizeExample()
    ensures NormalizeCookie(JObj(map["name" := JStr("sid"), "value" := JStr("x"),
                                     "expirationDate" := JInt(1767225600), "sameSite" := JStr("lax")]))
      == Ok(map["name" := JStr("sid"), "value" := JStr("x"), "domain" := JStr(".codeur.com"),
                "path" := JStr("/"), "expires" := JInt(1767225600), "httpOnly" := JBool(false),
                "secure" := JBool(true), "sameSite" := JStr("Lax")])
  {
  }

  /** The cookie is rejected exactly when it is not an object, lacks its name or
      value, has an expiry `int` rejects, or has a list or object as `sameSite`. */
  lemma NormalizeErrors(raw: Json)
    ensures NormalizeCookie(raw).Err? <==>
      !raw.JObj? || "name" !in raw.fields || "value" !in raw.fields
      || ("expirationDate" in raw.fields && IntOf(raw.fields["expirationDate"]).None?)
      || ("sameSite" in raw.fields && (raw.fields["sameSite"].JArr? || raw.fields["sameSite"].JObj?))
  {
  }

  /** The `sameSite` table: the browser names map to the storage-state names, and
      anything else (including the capitalised storage-state names other than
      "None" themselves) gives "None". */
  lemma SameSiteTable(s: string)
    ensures SameSite(JStr("no_restriction")) == Ok("None") && SameSite(JStr("unspecified")) == Ok("None")
    ensures SameSite(JStr("none")) == Ok("None")
    ensures SameSite(JStr("lax")) == Ok("Lax") && SameSite(JStr("strict")) == Ok("Strict")
    ensures s != "lax" && s != "strict" ==> SameSite(JStr(s)) == Ok("None")
    ensures SameSite(JStr("Lax")) == Ok("None")
  {
  }

  /** An expiry written as a decimal text, with white space around it, is read as
      its number. */
  lemma ExpiryFromText(x: int, pad: string, pad2: string)
    requires forall i :: 0 <= i < |pad| ==> IsSpace(pad[i])
    requires forall i :: 0 <= i < |pad2| ==> IsSpace(pad2[i])
    ensures IntOf(JStr(pad + IntStr(x) + pad2)) == Some(x)
  {
    IntRoundTrip(x, pad, pad2);
  }

  /** `[normalize_cookie(cookie) for cookie in cookies]`: stops at the first cookie
      that raises. */
  function NormalizeAll(cookies: seq<Json>): Result<seq<Record>, CookieError>
  {
    if cookies == [] then Ok([])
    else
      match NormalizeCookie(cookies[0])
      case Err(e) => Err(e)
      case Ok(c) =>
        match NormalizeAll(cookies[1..])
        case Err(e) => Err(e)
        case Ok(rest) => Ok([c] + rest)
  }

  /** One normalised cookie per input cookie, in the same order; and an error is
      the error of the first cookie that has one. */
  lemma {:induction false} NormalizeAllOrder(cookies: seq<Json>)
    ensures NormalizeAll(cookies).Ok? <==> forall i :: 0 <= i < |cookies| ==> NormalizeCookie(cookies[i]).Ok?
    ensures NormalizeAll(cookies).Ok? ==>
      |NormalizeAll(cookies).value| == |cookies|
      && forall i :: 0 <= i < |cookies| ==> NormalizeAll(cookies).value[i] == NormalizeCookie(cookies[i]).value
    ensures NormalizeAll(cookies).Err? ==>
      exists k :: 0 <= k < |cookies| && NormalizeCookie(cookies[k]) == Err(NormalizeAll(cookies).error)
        && forall i :: 0 <= i < k ==> NormalizeCookie(cookies[i]).Ok?
  {
    if cookies != [] {
      NormalizeAllOrder(cookies[1..]);
      assert forall i :: 1 <= i < |cookies| ==> cookies[i] == cookies[1..][i - 1];
      if NormalizeCookie(cookies[0]).Ok? && NormalizeAll(cookies[1..]).Err? {
        var k :| 0 <= k < |cookies[1..]| && NormalizeCookie(cookies[1..][k]) == Err(NormalizeAll(cookies[1..]).error)
          && forall i :: 0 <= i < k ==> NormalizeCookie(cookies[1..][i]).Ok?;
        assert NormalizeCookie(cookies[k + 1]) == Err(NormalizeAll(cookies).error);
      }
      if NormalizeCookie(cookies[0]).Err? {
        assert NormalizeCookie(cookies[0]) == Err(NormalizeAll(cookies).error);
      }
    }
  }

  /** The storage state `main` writes, from the decoded cookie file: a list of
      cookies is normalised one by one; walking an object or a text yields its
      keys or characters, which are not cookie objects, so only an empty one
      gets through. */
  function StorageState(decoded: Json): Result<Json, CookieError>
  {
    var cookies := match decoded
      case JArr(items) => Ok(items)
      case JObj(fields) => if fields == map[] then Ok([]) else Err(NotAnObject)
      case JStr(s) => if s == "" then Ok([]) else Err(NotAnObject)
      case _ => Err(NotIterable);
    match cookies
    case Err(e) => Err(e)
    case Ok(items) =>
      match NormalizeAll(items)
      case Err(e) => Err(e)
      case Ok(normalized) => Ok(JObj(map["cookies" := JArr(seq(|normalized|, i requires 0 <= i < |normalized| => JObj(normalized[i]))),
                                         "origins" := JArr([])]))
  }

  /** The storage state holds one normalised cookie per input cookie, in order,
      and no origins. */
  lemma StorageStateCookies(items: seq<Json>)
    requires StorageState(JArr(items)).Ok?
    ensures var st := StorageState(JArr(items)).value;
      st.JObj? && st.fields.Keys == {"cookies", "origins"} && st.fields["origins"] == JArr([])
      && st.fields["cookies"].JArr? && |st.fields["cookies"].items| == |items|
      && forall i :: 0 <= i < |items| ==>
           NormalizeCookie(items[i]).Ok? && st.fields["cookies"].items[i] == JObj(NormalizeCookie(items[i]).value)
  {
    NormalizeAllOrder(items);
  }
}
