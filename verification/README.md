# Codeur lead pipeline — a Dafny model

The system reads the unread notification e-mails that codeur.com sends about new
freelance projects. It keeps the ones from the notification sender whose title
announces a new project and that a matcher accepts. For each, it follows the first
project link in the e-mail, crawls the project page politely, builds a project lead,
returns the open leads and upserts them into a MongoDB `projects` collection. Around
this core sit several helpers:

- a client for an Ollama language-model service, used to write an offer message for
  a project;
- a script that rewrites browser-exported cookies into a browser storage state;
- the module that holds the MongoDB connection.

The model has one Dafny module per source file, and a few shared ones:

- `Wrappers`: `Option` and `Result`.
- `Text`: the Python string operations the code relies on (`strip`, `lstrip`,
  `rstrip`, `replace`, `join`, `in`, `int()` and `str()` on integers).
- `Json`: JSON values, Python truthiness and `dict.get`.
- `Urls`: URLs as `urlparse` splits them, query normalisation, the site policy and
  robots keys.
- `Page`: the parsed project page and e-mail, as records of the elements the code
  looks at.
- `Budget`: the budget regular expression and the `int()` reading of its groups.

The modules for the source files:

- `Crawler`: the polite fetcher, as classes.
  - `Session` is the network. Its n-th GET is answered by an oracle.
  - `RobotsCache` is the robots cache shared by every crawler.
  - `Crawler` holds the page and document caches.
  - Each method is proved against a specification function over the caches (`Retry`,
    `RobotsLookup`, `FetchSpec`, `LoadSpec`), and the promised properties are lemmas
    about those functions.
- `ProjectCrawler`: the project-page crawler, a class with one cache per getter, over
  a `Crawler`.
- `Extract`: the first project link in an e-mail.
- `BuildProject`: `build_object_project` and the project status enumeration.
- `Store`: the `projects` collection; its gateway fails when `get_database()`
  raises or when the driver fails an operation.
- `Ingest`: the route's loop.
- `Llama`: `call_llama` and its helpers.
- `Apply`: the offer prompt and its parsing.
- `Cookies`: `prepare_storage_state`.
- `Mongo`: the connection globals, as a class over a record of the globals.

## Model

| member | source | states |
|---|---|---|
| Text.Decimal | app/repositories/project_repository.py:32-33 | `str(n)` of a natural number is a non-empty string of decimal digits |
| Text.DecimalRoundTrip | app/repositories/project_repository.py:32-33 | reading back the decimal rendering of `n` gives `n` |
| Text.ParseInt | app/scripts/prepare_storage_state.py:21 | `int(s)` accepts only white space around an optional sign and digits grouped by single underscores |
| Text.IntRoundTrip | app/scripts/prepare_storage_state.py:21 | `int(str(x)) == x` for every integer, also with white space on either side |
| Text.StripEmpty | app/services/llama_client.py:102-104 | `s.strip()` is empty exactly when every character of `s` is white space |
| Text.RStripChar | app/services/llama_client.py:10 | `rstrip(c)` gives a prefix that does not end in `c`, and only `c`s were removed |
| Text.LStripChar | app/db/mongo.py:15 | `lstrip(c)` gives a suffix that does not start with `c`, and only `c`s were removed |
| Urls.PageEntries | app/services/crawler.py:84-89 | the kept query parameters are all `page` ones, and no more than the query had |
| Urls.PageEntriesKeepsPages | app/services/crawler.py:81-92 | every `page` entry survives in its original order, every other entry is dropped, and a query holding only `page` keys is unchanged |
| Urls.PageEntriesCount | app/services/crawler.py:81-92 | as many `page` values are kept as the query had |
| Urls.NormalizeUrlProperties | app/services/crawler.py:81-92 | normalising keeps scheme, host, path and fragment, leaves only `page` parameters, and is idempotent |
| Urls.PolicyAndNormalization | app/services/crawler.py:135-142 | a URL the site policy accepts is its own normal form, and a URL off the system paths is accepted once normalised |
| Urls.SystemPathsRejected | app/services/crawler.py:135-142 | every system path is refused, whatever its query |
| Urls.CacheKeyFallback | app/services/crawler.py:94-96 | the cache key is the normalised argument, or the crawler's own URL normalised when the argument is absent; either way a normal form |
| Urls.RobotsKeyOfNormalized | app/services/crawler.py:150-152 | a URL and its cache key share one robots-cache entry (scheme, host, agent) |
| Urls.RobotsUrl | app/services/crawler.py:156 | robots.txt is asked for at `/robots.txt` on the URL's scheme and host, with no query |
| Crawler.Session.constructor | app/services/crawler.py:27 | a new session has sent nothing and answers through the given oracle |
| Crawler.Session.Get | app/services/crawler.py:103 | the n-th GET of a session gets the oracle's n-th answer, and the count goes up by one |
| Crawler.RobotsCache.constructor | app/services/crawler.py:17 | the shared robots cache starts empty |
| Crawler.DecidingAttempt | app/services/crawler.py:98-127 | the attempt that decides a run is the first whose answer is not retryable, or the last one allowed; every earlier answer was retryable |
| Crawler.RetryFromDecides | app/services/crawler.py:98-127 | a run from any attempt returns the verdict of its deciding attempt's answer, after exactly that many attempts |
| Crawler.RetryFromPacing | app/services/crawler.py:98-127 | a run from any attempt makes one GET and one courtesy delay per attempt, and backoff sleeps that double from the current backoff |
| Crawler.RetrySpec | app/services/crawler.py:98-127 | at most 3 GETs; the first non-retryable answer decides; the error after the loop is never reached; one courtesy delay per attempt; backoffs 1 then 2 |
| Crawler.RetryFirstSuccess | app/services/crawler.py:122-125 | a non-error reply to the first GET is returned after one GET and one courtesy delay |
| Crawler.RetryAfterTooManyRequests | app/services/crawler.py:114-120 | a 429 and then a success gives the success, with the backoff sleep before the `finally` courtesy delay |
| Crawler.RetryThreeUnavailable | app/services/crawler.py:114-120 | three 503 replies raise for the status 503 after three attempts |
| Crawler.FetchRefusedByPolicy | app/services/crawler.py:65-69 | a URL the site policy refuses gives `None`, with no request and no state change |
| Crawler.FetchCachedPage | app/services/crawler.py:70-72 | a page cached under the normalised key is returned with no request |
| Crawler.RobotsLookupOnce | app/services/crawler.py:150-169 | robots.txt is fetched at most once per (scheme, host, agent); a second lookup costs nothing, gives the same rules and keeps other entries |
| Crawler.RobotsFailureAllows | app/services/crawler.py:144-148 | a failed robots.txt request is cached as "no parser", which allows every URL |
| Crawler.FetchSpecProperties | app/services/crawler.py:65-79 | only a successful fetch changes the page cache, and only at the normalised key; at most one robots request and 3 page requests; robots entries are kept; a page robots.txt refuses is never requested |
| Crawler.FetchSuccess | app/services/crawler.py:65-79 | a fetch of an uncached, policy-compliant URL yields a page exactly when robots.txt permits it and the deciding answer is not an error |
| Crawler.LoadKeepsCoherence | app/services/crawler.py:45-63 | the document cache stays the parse of the page cache |
| Crawler.LoadIsStable | app/services/crawler.py:45-63 | loading a page a second time returns the first outcome, sends nothing and changes nothing |
| Crawler.Crawler.constructor | app/services/crawler.py:19-43 | caches start empty; an empty or absent user agent falls back to the default one |
| Crawler.Crawler.Send | app/services/crawler.py:103 | one GET through the session, logged |
| Crawler.Crawler.Courtesy | app/services/crawler.py:129-130 | one courtesy delay is logged |
| Crawler.Crawler.Backoff | app/services/crawler.py:132-133 | one backoff sleep with the current base value is logged |
| Crawler.Crawler.Attempt | app/services/crawler.py:102-125 | one pass of the retry loop: a retryable answer with attempts left continues with the doubled backoff; any other answer ends with its verdict |
| Crawler.Crawler.RequestWithRetries | app/services/crawler.py:98-127 | the loop's result, request count and event log are those of `Retry` (whose properties `RetrySpec` states) |
| Crawler.Crawler.EnsureRobotParser | app/services/crawler.py:150-169 | the rules, robots cache, request count and log move as `RobotsLookup` says |
| Crawler.Crawler.CanFetch | app/services/crawler.py:144-148 | allowed exactly when there are no rules or the rules permit the URL for this agent |
| Crawler.Crawler.FetchHtml | app/services/crawler.py:65-79 | result and new caches are those of `FetchSpec` |
| Crawler.Crawler.FetchUncachedPage | app/services/crawler.py:73-79 | after a cache miss: robots check, retried request, caching of the page, as `FetchUncached` says |
| Crawler.Crawler.EnsureDocument | app/services/crawler.py:45-63 | result and caches follow `LoadSpec`, coherence is kept, and the current page and document are set unless the fetch raised |
| Crawler.Crawler.LoadUncachedDocument | app/services/crawler.py:52-63 | after a document-cache miss, the page is fetched, parsed and stored under the normalised key in both caches, as `LoadFetched` says |
| ProjectCrawler.NodeTagsShape | app/services/project_crawler.py:112-120 | every tag is non-empty; a tag from a text node is its stripped text and never the label |
| ProjectCrawler.NodesTagsMembers | app/services/project_crawler.py:112-120 | a tag is collected exactly when some descendant contributes it |
| ProjectCrawler.ParagraphsInOrder | app/services/project_crawler.py:105-120 | the tags of consecutive paragraphs come in document order |
| ProjectCrawler.TagsShape | app/services/project_crawler.py:94-122 | no tag is empty, text-node tags are never the label, and link tags are kept whatever their text |
| ProjectCrawler.CollectTags | app/services/project_crawler.py:104-120 | the loops over the tags paragraphs collect the tags of all their spans' descendants in order |
| ProjectCrawler.CollectSpanTags | app/services/project_crawler.py:108-120 | the loops over one paragraph's direct spans collect their descendants' tags in order |
| ProjectCrawler.CodeurProjectCrawler.Create | app/services/project_crawler.py:4-8 | building the crawler (a new session, the default agent, the shared robots cache) loads its page as `LoadSpec` says: it raises exactly when that load raises, with that error; otherwise the new crawler holds the loaded state and empty getter caches |
| ProjectCrawler.CodeurProjectCrawler.constructor | app/services/project_crawler.py:4-7 | empty getter caches over the given base crawler |
| ProjectCrawler.CodeurProjectCrawler.CheckProjectAvailability | app/services/project_crawler.py:10-49 | a cached answer is returned as is; otherwise the page is loaded and the answer is whether a status span says "Ouvert", cached on success |
| ProjectCrawler.AnySpanOpen | app/services/project_crawler.py:37-44 | the scan over the status spans answers true exactly when some span mentions "Ouvert" |
| ProjectCrawler.CodeurProjectCrawler.CrawlProjectTitle | app/services/project_crawler.py:51-68 | the cached title, or the page heading's text ("" without one), cached |
| ProjectCrawler.CodeurProjectCrawler.CrawlProjectDetails | app/services/project_crawler.py:70-92 | the cached details, or the description content ("" when missing), cached |
| ProjectCrawler.CodeurProjectCrawler.CrawlProjectTags | app/services/project_crawler.py:94-122 | the cached tags, or the tags of the page as `TagsOf` collects them, cached |
| ProjectCrawler.CodeurProjectCrawler.CrawlProjectAmount | app/services/project_crawler.py:124-162 | the cached amount, or the parsed budget (`0` without a budget element); a `ValueError` caches nothing |
| Budget.RunEnd | app/services/project_crawler.py:150 | the run of `[\d\s]` characters from a position is maximal: every character in it is in the class and the next one is not |
| Budget.Groups | app/services/project_crawler.py:150 | every group is non-empty, starts with a digit and holds only digits and white space |
| Budget.GroupsMatch | app/services/project_crawler.py:150 | a digit, then digits and white space, then `€`: that whole run is the next group |
| Budget.GroupsLeading | app/services/project_crawler.py:150 | digits, optional spaces and `€` make one group of the digits and spaces |
| Budget.GroupValueDecimal | app/services/project_crawler.py:151-159 | a rendered number with a trailing space reads back as the number |
| Budget.GroupValueThousands | app/services/project_crawler.py:151-159 | a no-break space between digits is removed before `int()` |
| Budget.ParseBudgetRoundTrip | app/services/project_crawler.py:150-159 | "<low> € à <high> €" reads back as `[low, high]` for any two amounts |
| Budget.ParseBudgetSingle | app/services/project_crawler.py:150-159 | a single "<n> €" reads back as `[n, n]` |
| Budget.ParseBudgetNoDigits | app/services/project_crawler.py:150-162 | a text without ASCII digits has no group and gives `0` |
| Budget.ParseBudgetExample | app/services/project_crawler.py:150-159 | "500 € à 1 000 €" with a no-break thousands separator gives `[500, 1000]` |
| Extract.FirstMatch | app/utils/someCommonFunctions.py:3-11 | a returned link contains the project marker and is the `href` of some anchor; `KeyError` means some anchor has no `href` |
| Extract.FirstDecisive | app/utils/someCommonFunctions.py:8-10 | the first link that lacks `href` or whose `href` holds the marker |
| Extract.FirstMatchDecidedByFirstDecisive | app/utils/someCommonFunctions.py:8-11 | the scan is decided by the first decisive link: its `href`, or `KeyError` when it has none; nothing when there is none |
| Extract.ExtractNone | app/utils/someCommonFunctions.py:3-11 | no `<body>`, or no anchor whose `href` has the marker, gives no link |
| BuildProject.StatusValuesExact | app/services/globalVars.py:45-52 | the four statuses have distinct values, and these are exactly `PROJECT_STATUS_VALUES` |
| BuildProject.BuildProperties | app/utils/buildObjectProject.py:6-18 | no link means no crawler; a closed project means no field crawled; the flag says whether there is a project |
| BuildProject.BuiltProject | app/utils/buildObjectProject.py:16-18 | a built project is new, its page is open, and it has the extracted link and the page's title, details and tags |
| BuildProject.BuildObjectProject | app/utils/buildObjectProject.py:6-18 | result, call sequence and shared robots cache follow `BuildSpec` |
| BuildProject.CrawlLead | app/utils/buildObjectProject.py:10-18 | a new crawler for the link loads the page, and the rest follows `LeadSpec` |
| BuildProject.ReadLead | app/utils/buildObjectProject.py:11-18 | the getter calls on a loaded crawler give `LeadSpec`'s outcome and call order, and leave the robots cache alone |
| Store.UpsertKeyChoice | app/repositories/project_repository.py:15-21 | the key is `project_id` when truthy, else `url`; the key is present with a truthy value; neither truthy is the error |
| Store.FirstWith | app/repositories/project_repository.py:20 | the first document whose field has the value, or none when no document has it |
| Store.UpsertedRecord | app/repositories/project_repository.py:20-21 | an existing match is updated in place (no document added, it gains every given field, the others stay); without a match exactly one document `{field: value} + project` is appended |
| Store.UpsertIdempotent | app/repositories/project_repository.py:15-21 | upserting the same record twice is upserting it once |
| Store.UpsertSameKey | app/repositories/project_repository.py:20-21 | a second record with the same key updates the document the first wrote, adds none, and leaves it holding the second record's fields |
| Store.LimitCount | app/repositories/project_repository.py:27-28 | the cursor yields at most the stored number of documents |
| Store.ListedProperties | app/repositories/project_repository.py:24-35 | as many documents as the limit allows, newest first, each `_id` a decimal string, `_id`s strictly decreasing, the other fields as stored |
| Store.UpsertOutcome | app/repositories/project_repository.py:15-21 | the upsert raises exactly when `get_database()` raises, the record has no key, or the driver fails `update_one`, in that precedence; only a success changes the documents, as `Upserted` says |
| Store.ListOutcome | app/repositories/project_repository.py:24-30 | the listing raises exactly when `get_database()` raises or the driver fails the query; otherwise it is `Listed`; the documents never change |
| Store.Collection.constructor | app/repositories/project_repository.py:7-12 | the collection of the database the `mongo` module names starts empty, with no driver operation served |
| Store.Collection.UpsertProject | app/repositories/project_repository.py:15-21 | result and new state follow `Upsert`: `_get_collection()`, the key test and `update_one`, in the source's order |
| Store.Collection.ListProjects | app/repositories/project_repository.py:24-35 | result and new state follow `List`; the loop over the cursor returns `Listed` |
| Ingest.LeadKey | app/repositories/project_repository.py:17-20 | a lead's record is upserted under its `url` |
| Ingest.SkippedEmail | app/main.py:46-49 | an e-mail that fails the sender and title test, or that the matcher rejects, builds and stores nothing |
| Ingest.MatcherRejectsAll | app/main.py:42-54 | with a matcher that accepts nothing, the route returns `[]`, fetches nothing and stores nothing |
| Ingest.LeadRecordHasKey | app/main.py:50-54 | a pass never raises for a missing key, as the lead's `url` is a non-empty project link; it raises for the store exactly when it stores a lead while `get_database()` raises (globals unset, or a database name the driver refuses) or the driver fails; an appended lead is new and accepted |
| Ingest.RouteProperties | app/main.py:42-54 | a store failure is never a missing key; each returned lead is new, from an accepted notification, with a project link; the returned records are the stored ones, in order |
| Ingest.RouteReliableStore | app/main.py:50-54 | with `get_database()` succeeding and a driver that never fails, only building a lead makes the route raise |
| Ingest.IngestStep | app/main.py:42-54 | the route is the first pass followed by the route over the remaining e-mails |
| Ingest.IngestResumes | app/main.py:51-54 | when the route from the current e-mail is the pass's lead and store calls followed by the route from the next one, the gathered leads grow by that lead and what remains is the route from the next e-mail |
| Ingest.IngestPass | app/main.py:46-54 | one pass of the loop either raises as the route does at that e-mail, or leaves the bookkeeping true for the next e-mail |
| Ingest.HandleEmail | app/main.py:43-54 | one pass: skip, or build the lead and append and upsert it when open, as `HandleSpec` says |
| Ingest.GetCodeurNewProjectMatched | app/main.py:42-54 | the loop over the unread e-mails returns, caches and stores what `IngestFrom` says |
| Llama.Host | app/services/llama_client.py:10 | the base URL is `OLLAMA_HOST` (or the default) without trailing slashes |
| Llama.ModelPrecedence | app/services/llama_client.py:24 | the model is the argument, else `MATCH_MODEL_NAME`, else `OLLAMA_MODEL` (even empty), else `llama3` |
| Llama.RequestTimeout | app/services/llama_client.py:25 | a non-zero argument wins; otherwise, with `OLLAMA_TIMEOUT` unset, the timeout is 60; with it set, the timeout is its `int()` value, and `BadTimeout` exactly when `int()` refuses it |
| Llama.ChatPayload | app/services/llama_client.py:27-44 | model, non-streaming, system then user message, and a `format` exactly when the hint is non-empty |
| Llama.GeneratePrompt | app/services/llama_client.py:92-93 | the prompt is as long as the two prompts and the blank line between them; its contents are stated by `GeneratePromptSplit` |
| Llama.GeneratePromptSplit | app/services/llama_client.py:92-93 | the generate prompt can be cut back into its two prompts |
| Llama.ParseJsonResponse | app/services/llama_client.py:96-110 | a result is what decoding the stripped content gave |
| Llama.ParseJsonResponseCases | app/services/llama_client.py:96-110 | rejected as empty exactly when the content is white space only; otherwise the decoding of the stripped content |
| Llama.ChatAndGenerateAgree | app/services/llama_client.py:97-100 | a chat answer and a generate answer with the same text decode alike |
| Llama.CallLlamaRoutes | app/services/llama_client.py:13-70 | a 404, and only a 404, falls back to the generate endpoint with the joined prompt; other error statuses raise; any other answer is read as is |
| Llama.CallLlamaDecoded | app/services/llama_client.py:13-89 | every result is the decoding of a non-blank text |
| Apply.PromptLayout | app/utils/applyForProject.py:41-73 | the prompt is the preamble, then line by line the profile and description blocks and the closing line |
| Apply.PromptProperties | app/utils/applyForProject.py:52-73 | the prompt ends with the closing line; the description follows its header verbatim; equal prompts for one profile mean equal descriptions; an empty profile is replaced by the placeholder |
| Apply.ParseAiDecisionProperties | app/utils/applyForProject.py:75-82 | a message in the asked-for shape reads back as itself, extra keys aside; an answer without the key gives the empty message |
| Apply.ApplyProperties | app/utils/applyForProject.py:17-38 | no text description fails before the model call; a failing model fails; otherwise the offer is read from the answer to a chat request that carries the system prompt, the built prompt and the JSON format |
| Cookies.NormalizedShape | app/scripts/prepare_storage_state.py:8-25 | eight keys; name and value copied; domain and path copied or defaulted; integer expiry (-1 when absent); boolean flags with their defaults; a known `sameSite` |
| Cookies.NormalizeErrors | app/scripts/prepare_storage_state.py:16-25 | a cookie is rejected exactly when it is not an object, lacks name or value, has an expiry `int()` refuses, or an unhashable `sameSite` |
| Cookies.SameSiteTable | app/scripts/prepare_storage_state.py:9-15 | the browser names map to "None", "Lax" and "Strict"; anything else gives "None" |
| Cookies.ExpiryFromText | app/scripts/prepare_storage_state.py:21 | an expiry written as decimal text, with white space around it, reads as its number |
| Cookies.NormalizeAllOrder | app/scripts/prepare_storage_state.py:29 | one cookie out per cookie in, in order; an error is the first failing cookie's |
| Cookies.StorageStateCookies | app/scripts/prepare_storage_state.py:27-31 | the state holds the normalised cookies in order and no origins |
| Mongo.ExtractDbNameProperties | app/db/mongo.py:12-16 | raises exactly for the empty path and "/"; otherwise the name is the path without its leading slashes |
| Mongo.ExtractDbNameOfPath | app/db/mongo.py:12-16 | "/name" gives the name; "//" gives the empty name |
| Mongo.DatabaseReady | app/db/mongo.py:26-45 | `get_database` raises `RuntimeError` exactly when a global is unset and `InvalidName` exactly when the driver refuses the set name, else succeeds; after a successful connect it gives the new client and the URI's name, or `InvalidName` |
| Mongo.ConnectOutcome | app/db/mongo.py:26-32 | connecting without a client raises exactly for an unset URI, a URI the driver refuses, or a missing name, in that order; a refused URI sets nothing; only the missing name leaves the new client behind |
| Mongo.EmptyNameRefused | app/db/mongo.py:12-16 | a URI path of two slashes connects with the empty name, which a driver refusing "" rejects in `get_database` |
| Mongo.ConnectAndCloseRepeat | app/db/mongo.py:26-45 | connecting with a client present changes nothing; closing twice is closing once; after closing there is no client and `get_database` raises |
| Mongo.ReconnectKeepsOldName | app/db/mongo.py:26-39 | after a close, a reconnect whose URI path is empty or "/" raises but keeps the new client with the old name |
| Mongo.MongoState.constructor | app/db/mongo.py:8-9 | both globals start unset, over the given driver |
| Mongo.MongoState.ConnectToMongo | app/db/mongo.py:26-32 | globals and result follow `Connect`, including the driver refusing the URI before `_mongo_client` is set |
| Mongo.MongoState.CloseMongoConnection | app/db/mongo.py:35-39 | globals follow `Close` |
| Mongo.MongoState.GetDatabase | app/db/mongo.py:42-45 | follows `Database`: `NotInitialized` when a global is unset, `BadName` when the driver refuses the name, else the client and name |

## Left out

- E-mail access: the IMAP mailbox and `parse_email` are not part of this model. The route is given the unread e-mails already parsed into title, sender and content.
- `is_matched_project` is a parameter of the route. `MatcherRejectsAll` covers a matcher that accepts nothing, as the one in the repository does (it returns `None`).
- HTML parsing is an oracle from text to a record of the elements the getters read: the page parser, and the e-mail's body and anchors. `urlparse` is likewise a function from text to a URL record.
- `RobotFileParser.can_fetch` is an oracle over the robots.txt text, the agent and the URL.
- The network is an oracle per session and per request number. Each lead in the route gets a new session. Timeouts, headers and connection errors other than a transport failure are not modelled.
- Sleep durations and random jitter are not modelled. A courtesy delay or a backoff sleep is an event in a log, and a backoff carries only its base value.
- `Project.__init__` takes six arguments, with `client` before `status`. The call in `build_object_project` passes five, so as written `ProjectStatus.NEW` binds to `client` and the call raises `TypeError` for the missing `status`. The model builds the intended five-field record: title, description, tags, URL and status.
- The stored `status` is the enumeration's string value.
- MongoDB `_id` values are the documents' insertion positions, and `list_projects` renders them as decimal strings, where `str(ObjectId)` gives 24 hexadecimal characters. The `$set` of a record that itself holds `_id` is not modelled, and neither is the driver's concurrency.
- Store.Collection.UpsertProject: a driver failure is one fault per operation. A failed `update_one` is taken to have written nothing, and which exception the driver raises is not distinguished.
- Store.Collection.ListProjects: the query is one driver operation that fails or succeeds as a whole. A cursor that fails part-way through the iteration is not modelled.
- Budget.RunEnd: `\d` is read as the ASCII digits `0`-`9`. Python's `str` patterns also match every other Unicode decimal digit, and `int()` accepts those too.
- Budget.Groups: a group that starts with a non-ASCII decimal digit (for example U+0665) is missed, because `\d` is read as ASCII only.
- Budget.ParseBudgetNoDigits: "without digits" means without ASCII digits. A budget written only in other Unicode decimal digits gives `0` in the model, but the source reads its number.
- The URL record has no `params` field. `urlparse` splits a `;params` part off the path, and `geturl()` puts it back into the cache key. The model takes the `urlparse` oracle to leave such a part inside the path, which gives the same key, but the site-policy prefix test then sees it as part of the path.
- The MongoDB driver is an oracle that says which URIs its client constructor accepts and which database names `client[name]` accepts (pymongo refuses, for instance, the empty name and names holding ".", "/" or a space). The driver's own URI and name rules are not written out.
- Which descendants of a tag span lack a `name` attribute is decided by the page parser. Whether BeautifulSoup gives a text node a `name` depends on its version, and the model does not fix one.
- JSON has no floating-point numbers, so a float `expirationDate` (which `int()` truncates) is not modelled.
- Text.ParseInt: accepts only ASCII digits, whereas Python's `int()` also accepts other Unicode decimal digits.
- Reading and writing the cookie files, and `json.dumps` formatting, are not modelled. `StorageState` starts from the decoded file.
- `json.loads` is an oracle from text to an optional JSON value. The HTTP client of `call_llama` is an oracle from a request to a reply.
- Logging, `print` and the FastAPI app (startup and shutdown hooks, the root route) are not modelled.
- Apply.ApplyProperties: as written, importing the module raises `ImportError`, so `apply_for_project` never runs. app/utils/applyForProject.py:6-7 imports `update_project_status` and `get_project_by_url`, which app/repositories/project_repository.py does not define. The model gives the behaviour the function would have if those names resolved. Neither name is called in the modelled code.
- BuildProject.BuildObjectProject: as written, importing the module raises `ImportError`, and so does importing app/main.py, which imports it. Neither `build_object_project` nor the route can run. app/models/Project.py:2 imports `project_status`, which app/services/globalVars.py does not define. The model gives the behaviour the code would have if that name resolved. The same holds for the route in `Ingest`.
- `apply_for_project`'s commented-out status updates and the `NOT_AVAILABLE` status are not in the code, so they are not in the model.
- `build_object_project` does not read the budget, and the model follows it. `crawl_project_amount` is modelled on its own.
