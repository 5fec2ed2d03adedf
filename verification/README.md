# MediaWiki API-testing clients, modelled in Dafny

This project models the core of `api-testing`, MediaWiki's JavaScript library
for end-to-end tests of a wiki's HTTP APIs. It covers these parts:

- **String helpers** (`lib/utils.js`, duplicated in the root `actionapi.js`):
  - random unique titles;
  - DB keys (spaces become underscores);
  - URL-path normalisation.
- **Job-queue draining** (the root `actionapi.js`). `runJobs` posts a request
  to `Special:RunJobs`, signed with an HMAC over its parameters in sorted key
  order, and reads the reply. `runAllJobs` calls it until the queue reports
  `none-ready`.
- **The action-API `Client`** (`lib/actionapi.js`, with the older root copy):
  - request building;
  - the reply check of `actionWithErrors`/`action` and its allow-list of error codes;
  - `prop` title de-normalisation;
  - `meta`;
  - the token cache (`token`, `loadTokens`);
  - `login`;
  - `edit`, with its defaults and the `param_*` record;
  - the four-attempt retry loop of `createAccount`.
- **Configuration**:
  - `MagicConfig` (`lib/config.js`): lazily loaded process-wide data with
    `REST_BASE_URL` / `API_TESTING_CONFIG_FILE` / local-file precedence,
    `replace`, `set`, `reset` and the getters;
  - the config-file resolver in the root `config.js`.
- **The REST client** (`lib/REST.js`):
  - path prefixing;
  - verb dispatch that ignores letter case;
  - lower-casing of header names;
  - the JSON content-type default of `post`/`put`.

JavaScript values are a `Js.Value` datatype: `undefined`, `null`, booleans,
integers, strings, arrays and objects. Objects are `map<string, Value>`, and
truthiness, member access and object spread are written out.

Everything outside the code is an input:
- server replies (status and body);
- the HMAC;
- the clock;
- the environment and the file system (a map of existing files with their
  parsed JSON).

`Math.random` becomes a nondeterministic choice. Objects whose fields the
source updates in place are classes: `ActionApi.Client`,
`Config.MagicConfig` and `Rest.RESTClient`. Loops in the source are
methods with loop invariants, proved against specification functions:
- the `sig` key copy;
- `runAllJobs`;
- `prop`'s two loops;
- the `param_*` recording;
- the createAccount retries;
- `_objectKeysToLowerCase`;
- `uniq`.

Files:
- `wrappers.dfy`: Option/Result
- `js.dfy`: JS values
- `utils.dfy`
- `sorted_keys.dfy`: `Object.keys().sort()`
- `assoc.dfy`: filling an object key by key
- `page_titles.dfy`: `join`/`split` and `prop`
- `job_queue.dfy`
- `action_api.dfy`
- `config_file.dfy`
- `config.dfy`
- `rest.dfy`

## Model

| member | source | states |
|---|---|---|
| Js.Truthy | lib/actionapi.js:277 | objects and arrays are always truthy (only undefined, null, false, 0 and '' are falsy) |
| Js.Exists | lib/actionapi.js:291 | every truthy value exists, so assert.exists accepts whatever a truthiness test accepts |
| Js.Spread | lib/actionapi.js:284 | spreading an object copies exactly its fields; spreading anything else adds nothing |
| Js.Or | lib/actionapi.js:339 | a \|\| b is one of its operands, a when a is truthy, and truthy iff either operand is |
| Js.Lookup | lib/actionapi.js:341 | reading a property of a record is the member read on that object; a missing key reads as undefined |
| Utils.AlphabetIsAlphaNumeric | lib/utils.js:17 | uniq's alphabet has 62 characters, all ASCII letters or digits |
| Utils.Uniq | lib/utils.js:16-24 | uniq(n) has length n (0 when n <= 0) and every character comes from the alphabet |
| Utils.Title | lib/utils.js:32-34 | title(prefix) is the prefix followed by exactly ten alphabet characters |
| Utils.DbKey | lib/utils.js:53-55 | dbkey keeps the length and leaves no space |
| Utils.DbKeyAt | lib/utils.js:53-55 | each space becomes '_' and every other character is kept in place |
| Utils.DbKeyFixesSpaceFree | actionapi.js:45 | a title without spaces is its own DB key |
| Utils.DbKeyIdempotent | actionapi.js:45-52 | dbkey(dbkey(t)) == dbkey(t), so sameTitle compares DB keys stably |
| Utils.AddLeadingSlash | lib/utils.js:63-73 | the result starts with '/'; it is the path itself iff the path already starts with '/', else '/' + path |
| Utils.AddLeadingSlashIdempotent | lib/utils.js:63-73 | adding the leading slash twice is the same as once |
| Utils.TrimTrailingSlash | lib/utils.js:81-91 | at most one trailing slash is removed; the path is unchanged iff it is empty or does not end in '/' |
| Utils.NormalizePath | lib/utils.js:105-118 | the result is empty only for the path "/" without a suffix; otherwise it starts with '/' |
| Utils.NormalizePathShape | lib/utils.js:105-118 | an empty path gives "/" whatever the suffix; otherwise the result starts with '/' (or is empty for "/") and ends with the suffix |
| Utils.NormalizePathWithSuffix | lib/utils.js:105-118 | a non-empty path with a suffix is the normalised path followed by addLeadingSlash(suffix) |
| Utils.NormalizePathJoin | lib/utils.js:105-118 | a slash-free path and a suffix without a leading slash are joined as "/" + path + "/" + suffix |
| Utils.NormalizePathRoot | lib/utils.js:105-118 | "/" normalises to "", so normalisation is not idempotent; an empty path drops its suffix |
| SortedKeys.LessTransitive | actionapi.js:71 | sort()'s order, element by element with a proper prefix first (by code point here; see Left out), is transitive |
| SortedKeys.LessTotal | actionapi.js:71 | the order is total: distinct strings are comparable |
| SortedKeys.Insert | actionapi.js:71 | inserting into an ascending list keeps it ascending and adds exactly the new key |
| SortedKeys.SortKeys | actionapi.js:71 | Object.keys(params).sort() lists exactly the keys, strictly ascending |
| SortedKeys.AscendingUnique | actionapi.js:71 | two strictly ascending lists with the same elements are equal, so the sorted order is unique |
| Assoc.FromPairsKeys | lib/REST.js:82-85 | an object filled pair by pair has exactly the pairs' keys |
| Assoc.FromPairsLastWins | lib/REST.js:82-85 | a key holds the value of its last assignment |
| Assoc.FromPairsDistinct | lib/actionapi.js:185-187 | with distinct keys every pair's value is kept |
| PageTitles.Join | lib/actionapi.js:176-177 | join gives "" for no elements, the element for one, and otherwise starts with the first element and the separator |
| PageTitles.Split | lib/actionapi.js:176-177 | the reference inverse of join (the source only joins): at least one piece, and no piece contains the separator |
| PageTitles.JoinSplit | lib/actionapi.js:176-177 | joining the pieces of a split gives the string back |
| PageTitles.SplitJoin | lib/actionapi.js:176-177 | splitting a join gives the list back when no title contains '\|' |
| PageTitles.PropParams | lib/actionapi.js:175-179 | prop and titles default to the joined arguments, and the caller's params override them |
| PageTitles.Denormalize | lib/actionapi.js:195-197 | a title the server did not normalise is kept; a normalised one becomes one of the titles that were asked for |
| PageTitles.KeyPagesByTitle | lib/actionapi.js:181-202 | prop's two loops produce the object built from the de-normalised (title, page) pairs |
| PageTitles.DenormalizeSpec | actionapi.js:266-280 | a title that is not an own key of names (the server did not normalise it) is its own key; a normalised one maps back to the last title it came from |
| PageTitles.KeyPagesSpec | lib/actionapi.js:190-202 | prop's keys are exactly the de-normalised titles of the returned pages, each holding the last such page |
| JobQueue.MaxTime | actionapi.js:86 | maxtime is max(n*10, 60): at least both, and equal to one of them |
| JobQueue.MaxTimeExamples | actionapi.js:86 | 60 seconds for up to 6 jobs, 10 seconds per job above |
| JobQueue.SigExpiry | actionapi.js:90 | sigexpiry is one hour after now, rounded up to a whole second |
| JobQueue.JobParamsFields | actionapi.js:83-91 | runJobs' record holds exactly title, maxjobs, maxtime, async, stats, tasks and sigexpiry (no signature yet), with maxjobs n, maxtime MaxTime(n) and sigexpiry one hour ahead |
| JobQueue.CanonicalUnique | actionapi.js:69-76 | the sorted list that sig builds is determined by the parameters |
| JobQueue.CanonicalInjective | actionapi.js:69-80 | different parameter records give different signed lists, so every parameter reaches the HMAC |
| JobQueue.Sign | actionapi.js:69-80 | sig lists exactly the parameters in ascending key order and HMACs that list under the secret key |
| JobQueue.SignedJobRequestShape | actionapi.js:83-93 | a signed request is the parameter record plus a string signature |
| JobQueue.SignedListExcludesSignature | actionapi.js:93 | the signature is computed before it is added, so it is not signed |
| JobQueue.SignedJobRequestDeterministic | actionapi.js:63-93 | the same n, time, secret and HMAC give the same request |
| JobQueue.BuildRequest | actionapi.js:63-93 | an empty secret_key throws before any request; otherwise the request is the signed parameter record |
| JobQueue.NonEmpty | actionapi.js:106 | isNotEmpty only accepts truthy values, and for a string it is exactly truthiness |
| JobQueue.Outcome | actionapi.js:97-111 | 'none-ready' gives 0 and another defined reached with non-empty jobs gives 100, both iff; an undefined body, a null body, an undefined reached and empty jobs each fail with their own error, iff |
| JobQueue.RunJobs | actionapi.js:63-112 | no request without a secret key; otherwise one signed parameter record (posted to index.php; format=json and the extra parameters are added by Client.request, see Left out) whose reply decides the result |
| JobQueue.FirstStop | actionapi.js:123-132 | the index of the first reply that does not report more work |
| JobQueue.Verdict | actionapi.js:123-132 | the drain ends at the first reply that does not report more work: drained on 0, aborted with its error, still polling if there is none |
| JobQueue.RunAllJobs | actionapi.js:120-133 | runAllJobs makes FirstStop+1 signed runJobs(10) calls (all of them if none stops) and ends with the Verdict; an empty secret key aborts before any call |
| JobQueue.TwoCallDrain | actionapi.js:120-133 | one batch of work followed by 'none-ready' takes exactly two calls |
| ActionApi.RequestParams | lib/actionapi.js:86-98 | the request carries format=json and the extra parameters, with the caller's params overriding both |
| ActionApi.Request | lib/actionapi.js:83-102 | a truthy post gives a form POST, otherwise a GET, both with the same parameters and endpoint |
| ActionApi.ActionParams | lib/actionapi.js:117-120 | action=name unless the caller's params say otherwise |
| ActionApi.CheckReply | lib/actionapi.js:116-133 | a reply passes iff status 200, a body, and no truthy error or an allowed code; the body is the result |
| ActionApi.Allowed | lib/actionapi.js:125-128 | only a string error code can be allowed, and none is allowed by an empty list |
| ActionApi.Action | lib/actionapi.js:144-148 | action fails on any error stanza; it equals actionWithErrors with an empty allow-list |
| ActionApi.AllowListMonotone | lib/actionapi.js:125-128 | a larger allow-list never rejects a reply that a smaller one accepted |
| ActionApi.AllowedErrorPassesThrough | lib/actionapi.js:125-128 | an allowed error body is returned whole by actionWithErrors, but action rejects it |
| ActionApi.MetaParams | lib/actionapi.js:226-228 | the meta query is action=query and meta=name under the caller's params |
| ActionApi.MetaOf | lib/actionapi.js:226-232 | meta returns Ok(result.query[meta]) exactly when the action passes and result.query exists; an action failure propagates; a missing query is a TypeError |
| ActionApi.MergeTokens | lib/actionapi.js:284 | fresh tokens overwrite cached ones and the other cached tokens survive |
| ActionApi.LoginParams | lib/actionapi.js:303-311 | the login form holds exactly action, lgname, lgpassword and lgtoken |
| ActionApi.LoginOutcome | lib/actionapi.js:312-319 | login succeeds iff result.login exists with result 'Success', and returns that record |
| ActionApi.LoginReply | lib/actionapi.js:303-319 | the login reply passes iff the action passes and result.login.result is 'Success'; an action error propagates; the result is result.login |
| ActionApi.TokenName | lib/actionapi.js:276 | the cache key is the token type followed by 'token' |
| ActionApi.CacheHit | lib/actionapi.js:277 | a cache hit means the cache is an object holding a truthy entry for that key |
| ActionApi.FetchToken | lib/actionapi.js:275-293 | a truthy cached token is returned with no query and no cache change; otherwise a meta query for the type is sent, its error leaves the cache, and its tokens are merged in, after which the token must exist |
| ActionApi.FetchTokenCaches | lib/actionapi.js:275-293 | a fetched truthy token is cached: the next request for it sends no query and returns the same token |
| ActionApi.FetchTokenKeepsOthers | lib/actionapi.js:284 | fetching one token keeps every cached token the reply does not replace |
| ActionApi.GivenOrFetched | lib/actionapi.js:341 | a truthy params.token is used as it is, with no query and the cache untouched; otherwise the token step is FetchToken |
| ActionApi.EditParams | lib/actionapi.js:330-336 | title and summary 'testing' are defaults under the caller's params |
| ActionApi.ParamKeyInjective | lib/actionapi.js:349 | distinct parameter names give distinct param_ keys |
| ActionApi.Recorded | lib/actionapi.js:347-350 | the returned record has param_<k> = effective[k] for every parameter, param_user = the user unless a 'user' parameter overwrites it, every other field of result.edit unchanged, and no other key |
| ActionApi.RecordParams | lib/actionapi.js:347-350 | the forEach loop builds exactly Recorded(edit, user, effective) |
| ActionApi.LastResult | lib/actionapi.js:442-455 | result is the body of an attempt that did not throw and after which every attempt threw (the last non-throwing one), and is undefined iff every attempt threw |
| ActionApi.Accepted | lib/actionapi.js:447 | an accepted attempt had status 200 and a body holding a truthy createaccount field |
| ActionApi.CreateAccountLoop | lib/actionapi.js:441-455 | 1 to 4 attempts; it stops at the first accepted reply; only the last attempt may be accepted |
| ActionApi.CreateAccountOutcome | lib/actionapi.js:457-460 | the outcome is ok iff result.createaccount exists with status 'PASS', and returns that record |
| ActionApi.AttemptRequests | lib/actionapi.js:443-446 | each attempt sends the same createaccount action with the form |
| ActionApi.SubmitCreateAccount | lib/actionapi.js:441-460 | once the form is built: 1 to 4 attempts, each sending the createaccount form, every one but the last rejected, and the outcome of the last non-throwing attempt's body |
| ActionApi.CreateAccountFirstTry | lib/actionapi.js:444-460 | an accepted first attempt decides the outcome by its own status |
| ActionApi.CreateAccountAllThrow | lib/actionapi.js:444-457 | when all four attempts throw, reading result.createaccount is a TypeError |
| ActionApi.EditResult | lib/actionapi.js:343-353 | edit succeeds iff the action passes and result.edit.result is 'Success'; an action error propagates; the result is Recorded applied to result.edit, so the server's fields are kept |
| ActionApi.CreateAccountForm | lib/actionapi.js:436-446 | the form holds createtoken, retype (params.retype or else the password) and createreturnurl under the caller's params, and no other key |
| ActionApi.EditOutcome | lib/actionapi.js:343-353 | edit's last steps, with the forEach loop, compute EditResult |
| ActionApi.EffectiveParams | lib/actionapi.js:330-341 | the effective parameters satisfy EffectiveEdit (defaults under params, the caller's truthy text or generated 'Lorem ipsum ' text) and carry the given token |
| ActionApi.Client.constructor | lib/actionapi.js:26-36 | share the given client's session and user, or start a session as '<anon>' with id 0; there is no token cache yet (tokens undefined) |
| ActionApi.Client.Of | lib/actionapi.js:26-30 | given any agent object (a Client or a RESTClient), its req, username and userid are shared; the token cache starts undefined |
| ActionApi.Client.Token | lib/actionapi.js:275-293 | the query sent, the new cache and the result are exactly FetchToken of the old cache; the session and user do not change |
| ActionApi.Client.LoadTokens | lib/actionapi.js:262-266 | one meta query for the '\|'-joined types, whose reply replaces the cache |
| ActionApi.Client.Login | lib/actionapi.js:302-320 | the meta query (if the token was not cached) then the login form with the fetched or cached token are sent; a token error stops before the form; otherwise the result is LoginReply; on success the user name and id come from the reply and the cache is emptied; on failure the user is kept and the cache is the fetch's |
| ActionApi.Client.Edit | lib/actionapi.js:329-353 | the csrf meta query (on a cache miss) and then the edit form {action: 'edit', ...effective} are sent, the form only if the token is obtained; the effective parameters are the defaults, the caller's params, a generated text if falsy and the csrf token if the caller's is falsy; a token error propagates, and the result is EditResult of the reply |
| ActionApi.Client.GivenOrFetchedToken | lib/actionapi.js:341 | a truthy params.token is used with no query and no cache change; otherwise the query, the new cache and the token are exactly FetchToken(old cache, ttype) ('csrf' for edit, 'createaccount' for createAccount) |
| ActionApi.Client.CreateAccount | lib/actionapi.js:435-461 | the createaccount meta query (on a cache miss) and then one createaccount form per attempt are sent; the form is CreateAccountForm with the caller's token or else the fetched one; a token error propagates with no attempt; otherwise 1 to 4 attempts, stopping at the first accepted one, and the outcome of the last non-throwing attempt's body |
| ConfigFile.Resolve | config.js:3-28 | the result is one of the five candidates and exists, except the last-resort configs/default.json; only a set variable naming no existing file fails |
| ConfigFile.ResolvePrecedence | config.js:9-25 | the literal path, then configs/<name>; with the variable unset, local.json, then configs/local.json, then configs/default.json |
| Config.Key | lib/config.js:31-53 | every getter reads a key of defaultConfig |
| Config.KeyInjective | lib/config.js:31-53 | distinct getters read distinct keys |
| Config.Locate | lib/config.js:90-124 | REST_BASE_URL wins; then API_TESTING_CONFIG_FILE, literal or under configs/; then .api-testing.config.json; missing files fail |
| Config.LocateAgreesWithResolve | lib/config.js:109-116 | with a config-file variable, init picks the same file as config.js or fails the same way |
| Config.Overlay | lib/config.js:71-74 | {...defaultConfig, ...cfg}: every default key is present and cfg's values win |
| Config.OverlayEmpty | lib/config.js:190-192 | overlaying {} gives the defaults, and overlaying is idempotent |
| Config.Loaded | lib/config.js:90-124 | init loads exactly {base_uri} under REST_BASE_URL, otherwise the located file over the defaults (every default key present); it fails iff Locate fails, with Locate's error |
| Config.BaseUrlHasNoDefaults | lib/config.js:103-108 | under REST_BASE_URL the base_uri getter reads the URL and every other getter reads undefined |
| Config.MagicConfig.constructor | lib/config.js:27-29 | data is null and baseDir is the working directory |
| Config.MagicConfig.Load | lib/config.js:67-77 | the required file's contents over the defaults become the data; a missing module throws |
| Config.MagicConfig.Init | lib/config.js:90-127 | known data is returned without lookup; with data null the result is Loaded, which becomes the data on success, and a failed lookup leaves data null |
| Config.MagicConfig.Get | lib/config.js:31-53 | each getter returns init()[key]: the known data's key with no lookup, otherwise Loaded's key, with data set to what was loaded or left null on failure |
| Config.MagicConfig.Replace | lib/config.js:138-143 | the data becomes the defaults overlaid by cfg |
| Config.MagicConfig.Dummy | lib/config.js:190-192 | the data becomes exactly the defaults |
| Config.MagicConfig.Set | lib/config.js:154-159 | one key is set, on the defaults when data was null |
| Config.MagicConfig.Reset | lib/config.js:168-170 | the data becomes null, so the next getter looks the configuration up again |
| Config.MagicConfig.SetBaseDir | lib/config.js:180-182 | baseDir changes and the data is untouched |
| Config.SetThenGet | lib/config.js:154-159 | after set(key, v) the getter for key returns v with no lookup, and every other key keeps its value from the data (or the defaults when data was null) |
| Config.InitTwice | lib/config.js:90-93 | once init succeeds, a second init returns the same data |
| Rest.Upper | lib/REST.js:53 | toUpperCase keeps the length, leaves no lower-case letter, maps each lower-case letter to its upper-case letter and keeps every other character |
| Rest.Lower | lib/REST.js:83 | toLowerCase keeps the length, leaves no upper-case letter, maps each upper-case letter to its lower-case letter and keeps every other character |
| Rest.CaseRoundTrip | lib/REST.js:53-83 | lower-casing after upper-casing is lower-casing alone, and the other way round |
| Rest.ParseVerb | lib/REST.js:53-75 | a method is one of GET/POST/PUT/DELETE exactly when its upper-case form names it |
| Rest.ParseVerbNames | lib/REST.js:53-75 | GET, POST, PUT and DELETE parse to their verbs, and every verb's name parses back to it |
| Rest.ParseVerbCaseInsensitive | lib/REST.js:53 | methods equal up to case select the same verb |
| Rest.ParseVerbExamples | lib/REST.js:53-75 | 'get', 'Post', 'put' and 'delete' are accepted; 'PATCH' and 'del' are unsupported |
| Rest.ObjectKeysToLowerCase | lib/REST.js:81-86 | the reduce builds the record of the headers under lower-cased names, in enumeration order |
| Rest.LowerCaseKeysSpec | lib/REST.js:81-86 | every key is lower-case and comes from a header; each header is kept unless a later one has the same name up to case |
| Rest.WithJsonDefault | lib/REST.js:112 | content-type defaults to application/json and every caller header is kept over it |
| Rest.ContentTypeRule | lib/REST.js:110-127 | post/put send application/json unless the caller names content-type in any case; then the last such header wins |
| Rest.RESTClient.constructor | lib/REST.js:23-34 | the path prefix is the endpoint; a given client's session and user are shared, otherwise '<anon>' with id 0 |
| Rest.RESTClient.Sharing | lib/REST.js:23-28 | built from another RESTClient, it shares that client's session and user |
| Rest.ActionClientOf | lib/clientFactory.js:33-35 | getActionClient(restClient) is a fresh action client sharing the REST client's session and user, with no token cache |
| Rest.RESTClient.Request | lib/REST.js:50-79 | the path is normalizePath(prefix, endpoint); GET/DELETE send a query and POST/PUT a body; any other method throws |
| Rest.RESTClient.Get | lib/REST.js:97-99 | a GET whose query holds the params, with the headers unchanged |
| Rest.RESTClient.Del | lib/REST.js:138-140 | a DELETE whose query holds the params, with the headers unchanged |
| Rest.RESTClient.Post | lib/REST.js:110-113 | a POST to the normalised path whose body holds the params, with lower-cased headers over a JSON content type |
| Rest.RESTClient.Put | lib/REST.js:124-127 | a PUT to the normalised path whose body holds the params, with lower-cased headers over a JSON content type |
| Rest.DefaultPrefixPath | lib/REST.js:23 | with the default prefix rest.php/v1, an endpoint without a leading slash maps to /rest.php/v1/<endpoint> |

## Left out

- Network I/O, supertest agents and cookie jars:
  - an agent is an opaque `ActionApi.Agent` object;
  - replies are inputs.
- `wiki.agent()` (`lib/wiki.js`) becomes a constructor parameter, and so
  does `supertest.agent(config.base_uri)`. `lib/wiki.js` is not part of
  this model.
- ActionApi.Client.Edit: the trailing `await wiki.runAllJobs()` is not
  modelled, because `lib/wiki.js` is not part of this model.
- The root `actionapi.js` Client's `edit` and `createAccount` differ from
  `lib/actionapi.js`:
  - its edit records only param_text, param_summary and param_user;
  - its createAccount makes a single attempt.

  Only the `lib/actionapi.js` versions are modelled. Its constructor is the
  no-agent case of `ActionApi.Client.constructor`, and its `action` is
  `ActionApi.Action`.
- `account`, `upload`, `list`, `actionError`, `getRevision`, `getLogEntry`,
  `getChangeEntry`, `getHtml`, `addGroups` and `sleep` are outside the
  modelled core.
- `meta`'s `field` argument: the query key is always the meta name.
- The decoding of prop's JSON reply into `Normalization` and `PageEntry`
  lists: `query.normalized` and `query.pages` (in enumeration order) are
  inputs.
- Object spread of strings and arrays (their index keys): spread of a
  non-object gives `{}`.
- JS numbers are integers; floating point is not modelled.
- `Math.ceil(Date.now()/1000 + 3600)` is modelled over integer
  milliseconds.
- HMAC-SHA1 and `querystring.stringify` are one opaque function of the
  secret and the sorted (key, value) list.
- JobQueue.RunJobs: the code checks neither `response.status` nor whether
  `secret_key` is undefined. A non-200 reply is therefore judged by its
  body alone, and only `secret_key == ''` raises the configuration error.
  The model follows the code here.
- JobQueue.RunAllJobs:
  - the replies are a finite script, so a drain that never ends is
    reported as `StillPolling` when the script runs out;
  - `Date.now()` for each call is `clock(i)`.
- chai's loose `assert.equal` is modelled as strict equality on the
  compared values.
- PageTitles.KeyPagesByTitle: `names` holds its own keys only. JavaScript's
  `title in names` (lib/actionapi.js:195, actionapi.js:277) also finds the
  names every object inherits from Object.prototype (`constructor`,
  `toString`, `valueOf`, `hasOwnProperty`, ...). An unnormalised page with
  such a title is keyed in JavaScript by the string of the inherited
  function, while the model keys it by its title. Assignments to
  `__proto__` in either loop are not modelled either.
- PageTitles.DenormalizeSpec: "a title the server did not normalise is its
  own key" holds for titles that are not Object.prototype property names;
  see PageTitles.KeyPagesByTitle.
- PageTitles.KeyPagesSpec: the same restriction to own keys applies.
- SortedKeys.SortKeys: the order compares characters by code point, while
  JavaScript's default sort compares UTF-16 code units. The two agree on
  strings within the Basic Multilingual Plane, which covers every key
  runJobs signs.
- JobQueue.RunJobs: `sent` is the signed parameter record. The request
  itself is made by `Client.request` (actionapi.js:202-221), outside the
  signature: it is a form POST to `index.php` and adds `format=json` and
  the configured `extra_parameters`. That request is not part of `sent`.
- Rest.Upper and Rest.Lower map ASCII letters only. JavaScript's full
  Unicode case mapping (for example 'ſ'.toUpperCase() == 'S') is not
  modelled.
- Rest.RESTClient.Post and Rest.RESTClient.Put take the caller's headers
  as a (name, value) list in enumeration order, which decides which of two
  names equal up to case wins.
- Config.MagicConfig.Load:
  - `require`'s module cache and relative-path resolution are not
    modelled; the file system is a map from existing paths to parsed JSON;
  - the console log is left out.
- Config.MagicConfig.Init: after a file load, `init()` returns the
  MagicConfig proxy itself rather than the data. The model returns the
  data, which every getter then reads the same way.
- Config.MagicConfig.Get: `process.env` is an explicit map parameter.
- ActionApi.Client.CreateAccount:
  - the `console.log` and one-second sleep after a failed attempt are left
    out;
  - `baseUri` is the configuration's `base_uri`, passed in.
- ConfigFile.Resolve: `baseDir` defaults to `__dirname` (config.js:3);
  here it is always passed, because a module's own directory is a fact of
  the file system, which the model takes as a parameter.
- Rest.ObjectKeysToLowerCase: a header whose lower-cased name is
  `__proto__` sets the prototype of the `{}` accumulator in JavaScript
  (lib/REST.js:83) rather than adding an own key; the model stores it
  as an ordinary key.
