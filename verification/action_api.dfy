/**
 * The action-API Client of lib/actionapi.js (the older Client in the root
 * actionapi.js has the same request, action, prop, token and login code,
 * without the allow-list and the agent argument). A Client is an HTTP
 * session plus the user it is logged in as and a token cache. The server's
 * replies are inputs of the methods that would await them; for each method
 * the parameter records it hands to `action` are outputs.
 */
module ActionApi {
  import opened Wrappers
  import opened Js
  import Utils
  import PageTitles

  /** A supertest agent: one HTTP session with its own cookie jar. Only its identity matters here. */
  class Agent {
    constructor () {
    }
  }

  const AnonName := "<anon>"
  const Success := "Success"
  const Pass := "PASS"
  const DefaultSummary := "testing"
  const LoremIpsum := "Lorem ipsum "
  const CreateAccountAttempts := 4

  /** A request as handed to the agent: a GET with a query string, or a form POST. */
  datatype HttpRequest =
    | Get(endpoint: string, query: Object)
    | PostForm(endpoint: string, form: Object)

  datatype Response = Response(status: int, body: Value)

  /** Why an action call fails: one of chai's assertions, or a property read of undefined. */
  datatype ActionError =
    | BadStatus(status: int)   // the status is not 200
    | MissingBody              // the body is null or undefined
    | ErrorCode(code: Value)   // the body carries an error whose code is not allowed
    | TypeError                // a property read of null or undefined
    | AssertionFailed          // a reply field lacks the expected value

  /** `{format: 'json', ...config.extra_parameters, ...params}`. */
  function RequestParams(extra: Value, params: Object): (r: Object)
    ensures forall k :: k in r <==> k == "format" || k in Spread(extra) || k in params
    ensures forall k :: k in params ==> r[k] == params[k]
    ensures forall k :: k in Spread(extra) && k !in params ==> r[k] == Spread(extra)[k]
    ensures "format" !in params && "format" !in Spread(extra) ==> r["format"] == Str("json")
  {
    map["format" := Str("json")] + Spread(extra) + params
  }

  /** `request(params, post, endpoint)`: a form POST when `post` is truthy, otherwise a GET. */
  function Request(extra: Value, params: Object, post: Value, endpoint: string): (r: HttpRequest)
    ensures r.endpoint == endpoint
    ensures r.PostForm? <==> Truthy(post)
    ensures r.PostForm? ==> r.form == RequestParams(extra, params)
    ensures r.Get? ==> r.query == RequestParams(extra, params)
  {
    if Truthy(post) then PostForm(endpoint, RequestParams(extra, params))
    else Get(endpoint, RequestParams(extra, params))
  }

  /** `{action: actionName, ...params}`. */
  function ActionParams(name: string, params: Object): (r: Object)
    ensures forall k :: k in r <==> k == "action" || k in params
    ensures forall k :: k in params ==> r[k] == params[k]
    ensures "action" !in params ==> r["action"] == Str(name)
  {
    map["action" := Str(name)] + params
  }

  /** A code passes the allow-list when it is one of the listed strings (`includes`). */
  predicate Allowed(code: Value, allowErrors: seq<string>)
    ensures Allowed(code, allowErrors) ==> code.Str?
    ensures allowErrors == [] ==> !Allowed(code, allowErrors)
  {
    code.Str? && code.s in allowErrors
  }

  /**
   * `actionWithErrors`, after the reply: status 200, a body, and either no
   * error stanza or one whose code is allowed. The body is the result.
   */
  function CheckReply(resp: Response, allowErrors: seq<string>): (r: Result<Value, ActionError>)
    ensures resp.status != 200 ==> r == Err(BadStatus(resp.status))
    ensures resp.status == 200 && !Exists(resp.body) ==> r == Err(MissingBody)
    ensures r.Ok? ==> r.value == resp.body
    ensures r.Ok? <==>
      && resp.status == 200
      && Exists(resp.body)
      && (!Truthy(Member(resp.body, "error")) || Allowed(Member(Member(resp.body, "error"), "code"), allowErrors))
  {
    if resp.status != 200 then Err(BadStatus(resp.status))
    else if !Exists(resp.body) then Err(MissingBody)
    else
      var error := Member(resp.body, "error");
      if Truthy(error) && !Allowed(Member(error, "code"), allowErrors) then Err(ErrorCode(Member(error, "code")))
      else Ok(resp.body)
  }

  /** `action`: the same check with an empty allow-list, so any error stanza fails. */
  function Action(resp: Response): (r: Result<Value, ActionError>)
    ensures r.Ok? ==> r.value == resp.body && Exists(resp.body) && !Truthy(Member(resp.body, "error"))
    ensures r == CheckReply(resp, [])
  {
    CheckReply(resp, [])
  }

  /** Allowing more error codes never turns an accepted reply into a failure. */
  lemma AllowListMonotone(resp: Response, allow: seq<string>, more: seq<string>)
    requires forall c :: c in allow ==> c in more
    requires CheckReply(resp, allow).Ok?
    ensures CheckReply(resp, more) == CheckReply(resp, allow)
  {
  }

  /** An error whose code is listed is handed back as the body, stanza included. */
  lemma AllowedErrorPassesThrough(resp: Response, allow: seq<string>)
    requires resp.status == 200 && resp.body.Obj? && "error" in resp.body.fields
    requires Truthy(resp.body.fields["error"])
    requires Allowed(Member(resp.body.fields["error"], "code"), allow)
    ensures CheckReply(resp, allow) == Ok(resp.body)
    ensures Action(resp) == Err(ErrorCode(Member(resp.body.fields["error"], "code")))
  {
  }

  /** `meta(meta, params)`: the request parameters of a meta query. */
  function MetaParams(meta: string, params: Object): (r: Object)
    ensures forall k :: k in r <==> k == "action" || k == "meta" || k in params
    ensures forall k :: k in params ==> r[k] == params[k]
    ensures "action" !in params ==> r["action"] == Str("query")
    ensures "meta" !in params ==> r["meta"] == Str(meta)
  {
    ActionParams("query", map["meta" := Str(meta)] + params)
  }

  /** `meta`, after the reply: `result.query[meta]`, a TypeError when the body has no query. */
  function MetaOf(resp: Response, meta: string): (r: Result<Value, ActionError>)
    ensures Action(resp).Err? ==> r == Action(resp)
    ensures Action(resp).Ok? && !Exists(Member(resp.body, "query")) ==> r == Err(TypeError)
    ensures r.Ok? ==> Action(resp).Ok? && r.value == Member(Member(resp.body, "query"), meta)
    ensures Action(resp).Ok? && Exists(Member(resp.body, "query")) ==>
      r == Ok(Member(Member(resp.body, "query"), meta))
  {
    match Action(resp)
    case Err(e) => Err(e)
    case Ok(body) =>
      var query := Member(body, "query");
      if Exists(query) then Ok(Member(query, meta)) else Err(TypeError)
  }

  /** `${ttype}token`. */
  function TokenName(ttype: string): (r: string)
    ensures |r| == |ttype| + 5 && r[..|ttype|] == ttype && r[|ttype|..] == "token"
  {
    ttype + "token"
  }

  /** `this.tokens && this.tokens[tname]`: the cached token is there and truthy. */
  predicate CacheHit(tokens: Value, tname: string)
    ensures CacheHit(tokens, tname) ==> tokens.Obj? && tname in tokens.fields && Truthy(tokens.fields[tname])
  {
    Truthy(tokens) && Truthy(Member(tokens, tname))
  }

  /** `{...this.tokens, ...newTokens}`: the fresh tokens overwrite, the others survive. */
  function MergeTokens(cache: Value, incoming: Value): (r: Object)
    ensures forall k :: k in r <==> k in Spread(cache) || k in Spread(incoming)
    ensures forall k :: k in Spread(incoming) ==> r[k] == Spread(incoming)[k]
    ensures forall k :: k in Spread(cache) && k !in Spread(incoming) ==> r[k] == Spread(cache)[k]
  {
    Spread(cache) + Spread(incoming)
  }

  /** The login form: `{action: 'login', lgname, lgpassword, lgtoken}`. */
  function LoginParams(name: string, password: string, token: Value): (r: Object)
    ensures r.Keys == {"action", "lgname", "lgpassword", "lgtoken"}
    ensures r["lgname"] == Str(name) && r["lgpassword"] == Str(password) && r["lgtoken"] == token
  {
    ActionParams("login", map["lgname" := Str(name), "lgpassword" := Str(password), "lgtoken" := token])
  }

  /** The reply to `login`, after the action check: `result.login`, whose result must be 'Success'. */
  function LoginOutcome(body: Value): (r: Result<Value, ActionError>)
    requires Exists(body)
    ensures !Exists(Member(body, "login")) ==> r == Err(TypeError)
    ensures r.Ok? <==> Exists(Member(body, "login")) && Member(Member(body, "login"), "result") == Str(Success)
    ensures r.Ok? ==> r.value == Member(body, "login") && r.value.Obj?
  {
    var login := Member(body, "login");
    if !Exists(login) then Err(TypeError)
    else if Member(login, "result") != Str(Success) then Err(AssertionFailed)
    else Ok(login)
  }

  /** `login`'s reply, through the action check and then `LoginOutcome`. */
  function LoginReply(reply: Response): (r: Result<Value, ActionError>)
    ensures Action(reply).Err? ==> r == Action(reply)
    ensures r.Ok? <==>
      && Action(reply).Ok?
      && Exists(Member(reply.body, "login"))
      && Member(Member(reply.body, "login"), "result") == Str(Success)
    ensures r.Ok? ==> r.value == Member(reply.body, "login") && r.value.Obj?
  {
    match Action(reply)
    case Err(e) => Err(e)
    case Ok(body) => LoginOutcome(body)
  }

  /**
   * What `token(ttype)` does: the meta query it sends (none on a cache hit),
   * the token cache afterwards, and the token or the error.
   */
  datatype TokenFetch = TokenFetch(query: Option<Object>, cache: Value, token: Result<Value, ActionError>)

  /** `token(ttype)` on a cache, with the reply its meta query would get. */
  function FetchToken(cache: Value, ttype: string, reply: Response): (f: TokenFetch)
    ensures CacheHit(cache, TokenName(ttype)) ==>
      f == TokenFetch(None, cache, Ok(Member(cache, TokenName(ttype))))
    ensures !CacheHit(cache, TokenName(ttype)) ==>
      f.query == Some(MetaParams("tokens", map["type" := Str(ttype)]))
    ensures !CacheHit(cache, TokenName(ttype)) && MetaOf(reply, "tokens").Err? ==>
      f.cache == cache && f.token == MetaOf(reply, "tokens")
    ensures !CacheHit(cache, TokenName(ttype)) && MetaOf(reply, "tokens").Ok? ==>
      && f.cache == Obj(MergeTokens(cache, MetaOf(reply, "tokens").value))
      && (f.token.Ok? <==> Exists(Member(f.cache, TokenName(ttype))))
      && (f.token.Err? ==> f.token.error == AssertionFailed)
    ensures f.token.Ok? ==> Exists(f.token.value) && f.token.value == Member(f.cache, TokenName(ttype))
  {
    var tname := TokenName(ttype);
    if CacheHit(cache, tname) then TokenFetch(None, cache, Ok(Member(cache, tname)))
    else
      var query := Some(MetaParams("tokens", map["type" := Str(ttype)]));
      match MetaOf(reply, "tokens")
      case Err(e) => TokenFetch(query, cache, Err(e))
      case Ok(incoming) =>
        var merged := Obj(MergeTokens(cache, incoming));
        if Exists(Member(merged, tname)) then TokenFetch(query, merged, Ok(Member(merged, tname)))
        else TokenFetch(query, merged, Err(AssertionFailed))
  }


  /**
   * `params.token || await this.token(ttype)`: a truthy token among the
   * caller's parameters is used as it is, with no query and the cache
   * untouched; otherwise `token(ttype)` runs.
   */
  function GivenOrFetched(params: Object, cache: Value, ttype: string, reply: Response): (f: TokenFetch)
    ensures Truthy(Lookup(params, "token")) ==> f == TokenFetch(None, cache, Ok(params["token"]))
    ensures !Truthy(Lookup(params, "token")) ==> f == FetchToken(cache, ttype, reply)
  {
    if Truthy(Lookup(params, "token")) then TokenFetch(None, cache, Ok(params["token"]))
    else FetchToken(cache, ttype, reply)
  }

  /** The meta query a token step sends, as a list of requests: empty when none is sent. */
  function QuerySent(query: Option<Object>): (r: seq<Object>)
    ensures query.None? ==> r == []
    ensures query.Some? ==> r == [query.value]
  {
    if query.Some? then [query.value] else []
  }

  /**
   * A truthy token that was fetched is cached: asking for it again sends no
   * query, whatever the reply, and returns the same token.
   */
  lemma FetchTokenCaches(cache: Value, ttype: string, reply: Response, again: Response)
    requires FetchToken(cache, ttype, reply).token.Ok?
    requires Truthy(FetchToken(cache, ttype, reply).token.value)
    ensures var f := FetchToken(cache, ttype, reply);
      FetchToken(f.cache, ttype, again) == TokenFetch(None, f.cache, f.token)
  {
  }

  /** Fetching one token type keeps every cached token of another type. */
  lemma FetchTokenKeepsOthers(cache: Value, ttype: string, reply: Response, k: string)
    requires k in Spread(cache)
    requires MetaOf(reply, "tokens").Ok? ==> k !in Spread(MetaOf(reply, "tokens").value)
    ensures Member(FetchToken(cache, ttype, reply).cache, k) == Spread(cache)[k]
  {
  }

  /** `{title: pageTitle, summary: 'testing', ...params}`. */
  function EditParams(pageTitle: string, params: Object): (r: Object)
    ensures forall k :: k in r <==> k == "title" || k == "summary" || k in params
    ensures forall k :: k in params ==> r[k] == params[k]
    ensures "title" !in params ==> r["title"] == Str(pageTitle)
    ensures "summary" !in params ==> r["summary"] == Str(DefaultSummary)
  {
    map["title" := Str(pageTitle), "summary" := Str(DefaultSummary)] + params
  }

  /** The generated default text: 'Lorem ipsum ' and ten alphabet characters. */
  predicate IsDefaultText(s: string) {
    && |s| == |LoremIpsum| + Utils.UniqLength
    && s[..|LoremIpsum|] == LoremIpsum
    && forall i :: |LoremIpsum| <= i < |s| ==> s[i] in Utils.Alphabet
  }

  /** `param_${name}`. */
  function ParamKey(name: string): (k: string)
    ensures |k| == |name| + 6 && k[..6] == "param_" && k[6..] == name
  {
    "param_" + name
  }

  lemma ParamKeyInjective(a: string, b: string)
    requires ParamKey(a) == ParamKey(b)
    ensures a == b
  {
    assert a == ParamKey(a)[6..];
  }

  /** The key records a parameter of `effective`, or the user. */
  predicate IsRecordKey(k: string, effective: Object) {
    k == ParamKey("user") || (|k| >= 6 && k[..6] == "param_" && k[6..] in effective)
  }

  /** A key of the form `param_<name>`, and the name it records. */
  predicate IsParamKey(k: string) {
    |k| >= 6 && k[..6] == "param_"
  }

  lemma ParamKeySplit(k: string)
    requires IsParamKey(k)
    ensures k == ParamKey(k[6..])
  {
    assert k == k[..6] + k[6..];
  }

  /** The `param_<k>` entries for the parameters named in `done`. */
  function ParamEntries(effective: Object, done: set<string>): (r: Object)
    requires done <= effective.Keys
    ensures forall k :: k in r <==> IsParamKey(k) && k[6..] in done
    ensures forall k :: k in r ==> IsParamKey(k) && k[6..] in done && r[k] == effective[k[6..]]
  {
    assert forall a, b :: ParamKey(a) == ParamKey(b) ==> a == b by {
      forall a, b | ParamKey(a) == ParamKey(b) ensures a == b {
        ParamKeyInjective(a, b);
      }
    }
    var r := map k | k in done :: ParamKey(k) := effective[k];
    assert forall k :: IsParamKey(k) && k[6..] in done ==> k in r by {
      forall k | IsParamKey(k) && k[6..] in done ensures k in r {
        ParamKeySplit(k);
      }
    }
    r
  }

  /** One more parameter recorded. */
  lemma ParamEntriesAdd(effective: Object, done: set<string>, name: string)
    requires done <= effective.Keys && name in effective && name !in done
    ensures ParamEntries(effective, done + {name}) == ParamEntries(effective, done)[ParamKey(name) := effective[name]]
  {
    var a := ParamEntries(effective, done + {name});
    var b := ParamEntries(effective, done)[ParamKey(name) := effective[name]];
    forall k ensures k in a <==> k in b {
      if IsParamKey(k) {
        ParamKeySplit(k);
      }
    }
    forall k | k in a ensures a[k] == b[k] {
      ParamKeySplit(k);
    }
  }

  /**
   * The record `edit` returns: reply.edit with `param_user` set to the user
   * and then `param_<k>` set for every effective parameter k. A parameter
   * named `user` overwrites param_user; every field of reply.edit that is
   * not a record key is kept.
   */
  function Recorded(edit: Object, user: Value, effective: Object): (r: Object)
    ensures forall k :: k in effective ==> ParamKey(k) in r && r[ParamKey(k)] == effective[k]
    ensures ParamKey("user") in r && ("user" !in effective ==> r[ParamKey("user")] == user)
    ensures forall k :: k in edit && !IsRecordKey(k, effective) ==> k in r && r[k] == edit[k]
    ensures forall k :: k in r <==> k in edit || IsRecordKey(k, effective)
  {
    var r := edit[ParamKey("user") := user] + ParamEntries(effective, effective.Keys);
    assert forall k :: IsRecordKey(k, effective) ==> k in r by {
      forall k | IsRecordKey(k, effective) ensures k in r {
        if k != ParamKey("user") {
          assert k == ParamKey(k[6..]);
        }
      }
    }
    assert "user" !in effective ==> ParamKey("user") !in ParamEntries(effective, effective.Keys);
    r
  }

  /** One step of the forEach: recording one more parameter on the partial record. */
  lemma RecordStep(edit: Object, user: Value, effective: Object, rest: set<string>, name: string)
    requires rest <= effective.Keys && name in rest
    ensures (edit[ParamKey("user") := user] + ParamEntries(effective, effective.Keys - rest))[ParamKey(name) := effective[name]]
         == edit[ParamKey("user") := user] + ParamEntries(effective, effective.Keys - (rest - {name}))
  {
    assert effective.Keys - rest + {name} == effective.Keys - (rest - {name});
    ParamEntriesAdd(effective, effective.Keys - rest, name);
  }

  /**
   * The `forEach` at the end of `edit`: `result.edit.param_user = this.username`,
   * then `param_<k>` for every effective parameter k, in key order.
   */
  method RecordParams(edit: Object, user: Value, effective: Object) returns (r: Object)
    ensures r == Recorded(edit, user, effective)
  {
    r := edit[ParamKey("user") := user];
    var rest := effective.Keys;
    assert effective.Keys - rest == {};
    while rest != {}
      invariant rest <= effective.Keys
      invariant r == edit[ParamKey("user") := user] + ParamEntries(effective, effective.Keys - rest)
      decreases rest
    {
      var name :| name in rest;
      RecordStep(edit, user, effective, rest, name);
      r := r[ParamKey(name) := effective[name]];
      rest := rest - {name};
    }
    assert effective.Keys - rest == effective.Keys;
  }

  /** Whether the createaccount loop stops after this reply: it passed `action` and carries `createaccount`. */
  predicate Accepted(resp: Response)
    ensures Accepted(resp) ==>
      && resp.status == 200
      && resp.body.Obj?
      && "createaccount" in resp.body.fields
      && Truthy(resp.body.fields["createaccount"])
  {
    Action(resp).Ok? && Truthy(resp.body) && Truthy(Member(resp.body, "createaccount"))
  }

  /**
   * The value of `result` after the first n attempts: the body of the last
   * attempt that did not throw (an attempt that throws leaves it unchanged).
   */
  function LastResult(replies: nat -> Response, n: nat): (r: Option<Value>)
    ensures r.Some? ==> exists i :: 0 <= i < n && Action(replies(i)) == Ok(r.value) &&
                                 (forall j :: i < j < n ==> Action(replies(j)).Err?)
    ensures r.None? <==> forall i :: 0 <= i < n ==> Action(replies(i)).Err?
  {
    if n == 0 then None
    else if Action(replies(n - 1)).Ok? then Some(replies(n - 1).body)
    else LastResult(replies, n - 1)
  }

  /**
   * The retry loop of `createAccount`: up to four attempts, stopping at the
   * first accepted one; attempt i gets reply i.
   */
  method CreateAccountLoop(replies: nat -> Response) returns (attempts: nat, result: Option<Value>)
    ensures 1 <= attempts <= CreateAccountAttempts
    ensures forall i :: 0 <= i < attempts - 1 ==> !Accepted(replies(i))
    ensures Accepted(replies(attempts - 1)) || attempts == CreateAccountAttempts
    ensures result == LastResult(replies, attempts)
  {
    attempts := 0;
    result := None;
    while attempts < CreateAccountAttempts
      invariant attempts <= CreateAccountAttempts
      invariant forall i :: 0 <= i < attempts ==> !Accepted(replies(i))
      invariant result == LastResult(replies, attempts)
    {
      var reply := Action(replies(attempts));
      attempts := attempts + 1;
      if reply.Ok? {
        result := Some(reply.value);
        if Truthy(reply.value) && Truthy(Member(reply.value, "createaccount")) {
          return;
        }
      }
    }
  }

  /** The requests of the retry loop: the same createaccount action, once per attempt. */
  function AttemptRequests(form: Object, attempts: nat): (r: seq<Object>)
    ensures |r| == attempts
    ensures forall i :: 0 <= i < attempts ==> r[i] == ActionParams("createaccount", form)
  {
    seq(attempts, _ => ActionParams("createaccount", form))
  }

  /** After the loop: `result.createaccount.status` must be 'PASS'; the createaccount record is the result. */
  function CreateAccountOutcome(result: Option<Value>): (r: Result<Value, ActionError>)
    ensures result.None? ==> r == Err(TypeError)
    ensures r.Ok? <==>
      && result.Some? && Exists(result.value)
      && Exists(Member(result.value, "createaccount"))
      && Member(Member(result.value, "createaccount"), "status") == Str(Pass)
    ensures r.Ok? ==> r.value == Member(result.value, "createaccount")
  {
    if result.None? || !Exists(result.value) then Err(TypeError)
    else
      var account := Member(result.value, "createaccount");
      if !Exists(account) then Err(TypeError)
      else if Member(account, "status") != Str(Pass) then Err(AssertionFailed)
      else Ok(account)
  }

  /**
   * What the retry loop leaves behind: 1 to 4 attempts, every attempt but
   * the last rejected, the last one accepted or the fourth, and the outcome
   * read from the body of the last attempt that did not throw.
   */
  ghost predicate Retried(replies: nat -> Response, attempts: nat, r: Result<Value, ActionError>) {
    && 1 <= attempts <= CreateAccountAttempts
    && (forall i :: 0 <= i < attempts - 1 ==> !Accepted(replies(i)))
    && (Accepted(replies(attempts - 1)) || attempts == CreateAccountAttempts)
    && r == CreateAccountOutcome(LastResult(replies, attempts))
  }

  /**
   * The retry loop and the status check of `createAccount` once the form is
   * built: the requests it sends, how many attempts it makes, and the outcome.
   */
  method SubmitCreateAccount(form: Object, replies: nat -> Response)
    returns (sent: seq<Object>, attempts: nat, r: Result<Value, ActionError>)
    ensures 1 <= attempts <= CreateAccountAttempts
    ensures sent == AttemptRequests(form, attempts)
    ensures forall i :: 0 <= i < attempts - 1 ==> !Accepted(replies(i))
    ensures Accepted(replies(attempts - 1)) || attempts == CreateAccountAttempts
    ensures r == CreateAccountOutcome(LastResult(replies, attempts))
    ensures Retried(replies, attempts, r)
  {
    var result;
    attempts, result := CreateAccountLoop(replies);
    sent := AttemptRequests(form, attempts);
    r := CreateAccountOutcome(result);
  }

  /** A first attempt that is accepted and passes ends the loop at once with that account. */
  lemma CreateAccountFirstTry(replies: nat -> Response)
    requires Accepted(replies(0))
    ensures LastResult(replies, 1) == Some(replies(0).body)
    ensures CreateAccountOutcome(LastResult(replies, 1)) ==
      (if Member(Member(replies(0).body, "createaccount"), "status") == Str(Pass)
       then Ok(Member(replies(0).body, "createaccount")) else Err(AssertionFailed))
  {
  }

  /** When every attempt throws, `result` stays undefined and reading `createaccount` of it fails. */
  lemma CreateAccountAllThrow(replies: nat -> Response)
    requires forall i :: 0 <= i < CreateAccountAttempts ==> Action(replies(i)).Err?
    ensures CreateAccountOutcome(LastResult(replies, CreateAccountAttempts)) == Err(TypeError)
  {
  }

  /**
   * The effective edit parameters: title and summary defaults under the
   * caller's params, a text that is the caller's if truthy and generated
   * otherwise, and a token that is the caller's if truthy.
   */
  ghost predicate EffectiveEdit(effective: Object, pageTitle: string, params: Object) {
    var e := EditParams(pageTitle, params);
    && (forall k :: k in effective <==> k in e || k == "text" || k == "token")
    && (forall k :: k in e && k != "text" && k != "token" ==> effective[k] == e[k])
    && (Truthy(Lookup(params, "text")) ==> effective["text"] == params["text"])
    && (!Truthy(Lookup(params, "text")) ==> effective["text"].Str? && IsDefaultText(effective["text"].s))
    && (Truthy(Lookup(params, "token")) ==> effective["token"] == params["token"])
  }

  /**
   * The effective parameters `edit` posts, with `token` standing for
   * `params.token || await this.token('csrf')`: a falsy text is replaced by
   * 'Lorem ipsum ' and a fresh uniq().
   */
  method EffectiveParams(pageTitle: string, params: Object, token: Value) returns (effective: Object)
    requires Truthy(Lookup(params, "token")) ==> token == params["token"]
    ensures EffectiveEdit(effective, pageTitle, params)
    ensures "token" in effective && effective["token"] == token
  {
    effective := EditParams(pageTitle, params);
    var text := Lookup(effective, "text");
    if !Truthy(text) {
      var generated := Utils.Uniq(Utils.UniqLength);
      text := Str(LoremIpsum + generated);
    }
    effective := effective["text" := text]["token" := token];
  }

  /**
   * `edit`, after the reply: `result.edit.result` must be 'Success'; the
   * edit record is returned with the user and every effective parameter
   * recorded on it, its other fields as the server sent them.
   */
  function EditResult(reply: Response, user: Value, effective: Object): (r: Result<Value, ActionError>)
    ensures Action(reply).Err? ==> r == Action(reply)
    ensures r.Ok? <==>
      && Action(reply).Ok?
      && Exists(Member(reply.body, "edit"))
      && Member(Member(reply.body, "edit"), "result") == Str(Success)
    ensures r.Ok? ==>
      && Member(reply.body, "edit").Obj?
      && r == Ok(Obj(Recorded(Member(reply.body, "edit").fields, user, effective)))
    ensures r.Ok? ==> Member(r.value, "result") == Str(Success)
  {
    match Action(reply)
    case Err(e) => Err(e)
    case Ok(body) =>
      var edit := Member(body, "edit");
      if !Exists(edit) then Err(TypeError)
      else if Member(edit, "result") != Str(Success) then Err(AssertionFailed)
      else
        assert !IsRecordKey("result", effective) by {
          assert "result"[..6][0] != "param_"[0];
        }
        Ok(Obj(Recorded(edit.fields, user, effective)))
  }

  /** `edit`'s last steps, recording the parameters with the `forEach` loop. */
  method EditOutcome(reply: Response, user: Value, effective: Object) returns (r: Result<Value, ActionError>)
    ensures r == EditResult(reply, user, effective)
  {
    var result := Action(reply);
    if result.Err? {
      return Err(result.error);
    }
    var edit := Member(result.value, "edit");
    if !Exists(edit) {
      return Err(TypeError);
    }
    if Member(edit, "result") != Str(Success) {
      return Err(AssertionFailed);
    }
    var recorded := RecordParams(edit.fields, user, effective);
    r := Ok(Obj(recorded));
  }

  /**
   * The createaccount form: `{createtoken, retype: params.retype ||
   * params.password, createreturnurl: config.base_uri}` under the caller's
   * params.
   */
  function CreateAccountForm(params: Object, createtoken: Value, baseUri: Value): (r: Object)
    ensures forall k :: k in r <==> k == "createtoken" || k == "retype" || k == "createreturnurl" || k in params
    ensures forall k :: k in params ==> r[k] == params[k]
    ensures "createtoken" !in params ==> r["createtoken"] == createtoken
    ensures "retype" !in params ==> r["retype"] == Lookup(params, "password")
    ensures "createreturnurl" !in params ==> r["createreturnurl"] == baseUri
  {
    var defaults := map[
      "createtoken" := createtoken,
      "retype" := Or(Lookup(params, "retype"), Lookup(params, "password")),
      "createreturnurl" := baseUri
    ];
    defaults + params
  }

  class Client {
    var req: Agent
    var username: Value
    var userid: Value
    /** The token cache: undefined until the first token request, then a record of `<type>token` keys. */
    var tokens: Value

    /** With an agent, share its session and user; without one, a fresh session as the anonymous user. */
    constructor (agent: Client?, session: Agent)
      ensures agent != null ==> req == agent.req && username == agent.username && userid == agent.userid
      ensures agent == null ==> req == session && username == Str(AnonName) && userid == Num(0)
      ensures tokens == Undefined
    {
      if agent != null {
        req := agent.req;
        username := agent.username;
        userid := agent.userid;
      } else {
        req := session;
        username := Str(AnonName);
        userid := Num(0);
      }
      tokens := Undefined;
    }

    /**
     * The same constructor given any other truthy agent object, such as a
     * RESTClient: only its `req`, `username` and `userid` are read.
     */
    constructor Of(agentReq: Agent, agentName: Value, agentId: Value)
      ensures req == agentReq && username == agentName && userid == agentId
      ensures tokens == Undefined
    {
      req := agentReq;
      username := agentName;
      userid := agentId;
      tokens := Undefined;
    }

    /**
     * `token(ttype)`: the cached token when there is a truthy one, with no
     * request; otherwise a meta query whose tokens are merged into the cache,
     * and the requested one must then exist.
     */
    method Token(ttype: string, reply: Response) returns (query: Option<Object>, r: Result<Value, ActionError>)
      modifies this
      ensures req == old(req) && username == old(username) && userid == old(userid)
      ensures TokenFetch(query, tokens, r) == FetchToken(old(tokens), ttype, reply)
    {
      var tname := TokenName(ttype);
      if CacheHit(tokens, tname) {
        return None, Ok(Member(tokens, tname));
      }
      query := Some(MetaParams("tokens", map["type" := Str(ttype)]));
      var newTokens := MetaOf(reply, "tokens");
      if newTokens.Err? {
        return query, Err(newTokens.error);
      }
      tokens := Obj(MergeTokens(tokens, newTokens.value));
      if !Exists(Member(tokens, tname)) {
        return query, Err(AssertionFailed);
      }
      r := Ok(Member(tokens, tname));
    }

    /** `loadTokens(ttypes)`: one meta query for all the types; its reply replaces the whole cache. */
    method LoadTokens(ttypes: seq<string>, reply: Response) returns (query: Object, r: Result<Value, ActionError>)
      modifies this
      ensures req == old(req) && username == old(username) && userid == old(userid)
      ensures query == MetaParams("tokens", map["type" := Str(PageTitles.Join(ttypes, PageTitles.Pipe))])
      ensures r == MetaOf(reply, "tokens")
      ensures r.Ok? ==> tokens == r.value
      ensures r.Err? ==> tokens == old(tokens)
    {
      query := MetaParams("tokens", map["type" := Str(PageTitles.Join(ttypes, PageTitles.Pipe))]);
      r := MetaOf(reply, "tokens");
      if r.Ok? {
        tokens := r.value;
      }
    }

    /**
     * `login(username, password)`: fetch the login token (from the cache if
     * there), post the credentials, require result 'Success', then take the
     * user name and id from the reply and empty the token cache.
     */
    method Login(name: string, password: string, tokenReply: Response, reply: Response)
      returns (sent: seq<Object>, r: Result<Value, ActionError>)
      modifies this
      ensures req == old(req)
      ensures var t := FetchToken(old(tokens), "login", tokenReply);
        sent == (if t.query.Some? then [t.query.value] else []) +
                (if t.token.Ok? then [LoginParams(name, password, t.token.value)] else [])
      ensures var t := FetchToken(old(tokens), "login", tokenReply);
        r == if t.token.Err? then Err(t.token.error) else LoginReply(reply)
      ensures r.Err? ==>
        && tokens == FetchToken(old(tokens), "login", tokenReply).cache
        && username == old(username) && userid == old(userid)
      ensures r.Ok? ==>
        && username == Member(r.value, "lgusername")
        && userid == Member(r.value, "lguserid")
        && tokens == Obj(map[])
    {
      var tokenQuery, token := Token("login", tokenReply);
      sent := if tokenQuery.Some? then [tokenQuery.value] else [];
      if token.Err? {
        return sent, Err(token.error);
      }
      var form := LoginParams(name, password, token.value);
      sent := sent + [form];
      r := LoginReply(reply);
      if r.Ok? {
        username := Member(r.value, "lgusername");
        userid := Member(r.value, "lguserid");
        tokens := Obj(map[]);
      }
    }

    /**
     * `edit(pageTitle, params)` up to its last step: build the effective
     * parameters (a falsy text replaced by generated text, a falsy token by
     * the csrf token), post them, and record them on the returned edit
     * record. No edit is posted (`effective` is None) when the token request
     * fails.
     */
    method Edit(pageTitle: string, params: Object, tokenReply: Response, reply: Response)
      returns (sent: seq<Object>, effective: Option<Object>, r: Result<Value, ActionError>)
      modifies this
      ensures req == old(req) && username == old(username) && userid == old(userid)
      ensures Truthy(Lookup(params, "token")) ==> effective.Some? && tokens == old(tokens)
      ensures Truthy(Lookup(params, "token")) ==> sent == [ActionParams("edit", effective.value)]
      ensures !Truthy(Lookup(params, "token")) ==>
        var t := FetchToken(old(tokens), "csrf", tokenReply);
        sent == (if t.query.Some? then [t.query.value] else []) +
                (if effective.Some? then [ActionParams("edit", effective.value)] else [])
      ensures effective.Some? ==> EffectiveEdit(effective.value, pageTitle, params)
      ensures effective.Some? ==> r == EditResult(reply, username, effective.value)
      ensures !Truthy(Lookup(params, "token")) ==>
        tokens == FetchToken(old(tokens), "csrf", tokenReply).cache
      ensures !Truthy(Lookup(params, "token")) ==>
        (effective.Some? <==> FetchToken(old(tokens), "csrf", tokenReply).token.Ok?)
      ensures !Truthy(Lookup(params, "token")) && effective.None? ==>
        r.Err? && FetchToken(old(tokens), "csrf", tokenReply).token == Err(r.error)
      ensures !Truthy(Lookup(params, "token")) && effective.Some? ==>
        "token" in effective.value &&
        FetchToken(old(tokens), "csrf", tokenReply).token == Ok(effective.value["token"])
    {
      ghost var fetch := FetchToken(tokens, "csrf", tokenReply);
      var token;
      sent, token := GivenOrFetchedToken(params, "csrf", tokenReply);
      assert !Truthy(Lookup(params, "token")) ==> token == fetch.token;
      if token.Err? {
        assert !Truthy(Lookup(params, "token")) && fetch.token.Err?;
        return sent, None, Err(token.error);
      }
      assert !Truthy(Lookup(params, "token")) ==> fetch.token.Ok?;
      var e := EffectiveParams(pageTitle, params, token.value);
      effective := Some(e);
      sent := sent + [ActionParams("edit", e)];
      r := EditOutcome(reply, username, e);
    }

    /**
     * `params.token || await this.token(ttype)` (csrf for edit, createaccount
     * for createAccount), with the meta query it sends.
     */
    method GivenOrFetchedToken(params: Object, ttype: string, tokenReply: Response)
      returns (sent: seq<Object>, token: Result<Value, ActionError>)
      modifies this
      ensures req == old(req) && username == old(username) && userid == old(userid)
      ensures Truthy(Lookup(params, "token")) ==>
        sent == [] && token == Ok(params["token"]) && tokens == old(tokens)
      ensures !Truthy(Lookup(params, "token")) ==>
        var t := FetchToken(old(tokens), ttype, tokenReply);
        && sent == (if t.query.Some? then [t.query.value] else [])
        && token == t.token
        && tokens == t.cache
      ensures var t := GivenOrFetched(params, old(tokens), ttype, tokenReply);
        sent == QuerySent(t.query) && token == t.token && tokens == t.cache
    {
      if Truthy(Lookup(params, "token")) {
        return [], Ok(params["token"]);
      }
      var tokenQuery;
      tokenQuery, token := Token(ttype, tokenReply);
      sent := if tokenQuery.Some? then [tokenQuery.value] else [];
    }

    /**
     * `createAccount(params)`: the createaccount token (unless the caller
     * gives one), retype defaulting to the password, the return URL from
     * the configuration; then up to four attempts.
     */
    method CreateAccount(params: Object, baseUri: Value, tokenReply: Response, replies: nat -> Response)
      returns (sent: seq<Object>, form: Object, attempts: nat, r: Result<Value, ActionError>)
      modifies this
      ensures req == old(req) && username == old(username) && userid == old(userid)
      ensures tokens == GivenOrFetched(params, old(tokens), "createaccount", tokenReply).cache
      ensures attempts >= 1 <==> GivenOrFetched(params, old(tokens), "createaccount", tokenReply).token.Ok?
      ensures attempts == 0 ==>
        r.Err? && GivenOrFetched(params, old(tokens), "createaccount", tokenReply).token == Err(r.error)
      ensures attempts >= 1 ==>
        && GivenOrFetched(params, old(tokens), "createaccount", tokenReply).token.Ok?
        && form == CreateAccountForm(params, GivenOrFetched(params, old(tokens), "createaccount", tokenReply).token.value, baseUri)
      ensures sent == QuerySent(GivenOrFetched(params, old(tokens), "createaccount", tokenReply).query) + AttemptRequests(form, attempts)
      ensures attempts <= CreateAccountAttempts
      ensures attempts > 0 ==> Retried(replies, attempts, r)
    {
      var tokenQueries, createtoken := GivenOrFetchedToken(params, "createaccount", tokenReply);
      if createtoken.Err? {
        return tokenQueries, map[], 0, Err(createtoken.error);
      }
      form := CreateAccountForm(params, createtoken.value, baseUri);
      var attemptRequests;
      attemptRequests, attempts, r := SubmitCreateAccount(form, replies);
      sent := tokenQueries + attemptRequests;
    }
  }
}
