/**
 * RESTClient of lib/REST.js: requests to the REST API under a path prefix.
 * A request is described by its verb, its normalised path, where the
 * parameters go (query string or body) and its headers.
 */
module Rest {
  import opened Wrappers
  import opened Js
  import opened Assoc
  import Utils
  import ActionApi

  const DefaultPrefix := "rest.php/v1"
  const ContentType := "content-type"
  const JsonType := "application/json"

  datatype Verb = GET | POST | PUT | DELETE

  /** GET and DELETE send the parameters as a query string, POST and PUT as the body. */
  datatype Payload = Query(params: Value) | Body(params: Value)

  datatype RestRequest = RestRequest(verb: Verb, path: string, payload: Payload, headers: Object)

  datatype RestError = Unsupported(verb: string)

  function UpperChar(c: char): char {
    if 'a' <= c <= 'z' then (c as int - 32) as char else c
  }

  function LowerChar(c: char): char {
    if 'A' <= c <= 'Z' then (c as int + 32) as char else c
  }

  predicate IsLowerLetter(c: char) { 'a' <= c <= 'z' }

  predicate IsUpperLetter(c: char) { 'A' <= c <= 'Z' }

  /**
   * `toUpperCase()` on ASCII letters: no lower-case letter is left, each one
   * becomes its capital, and every other character is kept.
   */
  function Upper(s: string): (r: string)
    ensures |r| == |s|
    ensures forall i :: 0 <= i < |r| ==> !IsLowerLetter(r[i])
    ensures forall i :: 0 <= i < |s| && IsLowerLetter(s[i]) ==> r[i] as int == s[i] as int - 32
    ensures forall i :: 0 <= i < |s| && !IsLowerLetter(s[i]) ==> r[i] == s[i]
  {
    seq(|s|, i requires 0 <= i < |s| => UpperChar(s[i]))
  }

  /**
   * `toLowerCase()` on ASCII letters: no capital is left, each one becomes
   * its lower-case letter, and every other character is kept.
   */
  function Lower(s: string): (r: string)
    ensures |r| == |s|
    ensures forall i :: 0 <= i < |r| ==> !IsUpperLetter(r[i])
    ensures forall i :: 0 <= i < |s| && IsUpperLetter(s[i]) ==> r[i] as int == s[i] as int + 32
    ensures forall i :: 0 <= i < |s| && !IsUpperLetter(s[i]) ==> r[i] == s[i]
  {
    seq(|s|, i requires 0 <= i < |s| => LowerChar(s[i]))
  }

  lemma LowerIdempotent(s: string)
    ensures Lower(Lower(s)) == Lower(s)
  {
  }

  /** Case mapping forgets the case it replaces: strings equal up to case have the same upper and lower forms. */
  lemma CaseRoundTrip(s: string)
    ensures Lower(Upper(s)) == Lower(s)
    ensures Upper(Lower(s)) == Upper(s)
  {
  }

  function VerbName(v: Verb): string {
    match v
    case GET => "GET"
    case POST => "POST"
    case PUT => "PUT"
    case DELETE => "DELETE"
  }

  /** The `switch (method.toUpperCase())`: one of the four verbs, in any letter case. */
  function ParseVerb(verb: string): (r: Option<Verb>)
    ensures r.Some? ==> VerbName(r.value) == Upper(verb)
    ensures r.None? ==> forall v: Verb :: VerbName(v) != Upper(verb)
  {
    match Upper(verb)
    case "GET" => Some(GET)
    case "POST" => Some(POST)
    case "PUT" => Some(PUT)
    case "DELETE" => Some(DELETE)
    case _ => None
  }

  /** Method matching ignores letter case. */
  lemma ParseVerbCaseInsensitive(a: string, b: string)
    requires Upper(a) == Upper(b)
    ensures ParseVerb(a) == ParseVerb(b)
  {
  }

  /** Each verb's own name selects it. */
  lemma ParseVerbNames()
    ensures ParseVerb("GET") == Some(GET) && ParseVerb("POST") == Some(POST)
    ensures ParseVerb("PUT") == Some(PUT) && ParseVerb("DELETE") == Some(DELETE)
    ensures forall v: Verb :: ParseVerb(VerbName(v)) == Some(v)
  {
    assert Upper("GET") == "GET";
    assert Upper("POST") == "POST";
    assert Upper("PUT") == "PUT";
    assert Upper("DELETE") == "DELETE";
  }

  lemma ParseVerbExamples()
    ensures ParseVerb("get") == Some(GET) && ParseVerb("Post") == Some(POST)
    ensures ParseVerb("put") == Some(PUT) && ParseVerb("delete") == Some(DELETE)
    ensures ParseVerb("PATCH") == None && ParseVerb("del") == None
  {
    assert Upper("get") == "GET";
    assert Upper("Post") == "POST";
    assert Upper("put") == "PUT";
    assert Upper("delete") == "DELETE";
    assert Upper("PATCH") == "PATCH";
    assert Upper("del") == "DEL";
  }

  /** The headers in enumeration order with lower-cased names. */
  function LowerPairs(headers: seq<(string, Value)>): (ps: seq<(string, Value)>)
    ensures |ps| == |headers|
    ensures forall i :: 0 <= i < |ps| ==> ps[i] == (Lower(headers[i].0), headers[i].1)
  {
    seq(|headers|, i requires 0 <= i < |headers| => (Lower(headers[i].0), headers[i].1))
  }

  /**
   * `_objectKeysToLowerCase(headers)`: the headers (given in enumeration
   * order) copied into a new record under lower-cased names; of two names
   * equal up to case, the later one wins.
   */
  method ObjectKeysToLowerCase(headers: seq<(string, Value)>) returns (r: Object)
    ensures r == FromPairs(LowerPairs(headers))
  {
    r := map[];
    for i := 0 to |headers|
      invariant r == FromPairs(LowerPairs(headers)[..i])
    {
      FromPairsSnoc(LowerPairs(headers), i);
      r := r[Lower(headers[i].0) := headers[i].1];
    }
    assert LowerPairs(headers)[..|headers|] == LowerPairs(headers);
  }

  /**
   * Every key of the result is lower-case and comes from a header; every
   * header's value is kept under its lower-cased name unless a later header
   * has the same name up to case.
   */
  lemma LowerCaseKeysSpec(headers: seq<(string, Value)>)
    ensures forall k :: k in FromPairs(LowerPairs(headers)) ==>
      Lower(k) == k && exists i :: 0 <= i < |headers| && Lower(headers[i].0) == k
    ensures forall i :: 0 <= i < |headers| ==> Lower(headers[i].0) in FromPairs(LowerPairs(headers))
    ensures forall i ::
      (0 <= i < |headers| && forall j :: i < j < |headers| ==> Lower(headers[j].0) != Lower(headers[i].0)) ==>
      FromPairs(LowerPairs(headers))[Lower(headers[i].0)] == headers[i].1
  {
    var ps := LowerPairs(headers);
    FromPairsKeys(ps);
    forall k | k in FromPairs(ps) ensures Lower(k) == k && exists i :: 0 <= i < |headers| && Lower(headers[i].0) == k {
      var i :| 0 <= i < |ps| && ps[i].0 == k;
      LowerIdempotent(headers[i].0);
    }
    forall i | 0 <= i < |headers| && forall j :: i < j < |headers| ==> Lower(headers[j].0) != Lower(headers[i].0)
      ensures FromPairs(ps)[Lower(headers[i].0)] == headers[i].1
    {
      FromPairsLastWins(ps, i);
    }
  }

  /** `Object.assign({'content-type': 'application/json'}, updatedHeaders)`. */
  function WithJsonDefault(lowered: Object): (r: Object)
    ensures forall k :: k in r <==> k == ContentType || k in lowered
    ensures forall k :: k in lowered ==> r[k] == lowered[k]
    ensures ContentType !in lowered ==> r[ContentType] == Str(JsonType)
  {
    map[ContentType := Str(JsonType)] + lowered
  }

  /**
   * For post and put: the content type is JSON unless the caller names a
   * content-type header in any letter case, in which case the last such
   * header's value is sent.
   */
  lemma ContentTypeRule(headers: seq<(string, Value)>)
    ensures (forall i :: 0 <= i < |headers| ==> Lower(headers[i].0) != ContentType) ==>
      WithJsonDefault(FromPairs(LowerPairs(headers)))[ContentType] == Str(JsonType)
    ensures forall i ::
      (0 <= i < |headers| && Lower(headers[i].0) == ContentType &&
       forall j :: i < j < |headers| ==> Lower(headers[j].0) != ContentType) ==>
      WithJsonDefault(FromPairs(LowerPairs(headers)))[ContentType] == headers[i].1
  {
    LowerCaseKeysSpec(headers);
  }

  class RESTClient {
    var pathPrefix: string
    var req: ActionApi.Agent
    var username: Value
    var userid: Value

    /** `new RESTClient(endpoint, client)`: share the client's session and user, or start anonymous. */
    constructor (endpoint: string, client: ActionApi.Client?, session: ActionApi.Agent)
      ensures pathPrefix == endpoint
      ensures client != null ==> req == client.req && username == client.username && userid == client.userid
      ensures client == null ==> req == session && username == Str(ActionApi.AnonName) && userid == Num(0)
    {
      pathPrefix := endpoint;
      if client != null {
        req := client.req;
        username := client.username;
        userid := client.userid;
      } else {
        req := session;
        username := Str(ActionApi.AnonName);
        userid := Num(0);
      }
    }

    /** The same constructor given another RESTClient: its session and user are shared. */
    constructor Sharing(endpoint: string, other: RESTClient)
      ensures pathPrefix == endpoint
      ensures req == other.req && username == other.username && userid == other.userid
    {
      pathPrefix := endpoint;
      req := other.req;
      username := other.username;
      userid := other.userid;
    }

    /**
     * `request(endpoint, method, params, headers)`: the path is always
     * `normalizePath(pathPrefix, endpoint)`; an unknown method throws.
     */
    function Request(endpoint: string, verb: string, params: Value, headers: Object): (r: Result<RestRequest, RestError>)
      reads this
      ensures r.Err? <==> ParseVerb(verb).None?
      ensures r.Err? ==> r.error == Unsupported(verb)
      ensures r.Ok? ==>
        && r.value.verb == ParseVerb(verb).value
        && r.value.path == Utils.NormalizePath(pathPrefix, Some(endpoint))
        && r.value.payload.params == params
        && (r.value.payload.Query? <==> r.value.verb in {GET, DELETE})
        && r.value.headers == headers
    {
      var path := Utils.NormalizePath(pathPrefix, Some(endpoint));
      match ParseVerb(verb)
      case Some(GET) => Ok(RestRequest(GET, path, Query(params), headers))
      case Some(POST) => Ok(RestRequest(POST, path, Body(params), headers))
      case Some(PUT) => Ok(RestRequest(PUT, path, Body(params), headers))
      case Some(DELETE) => Ok(RestRequest(DELETE, path, Query(params), headers))
      case None => Err(Unsupported(verb))
    }

    /** `get`: the headers are passed through as given. */
    function Get(endpoint: string, params: Value, headers: Object): (r: RestRequest)
      reads this
      ensures r.verb == GET && r.payload == Query(params) && r.headers == headers
      ensures Request(endpoint, "GET", params, headers) == Ok(r)
    {
      ParseVerbNames();
      Request(endpoint, "GET", params, headers).value
    }

    /** `del`: the headers are passed through as given. */
    function Del(endpoint: string, params: Value, headers: Object): (r: RestRequest)
      reads this
      ensures r.verb == DELETE && r.payload == Query(params) && r.headers == headers
      ensures Request(endpoint, "DELETE", params, headers) == Ok(r)
    {
      ParseVerbNames();
      Request(endpoint, "DELETE", params, headers).value
    }

    /** `post`: lower-cased caller headers over a JSON content type. */
    method Post(endpoint: string, params: Value, headers: seq<(string, Value)>) returns (r: RestRequest)
      ensures r.verb == POST && r.payload == Body(params)
      ensures r.path == Utils.NormalizePath(pathPrefix, Some(endpoint))
      ensures r.headers == WithJsonDefault(FromPairs(LowerPairs(headers)))
    {
      var updated := ObjectKeysToLowerCase(headers);
      ParseVerbNames();
      r := Request(endpoint, "POST", params, WithJsonDefault(updated)).value;
    }

    /** `put`: lower-cased caller headers over a JSON content type. */
    method Put(endpoint: string, params: Value, headers: seq<(string, Value)>) returns (r: RestRequest)
      ensures r.verb == PUT && r.payload == Body(params)
      ensures r.path == Utils.NormalizePath(pathPrefix, Some(endpoint))
      ensures r.headers == WithJsonDefault(FromPairs(LowerPairs(headers)))
    {
      var updated := ObjectKeysToLowerCase(headers);
      ParseVerbNames();
      r := Request(endpoint, "PUT", params, WithJsonDefault(updated)).value;
    }
  }

  /** With the default prefix, an endpoint without a leading slash is joined by exactly one slash. */
  lemma DefaultPrefixPath(endpoint: string)
    requires endpoint == "" || endpoint[0] != '/'
    ensures Utils.NormalizePath(DefaultPrefix, Some(endpoint)) == "/" + DefaultPrefix + "/" + endpoint
  {
    Utils.NormalizePathJoin(DefaultPrefix, endpoint);
  }

  /**
   * `getActionClient(restClient)`: an action API client built on a REST
   * client, sharing its session and user, with an empty token cache.
   */
  method ActionClientOf(rc: RESTClient) returns (c: ActionApi.Client)
    ensures fresh(c)
    ensures c.req == rc.req && c.username == rc.username && c.userid == rc.userid
    ensures c.tokens == Undefined
  {
    c := new ActionApi.Client.Of(rc.req, rc.username, rc.userid);
  }
}
