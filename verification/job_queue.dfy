/**
 * Draining the wiki's job queue (runJobs and runAllJobs of the root
 * actionapi.js). Each call posts a signed request to Special:RunJobs; the
 * signature is an HMAC over the request parameters listed in ascending key
 * order. The reply body is an input, the HMAC an opaque function and the
 * clock a parameter.
 */
module JobQueue {
  import opened Wrappers
  import opened Js
  import SortedKeys

  const RunJobsTitle := "Special:RunJobs"
  const NoneReady := "none-ready"
  /** What runJobs returns while work may remain: a truthy marker, not a queue size. */
  const MoreWork := 100
  /** The batch size runAllJobs asks for. */
  const DrainBatch := 10

  /** HMAC-SHA1 under the secret key of the URL-encoded parameter list, as a hex string. */
  type Hmac = (string, seq<(string, Value)>) -> string

  datatype JobError =
    | MissingSecretKey   // secret_key is '': thrown before any request is built
    | BodyUndefined      // the response has no body
    | BodyNull           // reading `reached` of a null body throws
    | ReachedUndefined   // the body has no `reached` field
    | NoJobs             // `reached` is not 'none-ready' but `jobs` is missing or empty

  /** `Math.max(n*10, 60)`: the time budget in seconds. */
  function MaxTime(n: int): (t: int)
    ensures t >= 60 && t >= n * 10
    ensures t == 60 || t == n * 10
  {
    if n * 10 > 60 then n * 10 else 60
  }

  lemma MaxTimeExamples()
    ensures MaxTime(1) == 60 && MaxTime(6) == 60 && MaxTime(10) == 100 && MaxTime(100) == 1000
  {
  }

  /** `Math.ceil(Date.now()/1000 + 60*60)`: one hour from now, rounded up to whole seconds. */
  function SigExpiry(nowMs: int): (e: int)
    ensures nowMs <= (e - 3600) * 1000 < nowMs + 1000
  {
    (nowMs + 999) / 1000 + 3600
  }

  /** The parameter record runJobs builds before signing it. */
  function JobParams(n: int, nowMs: int): Object {
    map[
      "title" := Str(RunJobsTitle),
      "maxjobs" := Num(n),
      "maxtime" := Num(MaxTime(n)),
      "async" := Str(""),
      "stats" := Str("1"),
      "tasks" := Str(""),
      "sigexpiry" := Num(SigExpiry(nowMs))
    ]
  }

  /**
   * The record holds exactly the seven runJobs parameters, with no
   * signature yet; the job count, the time budget and the expiry come from
   * the inputs.
   */
  lemma JobParamsFields(n: int, nowMs: int)
    ensures var r := JobParams(n, nowMs);
      && r.Keys == {"title", "maxjobs", "maxtime", "async", "stats", "tasks", "sigexpiry"}
      && "signature" !in r
      && r["title"] == Str(RunJobsTitle)
      && r["maxjobs"] == Num(n) && r["maxtime"] == Num(MaxTime(n)) && r["sigexpiry"] == Num(SigExpiry(nowMs))
  {
  }

  function KeysOf(data: seq<(string, Value)>): (ks: seq<string>)
    ensures |ks| == |data| && forall i :: 0 <= i < |data| ==> ks[i] == data[i].0
  {
    seq(|data|, i requires 0 <= i < |data| => data[i].0)
  }

  /** `data` lists exactly the entries of `params`, in ascending key order. */
  ghost predicate Canonical(params: Object, data: seq<(string, Value)>) {
    && SortedKeys.Ascending(KeysOf(data))
    && (forall k :: k in KeysOf(data) <==> k in params)
    && (forall i :: 0 <= i < |data| ==> data[i].0 in params && data[i].1 == params[data[i].0])
  }

  /** The signed list is determined by the parameters: signing is deterministic. */
  lemma CanonicalUnique(params: Object, d1: seq<(string, Value)>, d2: seq<(string, Value)>)
    requires Canonical(params, d1) && Canonical(params, d2)
    ensures d1 == d2
  {
    SortedKeys.AscendingUnique(KeysOf(d1), KeysOf(d2));
    assert KeysOf(d1) == KeysOf(d2);
    forall i | 0 <= i < |d1| ensures d1[i] == d2[i] {
      assert d1[i].0 == KeysOf(d1)[i] == KeysOf(d2)[i] == d2[i].0;
    }
  }

  /** Different parameter records give different signed lists: every field reaches the HMAC. */
  lemma CanonicalInjective(p1: Object, p2: Object, data: seq<(string, Value)>)
    requires Canonical(p1, data) && Canonical(p2, data)
    ensures p1 == p2
  {
    forall k | k in p1 ensures k in p2 && p1[k] == p2[k] {
      var i :| 0 <= i < |data| && KeysOf(data)[i] == k;
    }
    assert p1.Keys == p2.Keys;
  }

  /**
   * The `sig` helper: the parameters copied in sorted key order into a new
   * record, then HMAC-ed under the secret key.
   */
  method Sign(params: Object, secret: string, hmac: Hmac) returns (data: seq<(string, Value)>, signature: string)
    ensures Canonical(params, data)
    ensures signature == hmac(secret, data)
  {
    var keys := SortedKeys.SortKeys(params.Keys);
    data := [];
    for i := 0 to |keys|
      invariant |data| == i
      invariant forall j :: 0 <= j < i ==> data[j] == (keys[j], params[keys[j]])
    {
      data := data + [(keys[i], params[keys[i]])];
    }
    assert KeysOf(data) == keys;
    signature := hmac(secret, data);
  }

  /** A runJobs request for n jobs at time nowMs: the parameter record plus its signature. */
  ghost predicate SignedJobRequest(req: Object, n: int, nowMs: int, secret: string, hmac: Hmac) {
    exists data :: Canonical(JobParams(n, nowMs), data) &&
      req == JobParams(n, nowMs)["signature" := Str(hmac(secret, data))]
  }

  /**
   * A signed request is the parameter record with one more entry, the
   * signature, a string.
   */
  lemma SignedJobRequestShape(req: Object, n: int, nowMs: int, secret: string, hmac: Hmac)
    requires SignedJobRequest(req, n, nowMs, secret, hmac)
    ensures "signature" in req && req["signature"].Str?
    ensures req == JobParams(n, nowMs)["signature" := req["signature"]]
  {
  }

  /** The signature is computed over the parameters alone, without a `signature` entry. */
  lemma SignedListExcludesSignature(n: int, nowMs: int, data: seq<(string, Value)>)
    requires Canonical(JobParams(n, nowMs), data)
    ensures "signature" !in KeysOf(data)
  {
    assert "signature" !in JobParams(n, nowMs);
  }

  /** Two requests built from the same inputs are identical. */
  lemma SignedJobRequestDeterministic(r1: Object, r2: Object, n: int, nowMs: int, secret: string, hmac: Hmac)
    requires SignedJobRequest(r1, n, nowMs, secret, hmac) && SignedJobRequest(r2, n, nowMs, secret, hmac)
    ensures r1 == r2
  {
    var p := JobParams(n, nowMs);
    var d1 :| Canonical(p, d1) && r1 == p["signature" := Str(hmac(secret, d1))];
    var d2 :| Canonical(p, d2) && r2 == p["signature" := Str(hmac(secret, d2))];
    CanonicalUnique(p, d1, d2);
  }

  /** The first half of runJobs: the secret-key check, the parameter record and its signature. */
  method BuildRequest(n: int, secret: string, nowMs: int, hmac: Hmac) returns (r: Result<Object, JobError>)
    ensures secret == "" ==> r == Err(MissingSecretKey)
    ensures secret != "" ==> r.Ok? && SignedJobRequest(r.value, n, nowMs, secret, hmac)
  {
    if secret == "" {
      return Err(MissingSecretKey);
    }
    var params := JobParams(n, nowMs);
    var data, signature := Sign(params, secret, hmac);
    r := Ok(params["signature" := Str(signature)]);
  }

  /** chai's `isNotEmpty`: a non-empty string, array or object (anything else fails the assertion). */
  predicate NonEmpty(v: Value)
    ensures NonEmpty(v) ==> Truthy(v)
    ensures v.Str? ==> (NonEmpty(v) <==> Truthy(v))
  {
    match v
    case Str(s) => s != ""
    case Arr(items) => items != []
    case Obj(fields) => fields != map[]
    case _ => false
  }

  /**
   * The second half of runJobs: reading the response body. 'none-ready'
   * gives 0, any other defined `reached` with a non-empty job list gives
   * 100, everything else fails.
   */
  function Outcome(body: Value): (r: Result<int, JobError>)
    ensures r.Ok? ==> r.value == 0 || r.value == MoreWork
    ensures r == Ok(0) <==> body.Obj? && Lookup(body.fields, "reached") == Str(NoneReady)
    ensures r == Ok(MoreWork) <==>
      && Exists(body)
      && Member(body, "reached") !in {Undefined, Str(NoneReady)}
      && NonEmpty(Member(body, "jobs"))
    ensures r == Err(BodyUndefined) <==> body == Undefined
    ensures r == Err(BodyNull) <==> body == Null
    ensures r == Err(ReachedUndefined) <==> Exists(body) && Member(body, "reached") == Undefined
    ensures r == Err(NoJobs) <==>
      && Exists(body)
      && Member(body, "reached") !in {Undefined, Str(NoneReady)}
      && !NonEmpty(Member(body, "jobs"))
  {
    if body == Undefined then Err(BodyUndefined)
    else if body == Null then Err(BodyNull)
    else
      var reached := Member(body, "reached");
      if reached == Undefined then Err(ReachedUndefined)
      else if reached == Str(NoneReady) then Ok(0)
      else if NonEmpty(Member(body, "jobs")) then Ok(MoreWork)
      else Err(NoJobs)
  }

  /**
   * `runJobs(n)`: no request at all when the secret key is empty; otherwise
   * one signed request, whose reply decides the result.
   */
  method RunJobs(n: int, secret: string, nowMs: int, hmac: Hmac, body: Value)
    returns (sent: Option<Object>, r: Result<int, JobError>)
    ensures secret == "" ==> sent == None && r == Err(MissingSecretKey)
    ensures secret != "" ==> sent.Some? && SignedJobRequest(sent.value, n, nowMs, secret, hmac)
    ensures secret != "" ==> r == Outcome(body)
  {
    var req := BuildRequest(n, secret, nowMs, hmac);
    if req.Err? {
      return None, Err(req.error);
    }
    sent := Some(req.value);
    r := Outcome(body);
  }

  /** The position of the first reply that does not report more work (|replies| if none). */
  function FirstStop(replies: seq<Value>): (k: nat)
    ensures k <= |replies|
    ensures forall i :: 0 <= i < k ==> Outcome(replies[i]) == Ok(MoreWork)
    ensures k < |replies| ==> Outcome(replies[k]) != Ok(MoreWork)
  {
    if replies == [] || Outcome(replies[0]) != Ok(MoreWork) then 0
    else 1 + FirstStop(replies[1..])
  }

  /**
   * How a drain ends: the queue reported empty, a call failed, or (in this
   * model only) the scripted replies ran out while the loop was still polling.
   */
  datatype DrainOutcome = Drained | Aborted(error: JobError) | StillPolling

  /** The end of a drain with a working secret key: decided by the first reply that does not report more work. */
  function Verdict(replies: seq<Value>): (v: DrainOutcome)
    ensures v == StillPolling <==> FirstStop(replies) == |replies|
    ensures v == Drained ==> Outcome(replies[FirstStop(replies)]) == Ok(0)
    ensures v.Aborted? ==> Outcome(replies[FirstStop(replies)]) == Err(v.error)
  {
    var k := FirstStop(replies);
    if k == |replies| then StillPolling
    else match Outcome(replies[k])
      case Ok(_) => Drained
      case Err(e) => Aborted(e)
  }

  /** The first stop is the position the drain loop stopped at. */
  lemma FirstStopAt(replies: seq<Value>, i: nat)
    requires i <= |replies|
    requires forall j :: 0 <= j < i ==> Outcome(replies[j]) == Ok(MoreWork)
    requires i < |replies| ==> Outcome(replies[i]) != Ok(MoreWork)
    ensures FirstStop(replies) == i
  {
  }

  /** One more signed request on the list of those already sent. */
  lemma SignedAppend(sent: seq<Object>, req: Object, secret: string, clock: nat -> int, hmac: Hmac)
    requires forall j :: 0 <= j < |sent| ==> SignedJobRequest(sent[j], DrainBatch, clock(j), secret, hmac)
    requires SignedJobRequest(req, DrainBatch, clock(|sent|), secret, hmac)
    ensures forall j :: 0 <= j < |sent| + 1 ==> SignedJobRequest((sent + [req])[j], DrainBatch, clock(j), secret, hmac)
  {
    forall j | 0 <= j < |sent| + 1
      ensures SignedJobRequest((sent + [req])[j], DrainBatch, clock(j), secret, hmac)
    {
      if j < |sent| {
        assert (sent + [req])[j] == sent[j];
      } else {
        assert (sent + [req])[j] == req;
      }
    }
  }

  /**
   * `runAllJobs()`: call runJobs(10) until it returns 0. Reply i answers the
   * i-th call; clock(i) is the time of the i-th call.
   */
  method RunAllJobs(secret: string, clock: nat -> int, hmac: Hmac, replies: seq<Value>)
    returns (sent: seq<Object>, outcome: DrainOutcome)
    ensures secret == "" ==> sent == [] && outcome == Aborted(MissingSecretKey)
    ensures secret != "" ==> outcome == Verdict(replies)
    ensures secret != "" ==> |sent| == if FirstStop(replies) < |replies| then FirstStop(replies) + 1 else |replies|
    ensures forall i :: 0 <= i < |sent| ==> SignedJobRequest(sent[i], DrainBatch, clock(i), secret, hmac)
  {
    sent := [];
    var i := 0;
    while true
      invariant i <= |replies| && |sent| == i
      invariant i > 0 ==> secret != ""
      invariant forall j :: 0 <= j < i ==> Outcome(replies[j]) == Ok(MoreWork)
      invariant forall j :: 0 <= j < i ==> SignedJobRequest(sent[j], DrainBatch, clock(j), secret, hmac)
      decreases |replies| - i
    {
      var req := BuildRequest(DrainBatch, secret, clock(i), hmac);
      if req.Err? {
        return sent, Aborted(req.error);
      }
      if i == |replies| {
        FirstStopAt(replies, i);
        return sent, StillPolling;
      }
      SignedAppend(sent, req.value, secret, clock, hmac);
      sent := sent + [req.value];
      var remaining := Outcome(replies[i]);
      if remaining != Ok(MoreWork) {
        FirstStopAt(replies, i);
        return sent, if remaining.Ok? then Drained else Aborted(remaining.error);
      }
      i := i + 1;
    }
  }

  /** Scenario: one batch of work and then 'none-ready' makes exactly two calls. */
  lemma TwoCallDrain()
    ensures var replies := [Obj(map["reached" := Str("batch"), "jobs" := Arr([Num(1), Num(2), Num(3)])]),
                            Obj(map["reached" := Str(NoneReady)])];
      FirstStop(replies) == 1 && Outcome(replies[1]) == Ok(0)
  {
  }
}
