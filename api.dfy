/** The API client: the request parameters built from the configuration, the
    session refresh that rewrites the configuration file, and the call that
    re-authenticates and retries while the vendor reports a rejected session.
    The vendor endpoint is a scripted sequence of replies and the configuration
    file is a value; both are threaded through every operation in a `World`. */
module Api {
  import opened Py
  import opened Config

  /** One reply of the endpoint: a decoded JSON body, or a request that raised
      (no connection, an HTTP error status, a body that is not JSON). */
  datatype Reply = Json(body: Value) | Failed

  /** One request sent to the endpoint, with the reply it received. */
  datatype Exchange = Exchange(params: map<string, Value>, reply: Reply)

  /** What lies outside the process: the configuration file as parsed, the replies
      the endpoint will give, in order, and the requests sent so far. */
  datatype World = World(file: Value, script: seq<Reply>, log: seq<Exchange>)

  /** A result together with the world it leaves behind. */
  datatype Outcome<T> = Outcome(result: Result<T>, world: World)

  const AuthMethod := "StartAPISession"

  /** `requests.get(BASE_URL, params=...)` with `raise_for_status()` and `.json()`:
      the next scripted reply is consumed and the request is logged. Once the
      script is exhausted, every request fails as a transport error. */
  function HttpGet(w: World, params: map<string, Value>): (o: Outcome<Value>)
    ensures o.result == if w.script != [] && w.script[0].Json? then Ok(w.script[0].body) else Err(RequestError)
    ensures o.world.file == w.file
    ensures o.world.script == if w.script == [] then [] else w.script[1..]
    ensures o.world.log == w.log + [Exchange(params, if w.script == [] then Failed else w.script[0])]
  {
    var reply := if w.script == [] then Failed else w.script[0];
    var rest := if w.script == [] then [] else w.script[1..];
    Outcome(if reply.Json? then Ok(reply.body) else Err(RequestError),
            World(w.file, rest, w.log + [Exchange(params, reply)]))
  }

  /** The parameters of the authentication request: the required fields the
      configuration holds, and the method name. */
  function SessionParams(config: map<string, Value>): (r: map<string, Value>)
  {
    Overwrite(map[], config)["Method" := JStr(AuthMethod)]
  }

  lemma SessionParamsContents(config: map<string, Value>)
    ensures var p := SessionParams(config);
      && (forall k :: k in p <==> (k in RequiredFields && k in config) || k == "Method")
      && p["Method"] == JStr(AuthMethod)
      && (forall k :: k in RequiredFields && k in config ==> p[k] == config[k])
  {
    OverwritePointwise(map[], config);
    assert "Method" !in RequiredFields;
  }

  /** The parameters of a data request. */
  function ApiParams(config: map<string, Value>, apiMethod: string, startDate: string, endDate: string)
    : (r: map<string, Value>)
  {
    var p := Overwrite(map[], config)
      ["Method" := JStr(apiMethod)]["StartTime" := JStr(startDate)]["EndTime" := JStr(endDate)];
    if "SessionID" in config && "SessionPassword" in config then
      p["SessionID" := config["SessionID"]]["SP" := config["SessionPassword"]]
    else p
  }

  /** The data request holds the required fields the configuration holds, the
      method, the date range, and "SP" exactly when the configuration holds
      both a session ID and a password; nothing else. */
  lemma ApiParamsKeys(config: map<string, Value>, apiMethod: string, startDate: string, endDate: string)
    ensures var p := ApiParams(config, apiMethod, startDate, endDate);
      forall k :: k in p <==>
        || (k in RequiredFields && k in config)
        || k == "Method" || k == "StartTime" || k == "EndTime"
        || (k == "SP" && "SessionID" in config && "SessionPassword" in config)
  {
    OverwritePointwise(map[], config);
    assert "Method" !in RequiredFields && "StartTime" !in RequiredFields && "EndTime" !in RequiredFields
      && "SP" !in RequiredFields;
  }

  /** The data request carries the method and the date range as given, each
      required field with the configuration's value, and the session password
      under "SP". */
  lemma ApiParamsValues(config: map<string, Value>, apiMethod: string, startDate: string, endDate: string)
    ensures var p := ApiParams(config, apiMethod, startDate, endDate);
      && "Method" in p && p["Method"] == JStr(apiMethod)
      && "StartTime" in p && p["StartTime"] == JStr(startDate)
      && "EndTime" in p && p["EndTime"] == JStr(endDate)
      && (forall k :: k in RequiredFields && k in config ==> k in p && p[k] == config[k])
      && ("SessionID" in config && "SessionPassword" in config ==> "SP" in p && p["SP"] == config["SessionPassword"])
  {
    OverwritePointwise(map[], config);
    assert "Method" !in RequiredFields && "StartTime" !in RequiredFields && "EndTime" !in RequiredFields;
  }

  /** `fetch_new_session`: one authentication request. A failed request raises
      its error; a dict reply gives its "SessionInformation", or ValueError when
      it has none; a reply that is not a dict raises as well. */
  function FetchNewSession(config: map<string, Value>, w: World): (o: Outcome<Value>)
    ensures o.world == HttpGet(w, SessionParams(config)).world
    ensures var sent := HttpGet(w, SessionParams(config));
      && (sent.result.Err? ==> o.result == Err(sent.result.error))
      && (sent.result.Ok? && sent.result.value.JObject? ==>
            o.result == if "SessionInformation" in sent.result.value.obj
                        then Ok(sent.result.value.obj["SessionInformation"]) else Err(ValueError))
      && (sent.result.Ok? && !sent.result.value.JObject? ==> o.result.Err?)
  {
    var sent := HttpGet(w, SessionParams(config));
    match sent.result
    case Err(e) => sent
    case Ok(data) =>
      match Contains(data, "SessionInformation")
      case Err(e) => Outcome(Err(e), sent.world)
      case Ok(present) =>
        if !present then Outcome(Err(ValueError), sent.world)
        else if data.JObject? then Outcome(Ok(data.obj["SessionInformation"]), sent.world)
        else Outcome(Err(TypeError), sent.world)
  }

  /** `get_or_refresh_session`: load the configuration, fetch a new session, merge
      the session information into the configuration with `dict.update`, and
      write the required fields of the merged configuration back to the file. */
  function Refresh(w: World): (o: Outcome<map<string, Value>>)
    ensures w.log <= o.world.log && |o.world.log| <= |w.log| + 1
  {
    match ConfigMap(w.file)
    case Err(e) => Outcome(Err(e), w)
    case Ok(config) =>
      var fetched := FetchNewSession(config, w);
      match fetched.result
      case Err(e) => Outcome(Err(e), fetched.world)
      case Ok(info) =>
        match UpdateEntries(info)
        case Err(e) => Outcome(Err(e), fetched.world)
        case Ok(entries) =>
          var merged := config + entries;
          Outcome(Ok(merged), fetched.world.(file := JObject(Overwrite(config, merged))))
  }

  /** The vendor's signal that the session was rejected. */
  predicate SessionRejected(data: map<string, Value>) {
    "ErrorCode" in data && data["ErrorCode"] == JStr("1")
  }

  /** The measure of the retry recursion. */
  function RetriesLeft(attempt: int): (r: nat) {
    if attempt <= 2 then 3 - attempt else 0
  }

  /** `make_api_call`: load the configuration and send one data request with the
      method and the date range; the reply is handled by `Answer`. */
  function Call(apiMethod: string, startDate: string, endDate: string, w: World, attempt: int)
    : (o: Outcome<Value>)
    ensures w.log <= o.world.log
    decreases RetriesLeft(attempt), 2
  {
    match ConfigMap(w.file)
    case Err(e) => Outcome(Err(e), w)
    case Ok(config) => Answer(apiMethod, startDate, endDate, HttpGet(w, ApiParams(config, apiMethod, startDate, endDate)), attempt)
  }

  /** The rest of `make_api_call` once its data request was `sent`: a reply that
      rejects the session while `attempt <= 2` makes it refresh the session and
      call again with `attempt + 1`; any other reply is returned. */
  function Answer(apiMethod: string, startDate: string, endDate: string, sent: Outcome<Value>, attempt: int)
    : (o: Outcome<Value>)
    ensures sent.world.log <= o.world.log
    decreases RetriesLeft(attempt), 1
  {
    match sent.result
    case Err(e) => sent
    case Ok(data) =>
      if !data.JObject? then Outcome(Err(AttributeError), sent.world)
      else if SessionRejected(data.obj) && attempt <= 2 then Retry(apiMethod, startDate, endDate, sent.world, attempt)
      else Outcome(Ok(data), sent.world)
  }

  /** The retry: refresh the session, then call again with `attempt + 1`; an
      error of the refresh is raised. */
  function Retry(apiMethod: string, startDate: string, endDate: string, w: World, attempt: int)
    : (o: Outcome<Value>)
    requires attempt <= 2
    ensures w.log <= o.world.log
    decreases RetriesLeft(attempt), 0
  {
    var refreshed := Refresh(w);
    if refreshed.result.Err? then Outcome(Err(refreshed.result.error), refreshed.world)
    else Call(apiMethod, startDate, endDate, refreshed.world, attempt + 1)
  }

  // ---------------------------------------------------------------------------
  // The imperative operations, each proved to do what its specification says.

  /** `get_or_refresh_session`, step by step. */
  method GetOrRefreshSession(w: World) returns (r: Result<map<string, Value>>, w': World)
    ensures Outcome(r, w') == Refresh(w)
  {
    var loaded := ConfigMap(w.file);
    if loaded.Err? {
      return Err(loaded.error), w;
    }
    var config := loaded.value;
    var fetched := FetchNewSession(config, w);
    w' := fetched.world;
    if fetched.result.Err? {
      return Err(fetched.result.error), w';
    }
    var entries := UpdateEntries(fetched.result.value);
    if entries.Err? {
      return Err(entries.error), w';
    }
    config := config + entries.value;
    var written := UpdateConfigFile(w'.file, config);
    w' := w'.(file := written.value);
    r := Ok(config);
  }

  /** `make_api_call`, with the parameter dictionary built by successive updates
      and the retry as a recursive call. */
  method MakeApiCall(apiMethod: string, startDate: string, endDate: string, w: World, attempt: int)
    returns (r: Result<Value>, w': World)
    ensures Outcome(r, w') == Call(apiMethod, startDate, endDate, w, attempt)
    decreases RetriesLeft(attempt)
  {
    var loaded := ConfigMap(w.file);
    if loaded.Err? {
      return Err(loaded.error), w;
    }
    var config := loaded.value;
    var apiParams := map[];
    for i := 0 to |RequiredFields|
      invariant apiParams == OverwriteFirst(map[], config, i)
    {
      var key := RequiredFields[i];
      if key in config {
        apiParams := apiParams[key := config[key]];
      }
    }
    apiParams := apiParams["Method" := JStr(apiMethod)]["StartTime" := JStr(startDate)]["EndTime" := JStr(endDate)];
    if "SessionID" in config && "SessionPassword" in config {
      apiParams := apiParams["SessionID" := config["SessionID"]]["SP" := config["SessionPassword"]];
    }
    var sent := HttpGet(w, apiParams);
    assert Call(apiMethod, startDate, endDate, w, attempt) == Answer(apiMethod, startDate, endDate, sent, attempt);
    r, w' := sent.result, sent.world;
    if r.Err? {
      return;
    }
    var data := r.value;
    if !data.JObject? {
      return Err(AttributeError), w';
    }
    if SessionRejected(data.obj) && attempt <= 2 {
      var refreshed;
      refreshed, w' := GetOrRefreshSession(w');
      if refreshed.Err? {
        return Err(refreshed.error), w';
      }
      r, w' := MakeApiCall(apiMethod, startDate, endDate, w', attempt + 1);
    }
  }

  // ---------------------------------------------------------------------------
  // What the refresh and the call guarantee.

  /** A data request carries the date range; an authentication request never does. */
  predicate IsDataRequest(e: Exchange) {
    "StartTime" in e.params
  }

  function CountData(log: seq<Exchange>): (r: nat) {
    if log == [] then 0
    else CountData(log[..|log| - 1]) + (if IsDataRequest(log[|log| - 1]) then 1 else 0)
  }

  function CountAuth(log: seq<Exchange>): (r: nat) {
    if log == [] then 0
    else CountAuth(log[..|log| - 1]) + (if IsDataRequest(log[|log| - 1]) then 0 else 1)
  }

  /** Merging the session information first and writing back the required fields
      of the result writes exactly the required fields of the session information. */
  lemma OverwriteMerged(config: map<string, Value>, info: map<string, Value>)
    ensures Overwrite(config, config + info) == Overwrite(config, info)
  {
    OverwritePointwise(config, config + info);
    OverwritePointwise(config, info);
  }

  /** A refresh sends at most one request, an authentication request built from
      the configuration; when it succeeds it sent exactly that request, and the
      file afterwards differs from the file before only in the required fields
      that the update from the session information holds, which it takes from
      there. */
  lemma RefreshEffect(w: World)
    ensures var o := Refresh(w);
      && |w.log| <= |o.world.log| <= |w.log| + 1
      && o.world.log[..|w.log|] == w.log
      && (|o.world.log| == |w.log| + 1 ==>
            ConfigMap(w.file).Ok? && o.world.log[|w.log|].params == SessionParams(ConfigMap(w.file).value))
      && (o.result.Err? ==> o.world.file == w.file)
      && (o.result.Ok? ==>
            && |o.world.log| == |w.log| + 1
            && ConfigMap(w.file).Ok?
            && var reply := o.world.log[|w.log|].reply;
               && reply.Json? && reply.body.JObject? && "SessionInformation" in reply.body.obj
               && var entries := UpdateEntries(reply.body.obj["SessionInformation"]);
                  && entries.Ok?
                  && o.result.value == ConfigMap(w.file).value + entries.value
                  && o.world.file == JObject(Overwrite(ConfigMap(w.file).value, entries.value)))
  {
    match ConfigMap(w.file)
    case Err(_) =>
    case Ok(config) =>
      var fetched := FetchNewSession(config, w);
      if fetched.result.Ok? && UpdateEntries(fetched.result.value).Ok? {
        OverwriteMerged(config, UpdateEntries(fetched.result.value).value);
      }
  }

  /** The parameters carry the method and the date range. */
  predicate CarriesRange(p: map<string, Value>, apiMethod: string, startDate: string, endDate: string) {
    && "Method" in p && p["Method"] == JStr(apiMethod)
    && "StartTime" in p && p["StartTime"] == JStr(startDate)
    && "EndTime" in p && p["EndTime"] == JStr(endDate)
  }

  /** The file is still a dictionary that kept every key, and every key outside
      the required fields with its value, and gained no other key. */
  ghost predicate WritesOnlyRequired(before: Value, after: Value) {
    && before.JObject? && after.JObject?
    && (forall k :: k in before.obj ==> k in after.obj)
    && (forall k :: k !in RequiredFields ==> (k in after.obj <==> k in before.obj))
    && (forall k :: k !in RequiredFields && k in before.obj ==> after.obj[k] == before.obj[k])
  }

  lemma WritesOnlyRequiredTransitive(a: Value, b: Value, c: Value)
    requires WritesOnlyRequired(a, b) && WritesOnlyRequired(b, c)
    ensures WritesOnlyRequired(a, c)
  {
  }

  lemma CountsSnoc(log: seq<Exchange>, x: Exchange)
    ensures CountData(log + [x]) == CountData(log) + if IsDataRequest(x) then 1 else 0
    ensures CountAuth(log + [x]) == CountAuth(log) + if IsDataRequest(x) then 0 else 1
  {
    assert (log + [x])[..|log|] == log;
  }

  /** The data request a call sends is one. */
  lemma DataRequestSent(config: map<string, Value>, apiMethod: string, startDate: string, endDate: string, w: World)
    ensures var sent := HttpGet(w, ApiParams(config, apiMethod, startDate, endDate));
      && |sent.world.log| == |w.log| + 1
      && IsDataRequest(sent.world.log[|w.log|])
      && CarriesRange(sent.world.log[|w.log|].params, apiMethod, startDate, endDate)
      && CountData(sent.world.log) == CountData(w.log) + 1
      && CountAuth(sent.world.log) == CountAuth(w.log)
      && (sent.result.Ok? ==> sent.world.log[|w.log|].reply == Json(sent.result.value))
  {
    ApiParamsValues(config, apiMethod, startDate, endDate);
    var sent := HttpGet(w, ApiParams(config, apiMethod, startDate, endDate));
    CountsSnoc(w.log, sent.world.log[|w.log|]);
  }

  /** A refresh leaves the log as it was, or adds its one authentication
      request; a successful one always adds it. */
  lemma RefreshLog(w: World)
    ensures var o := Refresh(w);
      || (o.result.Err? && o.world.log == w.log)
      || (ConfigMap(w.file).Ok? && o.world.log == HttpGet(w, SessionParams(ConfigMap(w.file).value)).world.log)
  {
  }

  /** A refresh adds to the log at most one request, an authentication request. */
  lemma RefreshSendsAuth(w: World)
    ensures var o := Refresh(w);
      && CountData(o.world.log) == CountData(w.log)
      && CountAuth(o.world.log) <= CountAuth(w.log) + 1
      && (o.result.Ok? ==> CountAuth(o.world.log) == CountAuth(w.log) + 1)
      && (|o.world.log| > |w.log| ==> !IsDataRequest(o.world.log[|w.log|]))
  {
    var log := Refresh(w).world.log;
    RefreshLog(w);
    if log != w.log {
      var config := ConfigMap(w.file).value;
      SessionParamsContents(config);
      CountsSnoc(w.log, log[|w.log|]);
    }
  }

  /** A refresh that fails leaves the file as it was; one that succeeds writes
      only required fields to it. */
  lemma RefreshWritesOnlyRequired(w: World)
    ensures var o := Refresh(w);
      && (o.result.Err? ==> o.world.file == w.file)
      && (o.result.Ok? ==> WritesOnlyRequired(w.file, o.world.file))
  {
    var o := Refresh(w);
    RefreshEffect(w);
    if o.result.Ok? {
      var info := o.world.log[|w.log|].reply.body.obj["SessionInformation"];
      OverwritePointwise(ConfigMap(w.file).value, UpdateEntries(info).value);
    }
  }

  /** The most data requests a call starting at `attempt` may send. */
  function MaxRequests(attempt: int): (r: nat) {
    if attempt <= 2 then 4 - attempt else 1
  }

  /** The retry bound, for any starting attempt: at most `MaxRequests(attempt)`
      data requests and fewer authentication requests than that. */
  lemma {:induction false} CallRequestBound(apiMethod: string, startDate: string, endDate: string, w: World, attempt: int)
    ensures var log := Call(apiMethod, startDate, endDate, w, attempt).world.log;
      && CountData(log) <= CountData(w.log) + MaxRequests(attempt)
      && CountAuth(log) < CountAuth(w.log) + MaxRequests(attempt)
    decreases RetriesLeft(attempt), 2
  {
    match ConfigMap(w.file)
    case Err(_) =>
    case Ok(config) =>
      DataRequestSent(config, apiMethod, startDate, endDate, w);
      AnswerRequestBound(apiMethod, startDate, endDate, HttpGet(w, ApiParams(config, apiMethod, startDate, endDate)), attempt);
  }

  /** After its data request, a call sends fewer than `MaxRequests(attempt)` data
      requests and as many authentication requests at most. */
  lemma {:induction false} AnswerRequestBound(apiMethod: string, startDate: string, endDate: string, sent: Outcome<Value>, attempt: int)
    ensures var log := Answer(apiMethod, startDate, endDate, sent, attempt).world.log;
      && CountData(log) < CountData(sent.world.log) + MaxRequests(attempt)
      && CountAuth(log) < CountAuth(sent.world.log) + MaxRequests(attempt)
    decreases RetriesLeft(attempt), 1
  {
    if sent.result.Ok? && sent.result.value.JObject? && SessionRejected(sent.result.value.obj) && attempt <= 2 {
      RetryRequestBound(apiMethod, startDate, endDate, sent.world, attempt);
    }
  }

  /** The retry sends one authentication request and a call with one more attempt. */
  lemma {:induction false} RetryRequestBound(apiMethod: string, startDate: string, endDate: string, w: World, attempt: int)
    requires attempt <= 2
    ensures var log := Retry(apiMethod, startDate, endDate, w, attempt).world.log;
      && CountData(log) < CountData(w.log) + MaxRequests(attempt)
      && CountAuth(log) < CountAuth(w.log) + MaxRequests(attempt)
    decreases RetriesLeft(attempt), 0
  {
    var refreshed := Refresh(w);
    RefreshSendsAuth(w);
    if refreshed.result.Ok? {
      CallRequestBound(apiMethod, startDate, endDate, refreshed.world, attempt + 1);
    }
  }

  /** Called with the default `attempt=1`, `make_api_call` sends at most three data
      requests and at most two authentication requests. */
  lemma MakeApiCallBound(apiMethod: string, startDate: string, endDate: string, w: World)
    ensures var log := Call(apiMethod, startDate, endDate, w, 1).world.log;
      CountData(log) - CountData(w.log) <= 3 && CountAuth(log) - CountAuth(w.log) <= 2
  {
    CallRequestBound(apiMethod, startDate, endDate, w, 1);
  }

  /** What a successful call returns: the body of the last reply, received for a
      data request; it is a dictionary, and it rejects the session only when no
      retry was left (the attempt number had passed 2). Every authentication
      request on the way was followed by one more data request. */
  lemma {:induction false} CallResult(apiMethod: string, startDate: string, endDate: string, w: World, attempt: int)
    ensures var o := Call(apiMethod, startDate, endDate, w, attempt);
      var log := o.world.log;
      o.result.Ok? ==>
        && |log| > |w.log|
        && IsDataRequest(log[|log| - 1])
        && log[|log| - 1].reply == Json(o.result.value)
        && o.result.value.JObject?
        && CountData(log) - CountData(w.log) == CountAuth(log) - CountAuth(w.log) + 1
        && (SessionRejected(o.result.value.obj) ==> attempt + (CountAuth(log) - CountAuth(w.log)) > 2)
    decreases RetriesLeft(attempt), 2
  {
    match ConfigMap(w.file)
    case Err(_) =>
    case Ok(config) =>
      var sent := HttpGet(w, ApiParams(config, apiMethod, startDate, endDate));
      assert Call(apiMethod, startDate, endDate, w, attempt) == Answer(apiMethod, startDate, endDate, sent, attempt);
      DataRequestSent(config, apiMethod, startDate, endDate, w);
      AnswerResult(apiMethod, startDate, endDate, sent, attempt);
  }

  /** A successful answer returns the body of the last reply, received for a data
      request, and sent as many data requests as authentication requests. */
  lemma {:induction false} AnswerResult(apiMethod: string, startDate: string, endDate: string, sent: Outcome<Value>, attempt: int)
    requires |sent.world.log| > 0 && IsDataRequest(sent.world.log[|sent.world.log| - 1])
    requires sent.result.Ok? ==> sent.world.log[|sent.world.log| - 1].reply == Json(sent.result.value)
    ensures var o := Answer(apiMethod, startDate, endDate, sent, attempt);
      var log := o.world.log;
      o.result.Ok? ==>
        && IsDataRequest(log[|log| - 1])
        && log[|log| - 1].reply == Json(o.result.value)
        && o.result.value.JObject?
        && CountData(log) - CountData(sent.world.log) == CountAuth(log) - CountAuth(sent.world.log)
        && (SessionRejected(o.result.value.obj) ==> attempt + (CountAuth(log) - CountAuth(sent.world.log)) > 2)
    decreases RetriesLeft(attempt), 1
  {
    if sent.result.Ok? && sent.result.value.JObject? && SessionRejected(sent.result.value.obj) && attempt <= 2 {
      assert Answer(apiMethod, startDate, endDate, sent, attempt) == Retry(apiMethod, startDate, endDate, sent.world, attempt);
      RetryResult(apiMethod, startDate, endDate, sent.world, attempt);
    } else {
      assert Answer(apiMethod, startDate, endDate, sent, attempt).world == sent.world;
    }
  }

  /** A successful retry ends with a data request and its reply, and sent as many
      data requests as authentication requests. */
  lemma {:induction false} RetryResult(apiMethod: string, startDate: string, endDate: string, w: World, attempt: int)
    requires attempt <= 2
    ensures var o := Retry(apiMethod, startDate, endDate, w, attempt);
      var log := o.world.log;
      o.result.Ok? ==>
        && |log| > |w.log|
        && IsDataRequest(log[|log| - 1])
        && log[|log| - 1].reply == Json(o.result.value)
        && o.result.value.JObject?
        && CountData(log) - CountData(w.log) == CountAuth(log) - CountAuth(w.log)
        && (SessionRejected(o.result.value.obj) ==> attempt + (CountAuth(log) - CountAuth(w.log)) > 2)
    decreases RetriesLeft(attempt), 0
  {
    var refreshed := Refresh(w);
    RefreshSendsAuth(w);
    if refreshed.result.Ok? {
      var o := Call(apiMethod, startDate, endDate, refreshed.world, attempt + 1);
      assert Retry(apiMethod, startDate, endDate, w, attempt) == o;
      CallResult(apiMethod, startDate, endDate, refreshed.world, attempt + 1);
    }
  }

  /** Every data request in `log` from position `from` on carries the method and
      the date range. */
  ghost predicate DataRequestsCarry(log: seq<Exchange>, from: nat, apiMethod: string, startDate: string, endDate: string) {
    forall i :: from <= i < |log| && IsDataRequest(log[i]) ==> CarriesRange(log[i].params, apiMethod, startDate, endDate)
  }

  lemma DataRequestsCarryExtend(a: seq<Exchange>, b: seq<Exchange>, from: nat, apiMethod: string, startDate: string, endDate: string)
    requires a <= b && from <= |a|
    requires DataRequestsCarry(a, from, apiMethod, startDate, endDate)
    requires DataRequestsCarry(b, |a|, apiMethod, startDate, endDate)
    ensures DataRequestsCarry(b, from, apiMethod, startDate, endDate)
  {
    forall i | from <= i < |b| && IsDataRequest(b[i])
      ensures CarriesRange(b[i].params, apiMethod, startDate, endDate)
    {
      if i < |a| {
        assert b[i] == a[i];
      }
    }
  }

  /** Every data request a call sends carries the method and the date range it
      was given. */
  lemma {:induction false} CallParams(apiMethod: string, startDate: string, endDate: string, w: World, attempt: int)
    ensures DataRequestsCarry(Call(apiMethod, startDate, endDate, w, attempt).world.log, |w.log|, apiMethod, startDate, endDate)
    decreases RetriesLeft(attempt), 2
  {
    match ConfigMap(w.file)
    case Err(_) =>
    case Ok(config) =>
      DataRequestSent(config, apiMethod, startDate, endDate, w);
      var sent := HttpGet(w, ApiParams(config, apiMethod, startDate, endDate));
      AnswerParams(apiMethod, startDate, endDate, sent, attempt);
      DataRequestsCarryExtend(sent.world.log, Answer(apiMethod, startDate, endDate, sent, attempt).world.log,
                              |w.log|, apiMethod, startDate, endDate);
  }

  lemma {:induction false} AnswerParams(apiMethod: string, startDate: string, endDate: string, sent: Outcome<Value>, attempt: int)
    ensures DataRequestsCarry(Answer(apiMethod, startDate, endDate, sent, attempt).world.log, |sent.world.log|,
                              apiMethod, startDate, endDate)
    decreases RetriesLeft(attempt), 1
  {
    if sent.result.Ok? && sent.result.value.JObject? && SessionRejected(sent.result.value.obj) && attempt <= 2 {
      RetryParams(apiMethod, startDate, endDate, sent.world, attempt);
    }
  }

  /** A refresh adds no data request, so whatever it adds to the log carries the
      method and the date range vacuously. */
  lemma RefreshCarries(w: World, apiMethod: string, startDate: string, endDate: string)
    ensures DataRequestsCarry(Refresh(w).world.log, |w.log|, apiMethod, startDate, endDate)
  {
    RefreshSendsAuth(w);
  }

  lemma {:induction false} RetryParams(apiMethod: string, startDate: string, endDate: string, w: World, attempt: int)
    requires attempt <= 2
    ensures DataRequestsCarry(Retry(apiMethod, startDate, endDate, w, attempt).world.log, |w.log|,
                              apiMethod, startDate, endDate)
    decreases RetriesLeft(attempt), 0
  {
    var refreshed := Refresh(w);
    RefreshCarries(w, apiMethod, startDate, endDate);
    if refreshed.result.Ok? {
      CallParams(apiMethod, startDate, endDate, refreshed.world, attempt + 1);
      DataRequestsCarryExtend(refreshed.world.log, Call(apiMethod, startDate, endDate, refreshed.world, attempt + 1).world.log,
                              |w.log|, apiMethod, startDate, endDate);
    }
  }

  /** Whatever happens during a call, the configuration file keeps every key
      outside the required fields with its value, and keeps every key it had. */
  lemma {:induction false} CallWritesOnlyRequiredFields(apiMethod: string, startDate: string, endDate: string, w: World, attempt: int)
    requires w.file.JObject?
    ensures WritesOnlyRequired(w.file, Call(apiMethod, startDate, endDate, w, attempt).world.file)
    decreases RetriesLeft(attempt), 2
  {
    match ConfigMap(w.file)
    case Err(_) =>
    case Ok(config) =>
      AnswerWritesOnlyRequiredFields(apiMethod, startDate, endDate, HttpGet(w, ApiParams(config, apiMethod, startDate, endDate)), attempt);
  }

  lemma {:induction false} AnswerWritesOnlyRequiredFields(apiMethod: string, startDate: string, endDate: string, sent: Outcome<Value>, attempt: int)
    requires sent.world.file.JObject?
    ensures WritesOnlyRequired(sent.world.file, Answer(apiMethod, startDate, endDate, sent, attempt).world.file)
    decreases RetriesLeft(attempt), 1
  {
    if sent.result.Ok? && sent.result.value.JObject? && SessionRejected(sent.result.value.obj) && attempt <= 2 {
      RetryWritesOnlyRequiredFields(apiMethod, startDate, endDate, sent.world, attempt);
    }
  }

  lemma {:induction false} RetryWritesOnlyRequiredFields(apiMethod: string, startDate: string, endDate: string, w: World, attempt: int)
    requires attempt <= 2 && w.file.JObject?
    ensures WritesOnlyRequired(w.file, Retry(apiMethod, startDate, endDate, w, attempt).world.file)
    decreases RetriesLeft(attempt), 0
  {
    var refreshed := Refresh(w);
    RefreshWritesOnlyRequired(w);
    if refreshed.result.Ok? {
      CallWritesOnlyRequiredFields(apiMethod, startDate, endDate, refreshed.world, attempt + 1);
      WritesOnlyRequiredTransitive(w.file, refreshed.world.file,
                                   Call(apiMethod, startDate, endDate, refreshed.world, attempt + 1).world.file);
    }
  }

  // ---------------------------------------------------------------------------
  // Scenarios.

  /** A reply that grants a session with the given information. */
  function SessionGrant(info: map<string, Value>): (r: Value) {
    JObject(map["SessionInformation" := JObject(info)])
  }

  /** A reply that rejects the session. */
  predicate Rejects(v: Value) {
    v.JObject? && SessionRejected(v.obj)
  }

  /** A reply that does not reject the session is returned as it came, after one
      request, and nothing is written to the file. */
  lemma AcceptedReplyReturnedAtOnce(apiMethod: string, startDate: string, endDate: string,
                                    config: map<string, Value>, data: Value, later: seq<Reply>, attempt: int)
    requires ConfigMap(JObject(config)).Ok?
    requires data.JObject? && !SessionRejected(data.obj)
    ensures Call(apiMethod, startDate, endDate, World(JObject(config), [Json(data)] + later, []), attempt)
         == Outcome(Ok(data), World(JObject(config), later,
                                    [Exchange(ApiParams(config, apiMethod, startDate, endDate), Json(data))]))
  {
    assert ([Json(data)] + later)[1..] == later;
  }

  /** A call on a usable configuration sends its data request first. */
  lemma CallSends(apiMethod: string, startDate: string, endDate: string, w: World, attempt: int)
    requires ConfigMap(w.file).Ok?
    ensures Call(apiMethod, startDate, endDate, w, attempt)
         == Answer(apiMethod, startDate, endDate, HttpGet(w, ApiParams(ConfigMap(w.file).value, apiMethod, startDate, endDate)), attempt)
  {
  }

  /** A refresh whose reply grants a session merges the session information into
      the configuration and writes its required fields to the file. */
  lemma RefreshGranted(w: World, info: map<string, Value>)
    requires ConfigMap(w.file).Ok?
    requires w.script != [] && w.script[0] == Json(SessionGrant(info))
    ensures var config := ConfigMap(w.file).value;
      Refresh(w) == Outcome(Ok(config + info),
                            World(JObject(Overwrite(config, info)), w.script[1..],
                                  w.log + [Exchange(SessionParams(config), Json(SessionGrant(info)))]))
  {
    OverwriteMerged(ConfigMap(w.file).value, info);
  }

  /** Session information that is not a dict goes through `dict.update` too: an
      empty string or list changes nothing, so the refresh succeeds and writes
      the file back as it was; a non-empty string raises ValueError and leaves
      the file alone. */
  lemma SessionInformationNotADict(w: World, info: Value)
    requires ConfigMap(w.file).Ok?
    requires info.JStr? || info == JArray([])
    requires w.script != [] && w.script[0] == Json(JObject(map["SessionInformation" := info]))
    ensures info.JStr? && info.s != [] ==> Refresh(w).result == Err(ValueError) && Refresh(w).world.file == w.file
    ensures info == JStr([]) || info == JArray([]) ==>
      Refresh(w).result == Ok(ConfigMap(w.file).value) && Refresh(w).world.file == w.file
  {
    var config := ConfigMap(w.file).value;
    assert UpdateEntries(JArray([])) == Ok(map[]);
    assert config + map[] == config;
    OverwriteMerged(config, map[]);
    OverwritePointwise(config, map[]);
    assert Overwrite(config, map[]) == config;
  }

  /** A rejected session is refreshed once and the call is repeated with the new
      session; the second reply is returned, and the file now holds the required
      fields of the session information. */
  lemma RetrySucceedsAfterOneRefresh(apiMethod: string, startDate: string, endDate: string,
                                     config: map<string, Value>, info: map<string, Value>,
                                     rejected: Value, data: Value)
    requires ConfigMap(JObject(config)).Ok?
    requires Rejects(rejected)
    requires data.JObject? && !SessionRejected(data.obj)
    ensures var renewed := Overwrite(config, info);
      && Call(apiMethod, startDate, endDate,
              World(JObject(config), [Json(rejected), Json(SessionGrant(info)), Json(data)], []), 1)
         == Outcome(Ok(data), World(JObject(renewed), [], [
              Exchange(ApiParams(config, apiMethod, startDate, endDate), Json(rejected)),
              Exchange(SessionParams(config), Json(SessionGrant(info))),
              Exchange(ApiParams(renewed, apiMethod, startDate, endDate), Json(data))]))
      && ("SessionID" in info && "SessionPassword" in info ==>
            ApiParams(renewed, apiMethod, startDate, endDate)["SP"] == info["SessionPassword"])
  {
    var w0 := World(JObject(config), [Json(rejected), Json(SessionGrant(info)), Json(data)], []);
    CallSends(apiMethod, startDate, endDate, w0, 1);
    var sent0 := HttpGet(w0, ApiParams(config, apiMethod, startDate, endDate));
    assert sent0.world.script == [Json(SessionGrant(info)), Json(data)];
    assert Answer(apiMethod, startDate, endDate, sent0, 1) == Retry(apiMethod, startDate, endDate, sent0.world, 1);
    RefreshGranted(sent0.world, info);
    var renewed := Overwrite(config, info);
    var w1 := Refresh(sent0.world).world;
    assert w1.script == [Json(data)];
    assert Retry(apiMethod, startDate, endDate, sent0.world, 1) == Call(apiMethod, startDate, endDate, w1, 2);
    OverwriteKeepsConfigValid(config, info);
    CallSends(apiMethod, startDate, endDate, w1, 2);
    var sent1 := HttpGet(w1, ApiParams(renewed, apiMethod, startDate, endDate));
    assert sent1.result == Ok(data);
    assert Answer(apiMethod, startDate, endDate, sent1, 2) == Outcome(Ok(data), sent1.world);
    assert sent1.world == World(JObject(renewed), [], [
              Exchange(ApiParams(config, apiMethod, startDate, endDate), Json(rejected)),
              Exchange(SessionParams(config), Json(SessionGrant(info))),
              Exchange(ApiParams(renewed, apiMethod, startDate, endDate), Json(data))]);
    OverwritePointwise(config, info);
    ApiParamsValues(renewed, apiMethod, startDate, endDate);
  }

  /** With every data reply rejecting the session and every refresh granted, the
      third reply is returned as a success, rejection and all: no error is raised
      for a session still rejected after two refreshes. */
  lemma ThirdRejectionReturned(apiMethod: string, startDate: string, endDate: string,
                               config: map<string, Value>, info1: map<string, Value>, info2: map<string, Value>,
                               rejected1: Value, rejected2: Value, rejected3: Value)
    requires ConfigMap(JObject(config)).Ok?
    requires Rejects(rejected1) && Rejects(rejected2) && Rejects(rejected3)
    ensures var o := Call(apiMethod, startDate, endDate,
                          World(JObject(config), [Json(rejected1), Json(SessionGrant(info1)), Json(rejected2),
                                                  Json(SessionGrant(info2)), Json(rejected3)], []), 1);
      o.result == Ok(rejected3) && |o.world.log| == 5 && o.world.script == []
  {
    var w0 := World(JObject(config), [Json(rejected1), Json(SessionGrant(info1)), Json(rejected2),
                                      Json(SessionGrant(info2)), Json(rejected3)], []);
    CallSends(apiMethod, startDate, endDate, w0, 1);
    var sent1 := HttpGet(w0, ApiParams(config, apiMethod, startDate, endDate));
    assert sent1.world.script == [Json(SessionGrant(info1)), Json(rejected2), Json(SessionGrant(info2)), Json(rejected3)];
    assert Answer(apiMethod, startDate, endDate, sent1, 1) == Retry(apiMethod, startDate, endDate, sent1.world, 1);
    RefreshGranted(sent1.world, info1);
    var c2 := Overwrite(config, info1);
    var w1 := Refresh(sent1.world).world;
    assert w1.script == [Json(rejected2), Json(SessionGrant(info2)), Json(rejected3)];
    assert Retry(apiMethod, startDate, endDate, sent1.world, 1) == Call(apiMethod, startDate, endDate, w1, 2);
    OverwriteKeepsConfigValid(config, info1);
    CallSends(apiMethod, startDate, endDate, w1, 2);
    var sent2 := HttpGet(w1, ApiParams(c2, apiMethod, startDate, endDate));
    assert sent2.world.script == [Json(SessionGrant(info2)), Json(rejected3)];
    assert Answer(apiMethod, startDate, endDate, sent2, 2) == Retry(apiMethod, startDate, endDate, sent2.world, 2);
    RefreshGranted(sent2.world, info2);
    var c3 := Overwrite(c2, info2);
    var w2 := Refresh(sent2.world).world;
    assert w2.script == [Json(rejected3)];
    assert Retry(apiMethod, startDate, endDate, sent2.world, 2) == Call(apiMethod, startDate, endDate, w2, 3);
    OverwriteKeepsConfigValid(c2, info2);
    CallSends(apiMethod, startDate, endDate, w2, 3);
    var sent3 := HttpGet(w2, ApiParams(c3, apiMethod, startDate, endDate));
    assert sent3.world.script == [];
    assert |sent3.world.log| == 5;
  }
}
