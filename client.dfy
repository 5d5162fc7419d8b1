/**
 * The Blue Canary HTTP client (src/Client.php): it keeps construction-time
 * parameters, the four URL parts and a batch of metrics, builds one request
 * per call and hands it to an HTTP transport, synchronously or not.
 */
module CanaryClient {
  import opened Errors
  import opened Values
  import opened Text
  import opened Metrics
  import opened Endpoint
  import opened Params

  /**
   * What the client hands the transport. A GET carries the filtered parameters
   * as its query string, a POST carries them (with the metrics) as its JSON body;
   * neither has headers.
   */
  datatype Request =
    | Get(url: string, query: map<string, Value>)
    | Post(url: string, body: map<string, Value>)

  /** The transport's answer: a response to `send`, a promise from `sendAsync`; both opaque. */
  datatype Reply = Response(id: nat) | Promise(id: nat)

  /** One call the transport received. */
  datatype Sent = Sent(request: Request, options: map<string, Value>, async: bool)

  /** The HTTP transport the client is given, recording every request it is handed. */
  class Transport {
    var history: seq<Sent>

    constructor ()
      ensures history == []
    {
      history := [];
    }

    /** `send`: the request goes out and a response comes back. */
    method Send(request: Request, options: map<string, Value>) returns (reply: Reply)
      modifies this
      ensures history == old(history) + [Sent(request, options, false)]
      ensures reply == Response(|old(history)|)
    {
      reply := Response(|history|);
      history := history + [Sent(request, options, false)];
    }

    /** `sendAsync`: the request is queued and a promise comes back. */
    method SendAsync(request: Request, options: map<string, Value>) returns (reply: Reply)
      modifies this
      ensures history == old(history) + [Sent(request, options, true)]
      ensures reply == Promise(|old(history)|)
    {
      reply := Promise(|history|);
      history := history + [Sent(request, options, true)];
    }
  }

  /** The four fields of the `toArray()` of each metric, in batch order. */
  function MetricsArray(ms: seq<Metric>): (r: seq<Value>)
    ensures |r| == |ms|
    ensures forall i :: 0 <= i < |ms| ==> r[i] == ToArray(ms[i])
  {
    if ms == [] then [] else [ToArray(ms[0])] + MetricsArray(ms[1..])
  }

  /** `buildPostBody`: the call's parameters with `metrics` set to the serialised batch, then filtered and cast. */
  function PostBody(merged: map<string, Value>, metrics: seq<Metric>): (body: map<string, Value>)
    requires metrics != []
    ensures body.Keys == (merged.Keys + {"metrics"}) * AllowedSet
    ensures body["metrics"] == List(MetricsArray(metrics))
  {
    FilterAndCast(merged["metrics" := List(MetricsArray(metrics))])
  }

  /** The state one client and its transport are in. */
  datatype Snapshot = Snapshot(
    parameters: map<string, Value>,
    uri: Parts,
    metrics: seq<Metric>,
    sent: seq<Sent>)

  /** `createRequest`'s outcome: the URL parts `setUri` left, and the request or the exception. */
  datatype Built = Built(uri: Parts, request: Result<Request>)

  /**
   * `createRequest`: call-time parameters over the stored ones; the method
   * from the batch; `setUri`, `validateUri` and `getUri` in turn, each able to
   * throw; then the query string for GET or the body for POST.
   */
  function BuildRequest(parameters: map<string, Value>, uri: Parts, metrics: seq<Metric>, call: map<string, Value>): (b: Built)
    requires WellFormed(uri)
    ensures WellFormed(b.uri)
    ensures var merged, applied := Merge(parameters, call), Endpoint.SetUri(uri, Merge(parameters, call));
      && b.uri == applied.uri
      && (applied.rejected.Some? ==> b.request == Err(UnsupportedPart(applied.rejected.value)))
      && (applied.rejected.None? && ValidateUri(applied.uri).Fail? ==> b.request == Err(ValidateUri(applied.uri).error))
      && (b.request.Ok? <==> applied.rejected.None? && ValidateUri(applied.uri) == Pass)
      && (b.request.Ok? ==> b.request.value.url == EndpointUri(b.uri))
      && (b.request.Ok? ==> (b.request.value.Post? <==> metrics != []))
      && (b.request.Ok? && b.request.value.Get? ==> b.request.value.query == FilterAndCast(merged))
      && (b.request.Ok? && b.request.value.Post? ==> b.request.value.body == PostBody(merged, metrics))
  {
    var merged := Merge(parameters, call);
    var applied := Endpoint.SetUri(uri, merged);
    SetUriParts(uri, merged);
    if applied.rejected.Some? then Built(applied.uri, Err(UnsupportedPart(applied.rejected.value)))
    else
      match ValidateUri(applied.uri)
      case Fail(e) => Built(applied.uri, Err(e))
      case Pass =>
        var url := EndpointUri(applied.uri);
        Built(applied.uri, Ok(if metrics == [] then Get(url, FilterAndCast(merged)) else Post(url, PostBody(merged, metrics))))
  }

  /** `empty($parameters['async'])` fails: the call asks for an asynchronous send. */
  predicate IsAsync(call: map<string, Value>) {
    Lookup(call, "async").Some? && Truthy(call["async"])
  }

  /** The outcome of `request`: the state after it and what it returned or threw. */
  datatype Performed = Performed(after: Snapshot, reply: Result<Reply>)

  /**
   * `request`: build the request; only once that succeeds are the options
   * split off, the batch cleared and the request handed to `send` or
   * `sendAsync`. An exception while building leaves the batch and the
   * transport as they were, though `setUri` has already run.
   */
  function Perform(s: Snapshot, call: map<string, Value>): (p: Performed)
    requires WellFormed(s.uri)
    ensures WellFormed(p.after.uri) && p.after.parameters == s.parameters
    ensures p.reply.Err? ==> p.after.metrics == s.metrics && p.after.sent == s.sent
    ensures p.reply.Ok? ==> p.after.metrics == [] && |p.after.sent| == |s.sent| + 1 && p.after.sent[..|s.sent|] == s.sent
    ensures p.reply.Ok? ==> (p.reply.value.Promise? <==> IsAsync(call)) && p.reply.value.id == |s.sent|
    ensures var b := BuildRequest(s.parameters, s.uri, s.metrics, call);
      && p.after.uri == b.uri
      && (p.reply.Ok? <==> b.request.Ok?)
      && (b.request.Err? ==> p == Performed(s.(uri := b.uri), Err(b.request.error)))
      && (b.request.Ok? ==> p.after.sent == s.sent + [Sent(b.request.value, ExtractOptions(call), IsAsync(call))])
  {
    var b := BuildRequest(s.parameters, s.uri, s.metrics, call);
    match b.request
    case Err(e) => Performed(s.(uri := b.uri), Err(e))
    case Ok(req) =>
      var async := IsAsync(call);
      var sent := s.sent + [Sent(req, ExtractOptions(call), async)];
      var reply := if async then Promise(|s.sent|) else Response(|s.sent|);
      assert sent[..|s.sent|] == s.sent;
      Performed(Snapshot(s.parameters, b.uri, [], sent), Ok(reply))
  }

  /** The state right after `new Client($guzzle, $parameters)` on a transport that has sent nothing. */
  function Constructed(params: map<string, Value>): (s: Snapshot)
    requires Takeable(Merge(Defaults, params))
    ensures WellFormed(s.uri) && s.metrics == [] && s.sent == []
    ensures s.parameters == Merge(Defaults, params)
  {
    var parameters := Merge(Defaults, params);
    Snapshot(parameters, Endpoint.SetUri(InitialUri, parameters).uri, [], [])
  }

  /**
   * The method names a `Client` answers to, folded to lower case as PHP
   * compares them; `__call` in a subclass finds these with `method_exists`.
   */
  const ClientMethods: set<string> := {
    "__construct", "metric", "request", "createrequest", "buildgetparameters", "buildpostbody",
    "getparameters", "seturi", "geturi", "validateuri", "isuuidvalid", "iscounternamevalid",
    "getmethod", "extractguzzleoptions", "getmetrics", "clearmetrics"
  }

  /** A call-time URL part with text wins over the stored parameters and the current part. */
  lemma CallTimePartWins(parameters: map<string, Value>, uri: Parts, metrics: seq<Metric>,
                         call: map<string, Value>, k: string, t: string)
    requires WellFormed(uri) && Takeable(Merge(parameters, call))
    requires k in UriKeySet && k in call && call[k] == Str(t)
    ensures BuildRequest(parameters, uri, metrics, call).uri[k] == Trim(t, '/')
  {
    OverrideWins(uri, Merge(parameters, call), k, t);
  }

  /** A URL part the call leaves out falls back to the stored parameter, whatever the part held. */
  lemma StoredPartFallback(parameters: map<string, Value>, uri: Parts, metrics: seq<Metric>,
                           call: map<string, Value>, k: string, t: string)
    requires WellFormed(uri) && Takeable(Merge(parameters, call))
    requires k in UriKeySet && k !in call && k in parameters && parameters[k] == Str(t)
    ensures BuildRequest(parameters, uri, metrics, call).uri[k] == Trim(t, '/')
  {
    OverrideWins(uri, Merge(parameters, call), k, t);
  }

  /** Each metric of a POST body reads back as the batch's metric, in order, an int metric's value truncated. */
  lemma PostBodyReadsBack(merged: map<string, Value>, metrics: seq<Metric>, i: int)
    requires metrics != [] && 0 <= i < |metrics|
    ensures PostBody(merged, metrics)["metrics"].List?
    ensures var items := PostBody(merged, metrics)["metrics"].items;
      |items| == |metrics| && FromArray(items[i]) ==
        Some(if metrics[i].numType == "int" then metrics[i].(value := Trunc(metrics[i].value) as real) else metrics[i])
  {
    ToArrayRoundTrip(metrics[i]);
  }

  /**
   * The URL of a built request is the one the source's `getUri` gives, as
   * written, whenever the version text occurs in the joined parts only as the
   * version part itself.
   */
  lemma BuiltUrlAsWritten(parameters: map<string, Value>, uri: Parts, metrics: seq<Metric>, call: map<string, Value>)
    requires WellFormed(uri)
    requires var b := BuildRequest(parameters, uri, metrics, call);
      b.request.Ok? && VersionOnlyOwnPart(b.uri)
    ensures var b := BuildRequest(parameters, uri, metrics, call); b.request.value.url == RewrittenUri(b.uri)
  {
    RewrittenAgrees(BuildRequest(parameters, uri, metrics, call).uri);
  }

  /** The data and the options of one call never share a key, and the options never hold a data key. */
  lemma SentSeparatesDataAndOptions(s: Snapshot, call: map<string, Value>)
    requires WellFormed(s.uri) && Perform(s, call).reply.Ok?
    ensures var sent := Perform(s, call).after.sent[|s.sent|];
      && sent.options == ExtractOptions(call)
      && (sent.request.Get? ==> sent.request.query.Keys !! sent.options.Keys)
      && (sent.request.Post? ==> sent.request.body.Keys !! sent.options.Keys)
      && (sent.async <==> IsAsync(call))
  {
    var b := BuildRequest(s.parameters, s.uri, s.metrics, call);
    assert Perform(s, call).after.sent == s.sent + [Sent(b.request.value, ExtractOptions(call), IsAsync(call))];
  }

  /** The part `new Client` stores for `k`: the trimmed text of the given or default value, `""` for null. */
  function ConstructedPart(parameters: map<string, Value>, k: string): string {
    if k in parameters && parameters[k] != Null && PartText(parameters[k]).Some? then Trim(PartText(parameters[k]).value, '/')
    else ""
  }

  /** The constructor's `setUri` leaves each part as the stored value's text, trimmed, or empty. */
  lemma ConstructedUri(params: map<string, Value>)
    requires Takeable(Merge(Defaults, params))
    ensures forall k :: k in UriKeySet ==> Constructed(params).uri[k] == ConstructedPart(Merge(Defaults, params), k)
  {
    assert forall k :: k in InitialUri ==> InitialUri[k] == [];
    SetUriFromEmpty(InitialUri, Merge(Defaults, params));
  }

  /** `setUri` over empty parts takes each part from the parameters, or leaves it empty. */
  lemma SetUriFromEmpty(uri: Parts, parameters: map<string, Value>)
    requires WellFormed(uri) && Takeable(parameters)
    requires forall k :: k in uri ==> uri[k] == []
    ensures forall k :: k in UriKeySet ==> Endpoint.SetUri(uri, parameters).uri[k] == ConstructedPart(parameters, k)
  {
    SetUriParts(uri, parameters);
    TrimEmpty('/');
  }

  /**
   * A call that names no URL part leaves the parts the constructor set:
   * `setUri` runs again over the same stored values, and an empty part stays empty.
   */
  lemma CallKeepsConstructedParts(params: map<string, Value>, call: map<string, Value>)
    requires Takeable(Merge(Defaults, params))
    requires forall k :: k in UriKeySet ==> k !in call
    ensures var s := Constructed(params);
      var b := BuildRequest(s.parameters, s.uri, s.metrics, call);
      && Endpoint.SetUri(s.uri, Merge(s.parameters, call)).rejected.None?
      && forall k :: k in UriKeySet ==> b.uri[k] == ConstructedPart(Merge(Defaults, params), k)
  {
    var parameters := Merge(Defaults, params);
    var s := Constructed(params);
    var merged := Merge(parameters, call);
    ConstructedUri(params);
    assert Takeable(merged);
    SetUriParts(s.uri, merged);
    TrimEmpty('/');
    var u := Endpoint.SetUri(s.uri, merged).uri;
    forall k | k in UriKeySet ensures u[k] == ConstructedPart(parameters, k) {
      assert k in Defaults && merged[k] == parameters[k];
    }
  }

  /** A call that names no URL part leaves the parts exactly as the constructor set them. */
  lemma CallKeepsConstructedUri(params: map<string, Value>, call: map<string, Value>)
    requires Takeable(Merge(Defaults, params))
    requires forall k :: k in UriKeySet ==> k !in call
    ensures var s := Constructed(params);
      && Endpoint.SetUri(s.uri, Merge(s.parameters, call)).rejected.None?
      && BuildRequest(s.parameters, s.uri, s.metrics, call).uri == s.uri
  {
    CallKeepsConstructedParts(params, call);
    ConstructedUri(params);
  }

  /**
   * The first call on a new client, naming no URL part, throws what
   * `validateUri` finds wrong with the constructed parts and changes nothing,
   * or is the first request sent.
   */
  lemma FirstCall(params: map<string, Value>, call: map<string, Value>)
    requires Takeable(Merge(Defaults, params))
    requires forall k :: k in UriKeySet ==> k !in call
    ensures var s := Constructed(params);
      ValidateUri(s.uri).Fail? ==> Perform(s, call) == Performed(s, Err(ValidateUri(s.uri).error))
    ensures var s := Constructed(params);
      ValidateUri(s.uri) == Pass ==> Perform(s, call).reply == Ok(if IsAsync(call) then Promise(0) else Response(0))
  {
    CallKeepsConstructedUri(params, call);
  }

  class Client {
    const guzzle: Transport
    var parameters: map<string, Value>
    var uri: Parts
    var metrics: seq<Metric>

    /** The four URL parts are there and every metric of the batch passed construction. */
    predicate Valid()
      reads this
    {
      WellFormed(uri) && forall i :: 0 <= i < |metrics| ==> Metrics.Valid(metrics[i])
    }

    /** The client and its transport, as a value. */
    function State(): Snapshot
      reads this, guzzle
    {
      Snapshot(parameters, uri, metrics, guzzle.history)
    }

    /** The constructor: the given parameters over the defaults, then `setUri` with them. */
    constructor (guzzle: Transport, params: map<string, Value>)
      requires Takeable(Merge(Defaults, params))
      ensures Valid() && this.guzzle == guzzle
      ensures parameters == Merge(Defaults, params) && metrics == []
      ensures uri == Endpoint.SetUri(InitialUri, Merge(Defaults, params)).uri
    {
      this.guzzle := guzzle;
      parameters := Merge(Defaults, params);
      uri := InitialUri;
      metrics := [];
      new;
      assert WellFormed(InitialUri);
      SetUriParts(InitialUri, parameters);
      assert Endpoint.SetUri(InitialUri, parameters).rejected.None?;
      var rejected := SetUri(parameters);
      assert uri == Endpoint.SetUri(InitialUri, parameters).uri;
    }

    /** `metric`: a metric, or the fields to build one, joins the end of the batch. */
    method Metric(arg: MetricArg) returns (r: Result<Metric>)
      requires Valid() && (arg.Ready? ==> Metrics.Valid(arg.m))
      modifies this
      ensures Valid() && parameters == old(parameters) && uri == old(uri)
      ensures r == MetricOf(arg)
      ensures r.Ok? ==> metrics == old(metrics) + [r.value] && GetMethod() == "POST"
      ensures r.Err? ==> metrics == old(metrics)
    {
      r := MetricOf(arg);
      if r.Ok? {
        metrics := metrics + [r.value];
      }
    }

    /** `getMethod`: POST while metrics wait to be sent, GET otherwise. */
    function GetMethod(): (m: string)
      reads this
      ensures m == "POST" <==> metrics != []
      ensures m == "GET" <==> metrics == []
    {
      if metrics != [] then "POST" else "GET"
    }

    /** `getMetrics`. */
    function GetMetrics(): seq<Metric>
      reads this
    {
      metrics
    }

    /** `clearMetrics`: the batch is emptied and nothing else changes. */
    method ClearMetrics()
      modifies this
      ensures metrics == [] && parameters == old(parameters) && uri == old(uri)
    {
      metrics := [];
    }

    /**
     * `setUri`'s loop: each part in turn becomes its trimmed override or its
     * own trimmed value; the first part that has no text stops it.
     */
    method SetUri(parts: map<string, Value>) returns (rejected: Option<string>)
      requires WellFormed(uri)
      modifies this
      ensures var a := Endpoint.SetUri(old(uri), parts); uri == a.uri && rejected == a.rejected
      ensures parameters == old(parameters) && metrics == old(metrics)
    {
      var i := 0;
      while i < |UriKeys|
        invariant 0 <= i <= |UriKeys| && WellFormed(uri)
        invariant ApplyParts(uri, parts, UriKeys[i..]) == ApplyParts(old(uri), parts, UriKeys)
        invariant parameters == old(parameters) && metrics == old(metrics)
      {
        var k := UriKeys[i];
        assert UriKeys[i..] == [k] + UriKeys[i + 1..];
        var t := NewPart(uri, parts, k);
        if t.None? {
          return Some(k);
        }
        uri := uri[k := t.value];
        i := i + 1;
      }
      return None;
    }

    /**
     * `getUri` in its corrected form: base, version marker, UUID and counter
     * name. It is what the source's replacement gives whenever the version
     * text occurs in the joined parts only as the version part itself.
     */
    function GetUri(): (r: string)
      reads this
      requires WellFormed(uri)
      ensures StartsWith(r, uri["base_uri"] + "/" + VersionSegment(uri["api_version"]) + "/")
      ensures VersionOnlyOwnPart(uri) ==> r == RewrittenUri(uri)
    {
      assert VersionOnlyOwnPart(uri) ==> RewrittenUri(uri) == EndpointUri(uri) by {
        if VersionOnlyOwnPart(uri) {
          RewrittenAgrees(uri);
        }
      }
      EndpointUri(uri)
    }

    /** `createRequest`, with the URL parts it rewrites on the way. */
    method CreateRequest(call: map<string, Value>) returns (r: Result<Request>)
      requires Valid()
      modifies this
      ensures Valid() && parameters == old(parameters) && metrics == old(metrics)
      ensures var b := BuildRequest(old(parameters), old(uri), old(metrics), call); uri == b.uri && r == b.request
    {
      var merged := Merge(parameters, call);
      var verb := GetMethod();
      var rejected := SetUri(merged);
      if rejected.Some? {
        return Err(UnsupportedPart(rejected.value));
      }
      var valid := ValidateUri(uri);
      if valid.Fail? {
        return Err(valid.error);
      }
      var url := GetUri();
      if verb == "GET" {
        var query := GetParameters(merged);
        r := Ok(Get(url, query));
      } else {
        var body := GetParameters(merged["metrics" := List(MetricsArray(metrics))]);
        r := Ok(Post(url, body));
      }
    }

    /** `request`: build, split off the options, clear the batch, send. */
    method Request(call: map<string, Value>) returns (r: Result<Reply>)
      requires Valid()
      modifies this, guzzle
      ensures Valid()
      ensures var p := Perform(old(State()), call); State() == p.after && r == p.reply
    {
      var request :- CreateRequest(call);
      var options := ExtractOptions(call);
      ClearMetrics();
      if !IsAsync(call) {
        var reply := guzzle.Send(request, options);
        r := Ok(reply);
      } else {
        var reply := guzzle.SendAsync(request, options);
        r := Ok(reply);
      }
    }
  }

  /** `metric()`'s argument: a ready Metric, or the constructor's four arguments. */
  datatype MetricArg =
    | Ready(m: Metric)
    | Fields(key: string, value: real, unit: Option<string>, cast: string)

  /** The metric `metric()` appends: a ready one as is, otherwise a newly constructed one or its exception. */
  function MetricOf(arg: MetricArg): (r: Result<Metric>)
    requires arg.Ready? ==> Metrics.Valid(arg.m)
    ensures r.Ok? ==> Metrics.Valid(r.value)
    ensures arg.Ready? ==> r == Ok(arg.m)
    ensures arg.Fields? ==> r == NewMetric(arg.key, arg.value, arg.unit, arg.cast)
  {
    match arg
    case Ready(m) => Ok(m)
    case Fields(key, value, unit, cast) => NewMetric(key, value, unit, cast)
  }
}
