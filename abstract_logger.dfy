/**
 * The PSR-3 logger front end (src/AbstractLogger.php): the seven severity
 * methods, a minimum level below which calls are dropped, `log` by name or
 * rank, and `<level>Async` through `__call`, all in front of a client's `request`.
 */
module SeverityLogger {
  import opened Errors
  import opened Values
  import opened Params
  import opened Endpoint
  import opened Levels
  import opened CanaryClient

  /** The methods that log at their own level: every level of the table but `debug`. */
  const Severities: seq<string> := ["emergency", "alert", "critical", "error", "warning", "notice", "info"]

  /** The logger's other methods, lower-cased, on top of the client's. */
  const OtherMethods: set<string> := ClientMethods + {"setlevel", "log", "handlerequest", "__call"}

  /** The threshold before any `setLevel`: the rank of `debug`, the least severe level. */
  const DefaultMinLevel: int := 7

  /** `setLevel`'s new threshold: a string is looked up by name, falling back to 7; anything else is cast to int. */
  function Threshold(level: Value): int {
    match level
    case Str(s) => (match RankOf(PsrLevels, s) case Some(r) => r case None => DefaultMinLevel)
    case _ => ToInt(level)
  }

  /** Naming a level sets the threshold to its rank; an int sets it as is. */
  lemma ThresholdByName(i: int, n: int)
    requires 0 <= i < |PsrLevels|
    ensures Threshold(Str(PsrLevels[i].0)) == i
    ensures Threshold(Int(n)) == n
  {
    PsrTable();
    LookupAt(PsrLevels, i);
  }

  /** A string that names no level, a numeric one included, sets the threshold back to 7. */
  lemma ThresholdUnknownName(s: string)
    requires RankOf(PsrLevels, s).None?
    ensures Threshold(Str(s)) == DefaultMinLevel
  {
  }

  /** The numeric string "3" is a string, not a number: it names no level, so the threshold becomes 7. */
  lemma ThresholdNumericString()
    ensures Threshold(Str("3")) == DefaultMinLevel
  {
    assert forall i :: 0 <= i < |PsrLevels| ==> PsrLevels[i].0 != "3";
  }

  /** What `handleRequest` decides before `request`: drop the call, or forward these parameters. */
  datatype Plan = Skip | Forward(params: map<string, Value>)

  /**
   * `handleRequest`'s gate and merge. A level less severe than the threshold
   * is dropped. A name that is no level has no rank, and PHP's `int < null`
   * is false, so such a call is never dropped.
   */
  function Gate(minLevel: int, name: string, message: string, params: map<string, Value>): (p: Plan)
    ensures p.Skip? <==> RankOf(PsrLevels, name).Some? && minLevel < RankOf(PsrLevels, name).value
    ensures p.Forward? ==> p.params.Keys == params.Keys + {"status_code", "status_remark"}
    ensures p.Forward? ==> p.params["status_remark"] == Str(message)
    ensures p.Forward? && RankOf(PsrLevels, name).Some? ==> p.params["status_code"] == Int(RankOf(PsrLevels, name).value)
    ensures p.Forward? && RankOf(PsrLevels, name).None? ==> p.params["status_code"] == Null
    ensures p.Forward? ==> forall k :: k in params && k != "status_code" && k != "status_remark" ==> p.params[k] == params[k]
  {
    var rank := RankOf(PsrLevels, name);
    if rank.Some? && minLevel < rank.value then Skip
    else Forward(Merge(params, StatusEntries(rank, message)))
  }

  /** With the default threshold no call is dropped. */
  lemma DefaultPassesAll(name: string, message: string, params: map<string, Value>)
    ensures Gate(DefaultMinLevel, name, message, params).Forward?
  {
    PsrTable();
    if RankOf(PsrLevels, name).Some? {
      var i :| 0 <= i < |PsrLevels| && PsrLevels[i] == (name, RankOf(PsrLevels, name).value);
    }
  }

  /** Raising the threshold never drops a call that a lower one let through. */
  lemma GateMonotone(m: int, m': int, name: string, message: string, params: map<string, Value>)
    requires m <= m' && Gate(m, name, message, params).Forward?
    ensures Gate(m', name, message, params).Forward?
  {
  }

  /**
   * After `setLevel(a)` for a level name `a`, a call at level `b` is dropped
   * exactly when `b` is less severe than `a`.
   */
  lemma GateAfterSetLevel(i: int, j: int, message: string, params: map<string, Value>)
    requires 0 <= i < |PsrLevels| && 0 <= j < |PsrLevels|
    ensures Gate(Threshold(Str(PsrLevels[i].0)), PsrLevels[j].0, message, params).Skip? <==> i < j
  {
    ThresholdByName(i, 0);
    PsrTable();
    LookupAt(PsrLevels, j);
  }

  /** A name that is no level is sent with status code 0 once `getParameters` casts the null. */
  lemma UnknownNameSendsZero(m: int, name: string, message: string, params: map<string, Value>)
    requires RankOf(PsrLevels, name).None?
    ensures Gate(m, name, message, params).Forward?
    ensures FilterAndCast(Gate(m, name, message, params).params)["status_code"] == Int(0)
  {
    StatusCodeDefaultsToZero(Gate(m, name, message, params).params);
  }

  /** The outcome of `handleRequest`: the state after it, and the reply, nothing for a dropped call, or the exception. */
  datatype Handled = Handled(after: Snapshot, reply: Result<Option<Reply>>)

  /** `handleRequest`: a dropped call changes nothing; a forwarded one is `request` with the merged parameters. */
  function Handle(s: Snapshot, minLevel: int, name: string, message: string, params: map<string, Value>): (h: Handled)
    requires WellFormed(s.uri)
    ensures Gate(minLevel, name, message, params).Skip? ==> h == Handled(s, Ok(None))
    ensures h.reply.Ok? && h.reply.value.Some? ==>
      h.after.metrics == [] && |h.after.sent| == |s.sent| + 1 && h.after.sent[..|s.sent|] == s.sent
    ensures h.reply.Ok? && h.reply.value.Some? ==>
      Gate(minLevel, name, message, params).Forward? &&
      (h.reply.value.value.Promise? <==> IsAsync(Gate(minLevel, name, message, params).params))
    ensures h.reply.Err? ==> h.after.metrics == s.metrics && h.after.sent == s.sent
    ensures Gate(minLevel, name, message, params).Forward? ==>
      var p := Perform(s, Gate(minLevel, name, message, params).params);
      && h.after == p.after
      && (p.reply.Ok? ==> h.reply == Ok(Some(p.reply.value)))
      && (p.reply.Err? ==> h.reply == Err(p.reply.error))
  {
    match Gate(minLevel, name, message, params)
    case Skip => Handled(s, Ok(None))
    case Forward(call) =>
      var p := Perform(s, call);
      Handled(p.after, match p.reply case Ok(x) => Ok(Some(x)) case Err(e) => Err(e))
  }

  /** `log` resolves its level first: a rank names no level, the null name makes `handleRequest` throw. */
  function LogCall(s: Snapshot, minLevel: int, level: LevelArg, message: string, params: map<string, Value>): (h: Handled)
    requires WellFormed(s.uri)
    ensures LevelName(PsrLevels, level).Err? ==> h == Handled(s, Err(UnknownLevel))
    ensures LevelName(PsrLevels, level).Ok? ==> h == Handle(s, minLevel, LevelName(PsrLevels, level).value, message, params)
  {
    match LevelName(PsrLevels, level)
    case Err(e) => Handled(s, Err(e))
    case Ok(name) => Handle(s, minLevel, name, message, params)
  }

  /** `log(7)` names `debug`, which the gate lets through, so unlike `debug()` it sends a request. */
  lemma LogRankSevenSends(s: Snapshot, message: string, params: map<string, Value>)
    requires WellFormed(s.uri)
    ensures LevelName(PsrLevels, Numeric(7)) == Ok("debug")
    ensures LogCall(s, DefaultMinLevel, Numeric(7), message, params) ==
      Handle(s, DefaultMinLevel, "debug", message, params)
    ensures Gate(DefaultMinLevel, "debug", message, params).Forward?
  {
    PsrTable();
    LookupAt(PsrLevels, 7);
    DefaultPassesAll("debug", message, params);
  }

  /**
   * `__call`: `<name>Async` runs `<name>` with `async` set, and must return a
   * promise; a dropped call returns nothing, which PHP refuses as a promise.
   */
  function AsyncCall(s: Snapshot, minLevel: int, name: string, message: string, params: map<string, Value>): (p: Performed)
    requires WellFormed(s.uri)
    requires !DispatchAsync(Severities, OtherMethods, name).OtherMethod?
    ensures p.reply.Ok? ==> p.reply.value.Promise?
    ensures DispatchAsync(Severities, OtherMethods, name).Missing? ==> p == Performed(s, Err(MethodNotFound))
    ensures DispatchAsync(Severities, OtherMethods, name).Unsupported? ==> p == Performed(s, Err(NotSupported))
    ensures DispatchAsync(Severities, OtherMethods, name).Level? ==>
      var h := Handle(s, minLevel, AsyncTarget(name), message, params["async" := Bool(true)]);
      p == Performed(h.after, Promised(h.reply))
  {
    match DispatchAsync(Severities, OtherMethods, name)
    case Missing => Performed(s, Err(MethodNotFound))
    case Unsupported => Performed(s, Err(NotSupported))
    case Level(m) =>
      var call := params["async" := Bool(true)];
      var h := Handle(s, minLevel, m, message, call);
      GateKeepsAsync(minLevel, m, message, params);
      Performed(h.after, Promised(h.reply))
  }

  /** The `async` flag `__call` sets survives the merge of the status entries. */
  lemma GateKeepsAsync(minLevel: int, name: string, message: string, params: map<string, Value>)
    ensures var p := Gate(minLevel, name, message, params["async" := Bool(true)]);
      p.Forward? ==> IsAsync(p.params)
  {
    var p := Gate(minLevel, name, message, params["async" := Bool(true)]);
    if p.Forward? {
      assert p.params["async"] == Bool(true);
    }
  }

  /** What `__call` hands back from a severity method: its promise, or a type error when there is none. */
  function Promised(reply: Result<Option<Reply>>): (r: Result<Reply>)
    ensures reply.Ok? && reply.value.Some? ==> r == Ok(reply.value.value)
    ensures reply == Ok(None) ==> r == Err(NotAPromise)
    ensures reply.Err? ==> r == Err(reply.error)
  {
    match reply
    case Err(e) => Err(e)
    case Ok(None) => Err(NotAPromise)
    case Ok(Some(x)) => Ok(x)
  }

  /** An `<name>Async` call below the threshold throws for want of a promise and sends nothing. */
  lemma DroppedAsyncCallThrows(s: Snapshot, minLevel: int, name: string, message: string, params: map<string, Value>)
    requires WellFormed(s.uri)
    requires DispatchAsync(Severities, OtherMethods, name).Level?
    requires Gate(minLevel, AsyncTarget(name), message, params["async" := Bool(true)]).Skip?
    ensures AsyncCall(s, minLevel, name, message, params) == Performed(s, Err(NotAPromise))
  {
  }

  /**
   * An `<name>Async` call at or above the threshold is `request` with `async`
   * set and the status entries merged: when that request is sent, its promise comes back.
   */
  lemma ForwardedAsyncCallSends(s: Snapshot, minLevel: int, name: string, message: string, params: map<string, Value>)
    requires WellFormed(s.uri)
    requires DispatchAsync(Severities, OtherMethods, name).Level?
    requires Gate(minLevel, AsyncTarget(name), message, params["async" := Bool(true)]).Forward?
    ensures var call := Gate(minLevel, AsyncTarget(name), message, params["async" := Bool(true)]).params;
      && AsyncCall(s, minLevel, name, message, params).after == Perform(s, call).after
      && (Perform(s, call).reply.Ok? ==> AsyncCall(s, minLevel, name, message, params).reply == Ok(Promise(|s.sent|)))
      && (Perform(s, call).reply.Err? ==> AsyncCall(s, minLevel, name, message, params).reply == Perform(s, call).reply)
  {
    GateKeepsAsync(minLevel, AsyncTarget(name), message, params);
  }

  /**
   * With the default threshold, every severity call is exactly `request` with
   * the level's rank and the message merged over the caller's parameters.
   */
  lemma DefaultThresholdIsRequest(s: Snapshot, i: int, message: string, params: map<string, Value>)
    requires WellFormed(s.uri) && 0 <= i < |PsrLevels|
    ensures var call := Merge(params, StatusEntries(Some(i), message)); var p := Perform(s, call);
      && Handle(s, DefaultMinLevel, PsrLevels[i].0, message, params).after == p.after
      && (p.reply.Ok? ==> Handle(s, DefaultMinLevel, PsrLevels[i].0, message, params).reply == Ok(Some(p.reply.value)))
      && (p.reply.Err? ==> Handle(s, DefaultMinLevel, PsrLevels[i].0, message, params).reply == Err(p.reply.error))
  {
    PsrTable();
    LookupAt(PsrLevels, i);
    DefaultPassesAll(PsrLevels[i].0, message, params);
  }

  /** A logger in front of a client. */
  class Logger {
    var minLevel: int
    const client: Client

    constructor (client: Client)
      ensures this.client == client && minLevel == DefaultMinLevel
    {
      this.client := client;
      minLevel := DefaultMinLevel;
    }

    /** `setLevel`. */
    method SetLevel(level: Value)
      modifies this
      ensures minLevel == Threshold(level)
    {
      minLevel := Threshold(level);
    }

    /** `handleRequest`, which each of the seven severity methods calls with its own name. */
    method HandleRequest(name: string, message: string, params: map<string, Value>) returns (r: Result<Option<Reply>>)
      requires client.Valid()
      modifies client, client.guzzle
      ensures client.Valid()
      ensures var h := Handle(old(client.State()), minLevel, name, message, params);
        client.State() == h.after && r == h.reply
    {
      var rank := RankOf(PsrLevels, name);
      if rank.Some? && minLevel < rank.value {
        return Ok(None);
      }
      var reply := client.Request(Merge(params, StatusEntries(rank, message)));
      match reply
      case Ok(x) => r := Ok(Some(x));
      case Err(e) => r := Err(e);
    }

    /** `debug`: refused whatever the threshold. */
    method Debug(message: string, params: map<string, Value>) returns (r: Result<Option<Reply>>)
      ensures r == Err(NotSupported)
    {
      r := Err(NotSupported);
    }

    /** `log`. */
    method Log(level: LevelArg, message: string, params: map<string, Value>) returns (r: Result<Option<Reply>>)
      requires client.Valid()
      modifies client, client.guzzle
      ensures client.Valid()
      ensures var h := LogCall(old(client.State()), minLevel, level, message, params);
        client.State() == h.after && r == h.reply
    {
      var name := LevelName(PsrLevels, level);
      if name.Err? {
        return Err(name.error);
      }
      r := HandleRequest(name.value, message, params);
    }

    /** `__call`. */
    method CallAsync(name: string, message: string, params: map<string, Value>) returns (r: Result<Reply>)
      requires client.Valid() && !DispatchAsync(Severities, OtherMethods, name).OtherMethod?
      modifies client, client.guzzle
      ensures client.Valid()
      ensures var p := AsyncCall(old(client.State()), minLevel, name, message, params);
        client.State() == p.after && r == p.reply
    {
      var target := DispatchAsync(Severities, OtherMethods, name);
      match target
      case Missing =>
        r := Err(MethodNotFound);
      case Unsupported =>
        var thrown := Debug(message, params);
        r := Err(thrown.error);
      case Level(m) =>
        var reply := HandleRequest(m, message, params["async" := Bool(true)]);
        r := Promised(reply);
    }
  }
}
