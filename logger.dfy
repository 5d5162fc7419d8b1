/**
 * The Blue Canary logger (src/Logger.php): a client whose severity methods
 * send their rank and message with every request, with no threshold; `ok`
 * is a level of its own, `debug` is refused, and `<level>Async` goes through `__call`.
 * It adds no state to the client, so its operations act on a given `Client`.
 */
module CanaryLogger {
  import opened Errors
  import opened Values
  import opened Text
  import opened Params
  import opened Endpoint
  import opened Levels
  import opened CanaryClient

  /** The methods that log at their own level: the eight levels of the table but `debug`. */
  const Severities: seq<string> := ["emergency", "alert", "critical", "error", "warning", "notice", "info", "ok"]

  /** The logger's other methods, lower-cased, on top of the client's. */
  const OtherMethods: set<string> := ClientMethods + {"log", "handlerequest", "__call"}

  /**
   * `handleRequest`'s merge: the caller's parameters with `status_code` set to
   * the level's rank (null for a name that is no level) and `status_remark` to the message.
   */
  function LevelParams(name: string, message: string, params: map<string, Value>): (r: map<string, Value>)
    ensures r.Keys == params.Keys + {"status_code", "status_remark"}
    ensures r["status_remark"] == Str(message)
    ensures RankOf(CanaryLevels, name).Some? ==> r["status_code"] == Int(RankOf(CanaryLevels, name).value)
    ensures RankOf(CanaryLevels, name).None? ==> r["status_code"] == Null
    ensures forall k :: k in params && k != "status_code" && k != "status_remark" ==> r[k] == params[k]
  {
    Merge(params, StatusEntries(RankOf(CanaryLevels, name), message))
  }

  /** `log`: a rank is first turned into its name; one that names no level makes `handleRequest` throw. */
  function LogCall(s: Snapshot, level: LevelArg, message: string, params: map<string, Value>): (p: Performed)
    requires WellFormed(s.uri)
    ensures LevelName(CanaryLevels, level).Err? ==> p == Performed(s, Err(UnknownLevel))
    ensures LevelName(CanaryLevels, level).Ok? ==>
      p == Perform(s, LevelParams(LevelName(CanaryLevels, level).value, message, params))
  {
    match LevelName(CanaryLevels, level)
    case Err(e) => Performed(s, Err(e))
    case Ok(name) => Perform(s, LevelParams(name, message, params))
  }

  /** `log(255)` names `debug`, and is sent with status code 255, although `debug()` itself throws. */
  lemma LogRank255Sends(s: Snapshot, message: string, params: map<string, Value>)
    requires WellFormed(s.uri)
    ensures LevelName(CanaryLevels, Numeric(255)) == Ok("debug")
    ensures LogCall(s, Numeric(255), message, params) == Perform(s, LevelParams("debug", message, params))
    ensures LevelParams("debug", message, params)["status_code"] == Int(255)
  {
    CanaryTable();
    LookupAt(CanaryLevels, 8);
  }

  /** `log` with a level's rank sends what that level's own method sends. */
  lemma LogByRankIsLevel(s: Snapshot, i: int, message: string, params: map<string, Value>)
    requires WellFormed(s.uri) && 0 <= i < |CanaryLevels|
    ensures LogCall(s, Numeric(CanaryLevels[i].1), message, params) == Perform(s, LevelParams(CanaryLevels[i].0, message, params))
    ensures LevelParams(CanaryLevels[i].0, message, params)["status_code"] == Int(CanaryLevels[i].1)
  {
    CanaryTable();
    LevelNameOfRank(CanaryLevels, i);
    LookupAt(CanaryLevels, i);
  }

  /**
   * `__call`: `<name>Async` runs `<name>` with `async` set. With no
   * threshold every built request is sent asynchronously, so what comes back is a promise.
   */
  function AsyncCall(s: Snapshot, name: string, message: string, params: map<string, Value>): (p: Performed)
    requires WellFormed(s.uri)
    requires !DispatchAsync(Severities, OtherMethods, name).OtherMethod?
    ensures p.reply.Ok? ==> p.reply.value.Promise?
    ensures DispatchAsync(Severities, OtherMethods, name).Missing? ==> p == Performed(s, Err(MethodNotFound))
    ensures DispatchAsync(Severities, OtherMethods, name).Unsupported? ==> p == Performed(s, Err(NotSupported))
    ensures DispatchAsync(Severities, OtherMethods, name).Level? ==>
      p == Perform(s, LevelParams(AsyncTarget(name), message, params["async" := Bool(true)]))
  {
    match DispatchAsync(Severities, OtherMethods, name)
    case Missing => Performed(s, Err(MethodNotFound))
    case Unsupported => Performed(s, Err(NotSupported))
    case Level(m) =>
      AsyncFlagKept(m, message, params);
      Perform(s, LevelParams(m, message, params["async" := Bool(true)]))
  }

  /** The `async` flag `__call` sets survives the merge of the status entries. */
  lemma AsyncFlagKept(name: string, message: string, params: map<string, Value>)
    ensures IsAsync(LevelParams(name, message, params["async" := Bool(true)]))
  {
    assert LevelParams(name, message, params["async" := Bool(true)])["async"] == Bool(true);
  }

  /** `handleRequest`, which each of the eight severity methods calls with its own name. */
  method HandleRequest(c: Client, name: string, message: string, params: map<string, Value>) returns (r: Result<Reply>)
    requires c.Valid()
    modifies c, c.guzzle
    ensures c.Valid()
    ensures var p := Perform(old(c.State()), LevelParams(name, message, params));
      c.State() == p.after && r == p.reply
  {
    r := c.Request(LevelParams(name, message, params));
  }

  /** `debug`: always refused, as the abstract logger's `debug` is; the two classes each declare it. */
  method Debug(message: string, params: map<string, Value>) returns (r: Result<Reply>)
    ensures r == Err(NotSupported)
  {
    r := Err(NotSupported);
  }

  /** `log`. */
  method Log(c: Client, level: LevelArg, message: string, params: map<string, Value>) returns (r: Result<Reply>)
    requires c.Valid()
    modifies c, c.guzzle
    ensures c.Valid()
    ensures var p := LogCall(old(c.State()), level, message, params); c.State() == p.after && r == p.reply
  {
    var name := LevelName(CanaryLevels, level);
    if name.Err? {
      return Err(name.error);
    }
    r := HandleRequest(c, name.value, message, params);
  }

  /** `__call`. */
  method CallAsync(c: Client, name: string, message: string, params: map<string, Value>) returns (r: Result<Reply>)
    requires c.Valid() && !DispatchAsync(Severities, OtherMethods, name).OtherMethod?
    modifies c, c.guzzle
    ensures c.Valid()
    ensures var p := AsyncCall(old(c.State()), name, message, params); c.State() == p.after && r == p.reply
  {
    var target := DispatchAsync(Severities, OtherMethods, name);
    match target
    case Missing =>
      r := Err(MethodNotFound);
    case Unsupported =>
      r := Debug(message, params);
    case Level(m) =>
      r := HandleRequest(c, m, message, params["async" := Bool(true)]);
  }
}
