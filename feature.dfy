/**
 * The logger's feature scenarios (tests/LoggerFeatureTest.php), stated for
 * every UUID and counter name of the kind each scenario uses, on a logger
 * freshly built on a transport that has sent nothing.
 */
module LoggerFeatures {
  import opened Errors
  import opened Values
  import opened Text
  import opened Params
  import opened Endpoint
  import opened Levels
  import opened CanaryClient
  import opened CanaryLogger

  /** Text `trim` leaves alone and that counts as present: not empty, not "0", no `/` at either end. */
  predicate Plain(s: string) {
    Truthy(Str(s)) && s[0] != '/' && s[|s| - 1] != '/'
  }

  /** What the scenarios build the logger with: only a UUID and a counter name, when given. */
  function Setup(uuid: Option<string>, counter: Option<string>): (p: map<string, Value>)
    ensures Takeable(Merge(Defaults, p))
    ensures "base_uri" !in p && "api_version" !in p
  {
    var withUuid := if uuid.Some? then map["uuid" := Str(uuid.value)] else map[];
    var p := if counter.Some? then withUuid["counter" := Str(counter.value)] else withUuid;
    StringsTakeable(p);
    p
  }

  /** Text values can always be taken as URL parts. */
  lemma StringsTakeable(p: map<string, Value>)
    requires forall k :: k in p ==> p[k].Str?
    ensures Takeable(Merge(Defaults, p))
  {
    forall k | k in UriKeySet && k in Merge(Defaults, p) && Merge(Defaults, p)[k] != Null
      ensures PartText(Merge(Defaults, p)[k]).Some?
    {
      if k !in p {
        assert Merge(Defaults, p)[k] == Defaults[k];
      }
    }
  }

  /** A valid UUID or counter name is plain text. */
  lemma ValidIsPlain(s: string)
    requires IsUuidValid(s) || IsCounterNameValid(s)
    ensures Plain(s)
  {
    if IsUuidValid(s) && !UuidShape(s) {
      assert s[..|s| - 1][0] == s[0];
    }
    if IsCounterNameValid(s) && !CounterShape(s) {
      assert s[..|s| - 1][0] == s[0];
    }
  }

  /** The stored parameters of such a logger: the default base URI and version, and the given parts or null. */
  lemma SetupValues(uuid: Option<string>, counter: Option<string>)
    ensures var parts := Merge(Defaults, Setup(uuid, counter));
      && parts["base_uri"] == Str("https://canary.stage") && parts["api_version"] == Str("v1")
      && parts["uuid"] == (if uuid.Some? then Str(uuid.value) else Null)
      && parts["counter"] == (if counter.Some? then Str(counter.value) else Null)
  {
  }

  /** A stored part that is plain text is the constructor's part as it is; a null one is empty. */
  lemma PlainPart(parts: map<string, Value>, k: string, t: Option<string>)
    requires k in parts && parts[k] == (if t.Some? then Str(t.value) else Null)
    requires t.Some? ==> Plain(t.value)
    ensures ConstructedPart(parts, k) == (if t.Some? then t.value else "")
  {
    if t.Some? {
      TrimKeeps(t.value, '/');
    }
  }

  /**
   * A logger built with `Setup(uuid, counter)` holds the default base URI and
   * version, and the given parts as they are.
   */
  lemma SetupUri(uuid: Option<string>, counter: Option<string>)
    requires uuid.Some? ==> Plain(uuid.value)
    requires counter.Some? ==> Plain(counter.value)
    ensures var u := Constructed(Setup(uuid, counter)).uri;
      && Truthy(Str(u["base_uri"])) && Truthy(Str(u["api_version"])) && StartsWith(u["base_uri"], "http")
      && u["uuid"] == (if uuid.Some? then uuid.value else "")
      && u["counter"] == (if counter.Some? then counter.value else "")
  {
    var params := Setup(uuid, counter);
    var parts := Merge(Defaults, params);
    SetupValues(uuid, counter);
    var base, version := "https://canary.stage", "v1";
    assert Plain(base) && Plain(version) && StartsWith(base, "http");
    PlainPart(parts, "base_uri", Some(base));
    PlainPart(parts, "api_version", Some(version));
    PlainPart(parts, "uuid", uuid);
    PlainPart(parts, "counter", counter);
    ConstructedUri(params);
  }

  /**
   * What `validateUri` makes of such parts: a missing UUID first, then a
   * missing counter name, then a malformed UUID, then a malformed counter name.
   */
  lemma SetupOutcome(u: Parts, uuid: Option<string>, counter: Option<string>)
    requires WellFormed(u)
    requires Truthy(Str(u["base_uri"])) && Truthy(Str(u["api_version"])) && StartsWith(u["base_uri"], "http")
    requires u["uuid"] == (if uuid.Some? then uuid.value else "") && (uuid.Some? ==> Plain(uuid.value))
    requires u["counter"] == (if counter.Some? then counter.value else "") && (counter.Some? ==> Plain(counter.value))
    ensures uuid.None? ==> ValidateUri(u) == Fail(MissingPart("uuid"))
    ensures uuid.Some? && counter.None? ==> ValidateUri(u) == Fail(MissingPart("counter"))
    ensures uuid.Some? && counter.Some? && !IsUuidValid(uuid.value) ==> ValidateUri(u) == Fail(InvalidUuid)
    ensures uuid.Some? && counter.Some? && IsUuidValid(uuid.value) && !IsCounterNameValid(counter.value) ==>
      ValidateUri(u) == Fail(InvalidCounter)
    ensures uuid.Some? && counter.Some? && IsUuidValid(uuid.value) && IsCounterNameValid(counter.value) ==>
      ValidateUri(u) == Pass
  {
    if uuid.None? {
      FirstMissingNamed(u, 2);
    } else if counter.None? {
      FirstMissingNamed(u, 3);
    } else {
      assert AllPresent(u);
    }
  }

  /** With a valid UUID and counter name, a call naming no URL part is the first thing sent. */
  lemma ValidSetupSends(uuid: string, counter: string, call: map<string, Value>)
    requires IsUuidValid(uuid) && IsCounterNameValid(counter)
    requires forall k :: k in UriKeySet ==> k !in call
    ensures Perform(Constructed(Setup(Some(uuid), Some(counter))), call).reply ==
      Ok(if IsAsync(call) then Promise(0) else Response(0))
  {
    ValidIsPlain(uuid);
    ValidIsPlain(counter);
    SetupUri(Some(uuid), Some(counter));
    SetupOutcome(Constructed(Setup(Some(uuid), Some(counter))).uri, Some(uuid), Some(counter));
    FirstCall(Setup(Some(uuid), Some(counter)), call);
  }

  /**
   * Calling `<level>Async()` on such a logger, as the scenario does with
   * `noticeAsync()`, returns a promise for the first request sent.
   */
  lemma AsyncLevelReturnsPromise(uuid: string, counter: string, level: string, message: string)
    requires IsUuidValid(uuid) && IsCounterNameValid(counter)
    requires level in CanaryLogger.Severities
    requires forall i :: 0 <= i < |level| ==> !('A' <= level[i] <= 'Z')
    ensures DispatchAsync(CanaryLogger.Severities, CanaryLogger.OtherMethods, level + "Async") == Level(level)
    ensures CanaryLogger.AsyncCall(Constructed(Setup(Some(uuid), Some(counter))), level + "Async", message, map[]).reply == Ok(Promise(0))
  {
    AsyncSuffixStripped(level);
    var call := LevelParams(level, message, map[]["async" := Bool(true)]);
    AsyncCallNamesNoPart(level, message);
    AsyncFlagKept(level, message, map[]);
    ValidSetupSends(uuid, counter, call);
  }

  /** The call `__call` makes names no URL part either. */
  lemma AsyncCallNamesNoPart(name: string, message: string)
    ensures forall k :: k in UriKeySet ==> k !in LevelParams(name, message, map[]["async" := Bool(true)])
  {
    assert LevelParams(name, message, map[]["async" := Bool(true)]).Keys == {"async", "status_code", "status_remark"};
  }

  /** A logger built without a UUID throws for the missing UUID at its first call, and nothing changes. */
  lemma MissingUuidThrows(counter: Option<string>, call: map<string, Value>)
    requires counter.Some? ==> Plain(counter.value)
    requires forall k :: k in UriKeySet ==> k !in call
    ensures var s := Constructed(Setup(None, counter));
      Perform(s, call) == Performed(s, Err(MissingPart("uuid")))
  {
    SetupUri(None, counter);
    SetupOutcome(Constructed(Setup(None, counter)).uri, None, counter);
    FirstCall(Setup(None, counter), call);
  }

  /** One built with a UUID but without a counter name throws for the counter name, whatever the UUID. */
  lemma MissingCounterThrows(uuid: string, call: map<string, Value>)
    requires Plain(uuid)
    requires forall k :: k in UriKeySet ==> k !in call
    ensures var s := Constructed(Setup(Some(uuid), None));
      Perform(s, call) == Performed(s, Err(MissingPart("counter")))
  {
    SetupUri(Some(uuid), None);
    SetupOutcome(Constructed(Setup(Some(uuid), None)).uri, Some(uuid), None);
    FirstCall(Setup(Some(uuid), None), call);
  }

  /** One built with a malformed UUID throws for it once both parts are present. */
  lemma InvalidUuidThrows(uuid: string, counter: string, call: map<string, Value>)
    requires Plain(uuid) && Plain(counter) && !IsUuidValid(uuid)
    requires forall k :: k in UriKeySet ==> k !in call
    ensures var s := Constructed(Setup(Some(uuid), Some(counter)));
      Perform(s, call) == Performed(s, Err(InvalidUuid))
  {
    SetupUri(Some(uuid), Some(counter));
    SetupOutcome(Constructed(Setup(Some(uuid), Some(counter))).uri, Some(uuid), Some(counter));
    FirstCall(Setup(Some(uuid), Some(counter)), call);
  }

  /** One built with a valid UUID and a malformed counter name throws for the counter name. */
  lemma InvalidCounterThrows(uuid: string, counter: string, call: map<string, Value>)
    requires IsUuidValid(uuid) && Plain(counter) && !IsCounterNameValid(counter)
    requires forall k :: k in UriKeySet ==> k !in call
    ensures var s := Constructed(Setup(Some(uuid), Some(counter)));
      Perform(s, call) == Performed(s, Err(InvalidCounter))
  {
    ValidIsPlain(uuid);
    SetupUri(Some(uuid), Some(counter));
    SetupOutcome(Constructed(Setup(Some(uuid), Some(counter))).uri, Some(uuid), Some(counter));
    FirstCall(Setup(Some(uuid), Some(counter)), call);
  }

  /** The severity calls of the scenarios name no URL part. */
  lemma LevelCallNamesNoPart(name: string, message: string)
    ensures forall k :: k in UriKeySet ==> k !in LevelParams(name, message, map[])
  {
    assert LevelParams(name, message, map[]).Keys == {"status_code", "status_remark"};
  }
}
