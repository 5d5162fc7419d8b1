/**
 * The client's parameter arrays (src/Client.php): the defaults, the
 * allow-list of data keys, `getParameters` and the split into transport options.
 */
module Params {
  import opened Errors
  import opened Values

  /** `$allowedDataKeys`: the only keys a request carries as data. */
  const AllowedKeys: seq<string> :=
    ["client_id", "client_name", "status_code", "status_remark", "generated_at", "metrics"]

  const AllowedSet: set<string> :=
    {"client_id", "client_name", "status_code", "status_remark", "generated_at", "metrics"}

  /** `$defaults`, which the constructor merges the caller's parameters over. */
  const Defaults: map<string, Value> := map[
    "base_uri" := Str("https://canary.stage"),
    "api_version" := Str("v1"),
    "client_id" := Null,
    "client_name" := Null,
    "counter" := Null,
    "uuid" := Null
  ]

  /** `array_merge($base, $over)` on string keys: every key of `$over` wins. */
  function Merge(base: map<string, Value>, over: map<string, Value>): (r: map<string, Value>)
    ensures r.Keys == base.Keys + over.Keys
    ensures forall k :: k in over ==> r[k] == over[k]
    ensures forall k :: k in base && k !in over ==> r[k] == base[k]
  {
    base + over
  }

  /** One step of `getParameters`' walk: `status_code` is cast to int, any other falsy value becomes null. */
  function CastEntry(k: string, v: Value): Value {
    if k == "status_code" then Int(ToInt(v)) else if Truthy(v) then v else Null
  }

  /**
   * `getParameters`: the allow-listed entries of the input, `status_code` as an
   * int (0 for null), every other entry kept when truthy and nulled otherwise.
   */
  function FilterAndCast(params: map<string, Value>): (r: map<string, Value>)
    ensures r.Keys == params.Keys * AllowedSet
    ensures "status_code" in r ==> r["status_code"] == Int(ToInt(params["status_code"]))
    ensures forall k :: k in r && k != "status_code" ==>
      (Truthy(params[k]) ==> r[k] == params[k]) && (!Truthy(params[k]) ==> r[k] == Null)
  {
    map k | k in params.Keys * AllowedSet :: CastEntry(k, params[k])
  }

  /**
   * `getParameters` as the source runs it: `array_intersect_key` against the
   * allow-list, then a walk that rewrites each kept value in place.
   */
  method GetParameters(params: map<string, Value>) returns (r: map<string, Value>)
    ensures r == FilterAndCast(params)
  {
    r := map k | k in params && k in AllowedSet :: params[k];
    var todo := r.Keys;
    while todo != {}
      invariant todo <= r.Keys
      invariant r.Keys == params.Keys * AllowedSet
      invariant forall k :: k in r ==> r[k] == if k in todo then params[k] else CastEntry(k, params[k])
      decreases |todo|
    {
      var k :| k in todo;
      r := r[k := CastEntry(k, r[k])];
      todo := todo - {k};
    }
  }

  /** What `getParameters` leaves is already filtered and cast: applying it again changes nothing. */
  lemma FilterAndCastIdempotent(params: map<string, Value>)
    ensures FilterAndCast(FilterAndCast(params)) == FilterAndCast(params)
  {
    var once := FilterAndCast(params);
    forall k | k in once ensures CastEntry(k, once[k]) == once[k] {
      if k == "status_code" {
        assert ToInt(once[k]) == ToInt(params[k]);
      }
    }
  }

  /** What `getParameters` passes on is allow-listed, and each value is an int, null or truthy. */
  lemma FilterAndCastShape(params: map<string, Value>)
    ensures var r := FilterAndCast(params);
      forall k :: k in r ==> k in AllowedSet && (r[k].Int? || r[k] == Null || Truthy(r[k]))
  {
  }

  /** A caller's missing or null status code is sent as 0. */
  lemma StatusCodeDefaultsToZero(params: map<string, Value>)
    requires "status_code" in params && params["status_code"] == Null
    ensures FilterAndCast(params)["status_code"] == Int(0)
  {
  }

  /** What a logger's `handleRequest` merges over the caller's parameters: the level's rank (null for no level) and the message. */
  function StatusEntries(rank: Option<int>, message: string): map<string, Value> {
    map["status_code" := (if rank.Some? then Int(rank.value) else Null), "status_remark" := Str(message)]
  }

  /** `isset($defaults[$key])`: a default that is set and not null. */
  predicate HasDefault(k: string) {
    Lookup(Defaults, k).Some?
  }

  /**
   * `extractGuzzleOptions`: the entries whose key is neither a data key nor
   * one with a non-null default; only `base_uri` and `api_version` have one.
   */
  function ExtractOptions(params: map<string, Value>): (r: map<string, Value>)
    ensures forall k :: k in r <==>
      k in params && k !in AllowedSet && k != "base_uri" && k != "api_version"
    ensures forall k :: k in r ==> r[k] == params[k]
  {
    map k | k in params && k !in AllowedSet && !HasDefault(k) :: params[k]
  }

  /**
   * Every caller key goes exactly one way: to the data, to the transport
   * options, or nowhere (the two URI parts with a default).
   */
  lemma ParametersPartition(params: map<string, Value>)
    ensures FilterAndCast(params).Keys !! ExtractOptions(params).Keys
    ensures forall k :: k in params ==>
      k in FilterAndCast(params) || k in ExtractOptions(params) || k == "base_uri" || k == "api_version"
  {
  }

  /** The UUID, the counter name and the async flag reach the transport as options. */
  lemma OptionsPassThrough(params: map<string, Value>)
    ensures forall k :: k in params && (k == "uuid" || k == "counter" || k == "async") ==>
      k in ExtractOptions(params) && ExtractOptions(params)[k] == params[k]
  {
  }
}
