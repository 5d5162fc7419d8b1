/**
 * One named measurement attached to the next request (src/Metric.php).
 * A Metric never changes once built: its protected setters run only from
 * the constructor, which throws on the first field that fails validation.
 */
module Metrics {
  import opened Errors
  import opened Values

  /** A built metric; `numType` is the stored cast, "float" or "int". */
  datatype Metric = Metric(key: string, numType: string, value: real, unit: Option<string>)

  /** The state every metric the constructor lets through is in. */
  predicate Valid(m: Metric) {
    && m.key != "" && m.key != "0" && |m.key| <= 255
    && (m.numType == "float" || m.numType == "int")
    && (m.unit.Some? ==> m.unit.value != "" && m.unit.value != "0" && |m.unit.value| <= 10)
  }

  /** `setKey`: a falsy key (`""` or `"0"`) or one over 255 bytes is refused. */
  function SetKey(key: string): (r: Result<string>)
    ensures r.Ok? <==> key != "" && key != "0" && |key| <= 255
    ensures r == Ok(key) || r == Err(MetricKey)
  {
    if !Truthy(Str(key)) || |key| > 255 then Err(MetricKey) else Ok(key)
  }

  /** `setType`: only float, int and integer are accepted, and integer is stored as int. */
  function SetType(cast: string): (r: Result<string>)
    ensures r.Ok? <==> cast == "float" || cast == "int" || cast == "integer"
    ensures r.Ok? ==> (r.value == "float" || r.value == "int") && (r.value == "int" <==> cast != "float")
    ensures r.Err? ==> r.error == MetricType
  {
    if cast != "float" && cast != "int" && cast != "integer" then Err(MetricType)
    else Ok(if cast != "integer" then cast else "int")
  }

  /** `setUnit`: a unit over 10 bytes is refused; a falsy unit is stored as null. */
  function SetUnit(unit: Option<string>): (r: Result<Option<string>>)
    ensures r.Ok? <==> unit.None? || |unit.value| <= 10
    ensures r.Ok? ==> (r.value.Some? <==> unit.Some? && unit.value != "" && unit.value != "0")
    ensures r.Ok? && r.value.Some? ==> r.value == unit
    ensures r.Err? ==> r.error == MetricUnit
  {
    var len := if unit.Some? then |unit.value| else 0;
    if len > 10 then Err(MetricUnit)
    else if unit.Some? && Truthy(Str(unit.value)) then Ok(unit) else Ok(None)
  }

  /**
   * The constructor: key, then type, then value, then unit, each setter
   * throwing before the next runs; so the first failing field names the error.
   */
  function NewMetric(key: string, value: real, unit: Option<string>, cast: string): (r: Result<Metric>)
    ensures var keyOk, typeOk, unitOk :=
        key != "" && key != "0" && |key| <= 255,
        cast == "float" || cast == "int" || cast == "integer",
        unit.None? || |unit.value| <= 10;
      && (r.Ok? <==> keyOk && typeOk && unitOk)
      && (r.Err? ==> r.error == if !keyOk then MetricKey else if !typeOk then MetricType else MetricUnit)
    ensures r.Ok? ==> Valid(r.value) && r.value.key == key && r.value.value == value
    ensures r.Ok? ==> (r.value.numType == "float" <==> cast == "float")
  {
    var k :- SetKey(key);
    var t :- SetType(cast);
    var u :- SetUnit(unit);
    Ok(Metric(k, t, value, u))
  }

  /** Every valid metric is what the constructor builds from its own fields. */
  lemma Reconstruct(m: Metric)
    requires Valid(m)
    ensures NewMetric(m.key, m.value, m.unit, m.numType) == Ok(m)
  {
    assert SetKey(m.key) == Ok(m.key);
    assert SetType(m.numType) == Ok(m.numType);
    assert SetUnit(m.unit) == Ok(m.unit);
  }

  /** `toArray`: the four serialised fields, the value cast to int for an int metric. */
  function ToArray(m: Metric): (v: Value)
    ensures v.Dict? && v.entries.Keys == {"key", "type", "value", "unit"}
    ensures v.entries["key"] == Str(m.key) && v.entries["type"] == Str(m.numType)
    ensures v.entries["value"].Int? <==> m.numType == "int"
    ensures v.entries["value"].Int? ==> v.entries["value"].i == Trunc(m.value)
    ensures v.entries["value"].Real? <==> m.numType != "int"
    ensures v.entries["value"].Real? ==> v.entries["value"].r == m.value
    ensures v.entries["unit"] == (if m.unit.Some? then Str(m.unit.value) else Null)
  {
    Dict(map[
      "key" := Str(m.key),
      "type" := Str(m.numType),
      "value" := if m.numType == "int" then Int(Trunc(m.value)) else Real(m.value),
      "unit" := if m.unit.Some? then Str(m.unit.value) else Null
    ])
  }

  /** Reads a serialised metric back; the inverse of ToArray up to the int cast. */
  function FromArray(v: Value): Option<Metric> {
    if v.Dict? && "key" in v.entries && "type" in v.entries && "value" in v.entries && "unit" in v.entries
      && v.entries["key"].Str? && v.entries["type"].Str?
      && (v.entries["value"].Int? || v.entries["value"].Real?)
      && (v.entries["unit"].Str? || v.entries["unit"].Null?)
    then
      var value := if v.entries["value"].Int? then v.entries["value"].i as real else v.entries["value"].r;
      var unit := if v.entries["unit"].Str? then Some(v.entries["unit"].s) else None;
      Some(Metric(v.entries["key"].s, v.entries["type"].s, value, unit))
    else None
  }

  /** A valid metric is serialised with an int value exactly when it was built with `int` or `integer`. */
  lemma SerialisedValueTag(key: string, value: real, unit: Option<string>, cast: string)
    requires NewMetric(key, value, unit, cast).Ok?
    ensures var v := ToArray(NewMetric(key, value, unit, cast).value).entries["value"];
      && (v.Int? <==> cast == "int" || cast == "integer")
      && (v.Int? ==> v.i == Trunc(value))
      && (v.Real? ==> v.r == value)
  {
  }

  /**
   * `toArray` keeps the key, type and unit exactly; it keeps a float metric's
   * value exactly and an int metric's value truncated toward zero.
   */
  lemma ToArrayRoundTrip(m: Metric)
    ensures FromArray(ToArray(m)) ==
      Some(if m.numType == "int" then m.(value := Trunc(m.value) as real) else m)
  {
  }

  /** The worked example of the client's documentation: an int metric of 3465.3567 seconds. */
  lemma DurationExample()
    ensures NewMetric("duration", 3465.3567, Some("sec"), "int").Ok?
    ensures ToArray(NewMetric("duration", 3465.3567, Some("sec"), "int").value) ==
      Dict(map["key" := Str("duration"), "type" := Str("int"), "value" := Int(3465), "unit" := Str("sec")])
  {
    var m := NewMetric("duration", 3465.3567, Some("sec"), "int").value;
    assert m == Metric("duration", "int", 3465.3567, Some("sec"));
    assert Trunc(3465.3567) == 3465;
  }
}
