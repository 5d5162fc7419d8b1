/**
 * The four URL parts of a client (src/Client.php): how `setUri` merges them,
 * how `validateUri` checks them and how the endpoint is assembled.
 */
module Endpoint {
  import opened Errors
  import opened Values
  import opened Text

  /** The parts in the order of the `$uri` array, which is the order of every loop over it. */
  const UriKeys: seq<string> := ["base_uri", "api_version", "uuid", "counter"]

  const UriKeySet: set<string> := {"base_uri", "api_version", "uuid", "counter"}

  /** The `$uri` field: one string per part. */
  type Parts = map<string, string>

  predicate WellFormed(uri: Parts) {
    uri.Keys == UriKeySet
  }

  /** The `$uri` field before the constructor's first `setUri`. */
  const InitialUri: Parts := map["base_uri" := "", "api_version" := "", "uuid" := "", "counter" := ""]

  /** No part begins or ends with `/`: what `setUri`'s trim leaves. */
  predicate Trimmed(uri: Parts)
    requires WellFormed(uri)
  {
    forall k :: k in uri ==> uri[k] == Trim(uri[k], '/')
  }

  /**
   * The text `trim()` is handed for an override. Strings, ints and booleans
   * convert as PHP converts them; a float or an array has no text here.
   */
  function PartText(v: Value): Option<string> {
    match v
    case Null => Some("")
    case Bool(b) => Some(if b then "1" else "")
    case Int(i) => Some(IntToDecimal(i))
    case Str(s) => Some(s)
    case Real(_) => None
    case List(_) => None
    case Dict(_) => None
  }

  /**
   * One turn of `setUri`'s loop: `trim($parts[$key] ?? $value ?? default, '/')`.
   * `$value` is the part's current string, never null, so the default is never reached.
   */
  function NewPart(uri: Parts, parts: map<string, Value>, k: string): Option<string>
    requires k in uri
  {
    match Lookup(parts, k)
    case None => Some(Trim(uri[k], '/'))
    case Some(v) =>
      match PartText(v)
      case None => None
      case Some(t) => Some(Trim(t, '/'))
  }

  /** The parts after `setUri`, and the first part it could not take, if any. */
  datatype Applied = Applied(uri: Parts, rejected: Option<string>)

  /** `setUri`'s loop over `keys`, stopping at the first part it cannot take. */
  function ApplyParts(uri: Parts, parts: map<string, Value>, keys: seq<string>): (a: Applied)
    requires forall k :: k in keys ==> k in uri
    ensures a.uri.Keys == uri.Keys
    ensures a.rejected.Some? ==> a.rejected.value in keys
  {
    if keys == [] then Applied(uri, None)
    else
      match NewPart(uri, parts, keys[0])
      case None => Applied(uri, Some(keys[0]))
      case Some(t) => ApplyParts(uri[keys[0] := t], parts, keys[1..])
  }

  /** What `setUri($parts)` does to the parts. */
  function SetUri(uri: Parts, parts: map<string, Value>): Applied
    requires WellFormed(uri)
  {
    ApplyParts(uri, parts, UriKeys)
  }

  /** Whether an override (set, non-null) of every part can be taken as text. */
  predicate Takeable(parts: map<string, Value>) {
    forall k :: k in UriKeySet && k in parts && parts[k] != Null ==> PartText(parts[k]).Some?
  }

  /** Distinct keys: the first is not among the rest, and the rest are distinct. */
  lemma DistinctTail(keys: seq<string>)
    requires keys != [] && forall i, j :: 0 <= i < j < |keys| ==> keys[i] != keys[j]
    ensures keys[0] !in keys[1..]
    ensures forall i, j :: 0 <= i < j < |keys[1..]| ==> keys[1..][i] != keys[1..][j]
    ensures forall k :: k in keys <==> k == keys[0] || k in keys[1..]
  {
    forall i | 0 <= i < |keys[1..]| ensures keys[1..][i] != keys[0] {
      assert keys[1..][i] == keys[i + 1];
    }
    assert keys == [keys[0]] + keys[1..];
  }

  /** A part's next value depends only on its own current value. */
  lemma NewPartLocal(uri: Parts, uri': Parts, parts: map<string, Value>, k: string)
    requires k in uri && k in uri' && uri[k] == uri'[k]
    ensures NewPart(uri, parts, k) == NewPart(uri', parts, k)
  {
  }

  /** In a run over distinct keys, each key's new value depends on its old value and the override only. */
  lemma {:induction false} ApplyPartsEach(uri: Parts, parts: map<string, Value>, keys: seq<string>)
    requires forall k :: k in keys ==> k in uri
    requires forall i, j :: 0 <= i < j < |keys| ==> keys[i] != keys[j]
    ensures var a := ApplyParts(uri, parts, keys);
      && (a.rejected.None? <==> forall k :: k in keys ==> NewPart(uri, parts, k).Some?)
      && (a.rejected.None? ==> forall k :: k in keys ==> a.uri[k] == NewPart(uri, parts, k).value)
      && (forall k :: k in uri && k !in keys ==> a.uri[k] == uri[k])
    decreases |keys|
  {
    if keys != [] {
      var k0 := keys[0];
      var n0 := NewPart(uri, parts, k0);
      if n0.Some? {
        var uri' := uri[k0 := n0.value];
        DistinctTail(keys);
        ApplyPartsEach(uri', parts, keys[1..]);
        forall k | k in keys[1..] ensures NewPart(uri', parts, k) == NewPart(uri, parts, k) {
          NewPartLocal(uri, uri', parts, k);
        }
      }
    }
  }

  /**
   * `setUri` rewrites exactly the four parts: each becomes the trimmed text of
   * its set, non-null override, or else its own trimmed previous value; it
   * fails exactly when some override has no text.
   */
  lemma SetUriParts(uri: Parts, parts: map<string, Value>)
    requires WellFormed(uri)
    ensures var a := SetUri(uri, parts);
      && a.uri.Keys == UriKeySet
      && (a.rejected.None? <==> Takeable(parts))
      && (a.rejected.None? ==> forall k :: k in UriKeySet ==>
            a.uri[k] == if k in parts && parts[k] != Null then Trim(PartText(parts[k]).value, '/') else Trim(uri[k], '/'))
  {
    ApplyPartsEach(uri, parts, UriKeys);
    assert forall k :: k in UriKeySet <==> k in UriKeys;
  }

  /** After a successful `setUri` no part starts or ends with `/`. */
  lemma SetUriTrims(uri: Parts, parts: map<string, Value>)
    requires WellFormed(uri) && SetUri(uri, parts).rejected.None?
    ensures WellFormed(SetUri(uri, parts).uri) && Trimmed(SetUri(uri, parts).uri)
  {
    SetUriParts(uri, parts);
    var a := SetUri(uri, parts).uri;
    forall k | k in a ensures a[k] == Trim(a[k], '/') {
      if k in parts && parts[k] != Null {
        TrimIdempotent(PartText(parts[k]).value, '/');
      } else {
        TrimIdempotent(uri[k], '/');
      }
    }
  }

  /**
   * A part the overrides leave out, or set to null, keeps the value an earlier
   * `setUri` gave it, rather than falling back to the static default.
   */
  lemma OmittedPartPersists(uri: Parts, parts: map<string, Value>, k: string)
    requires WellFormed(uri) && Trimmed(uri) && Takeable(parts)
    requires k in UriKeySet && (k !in parts || parts[k] == Null)
    ensures SetUri(uri, parts).uri[k] == uri[k]
  {
    SetUriParts(uri, parts);
  }

  /** An override with text wins over whatever the part held. */
  lemma OverrideWins(uri: Parts, parts: map<string, Value>, k: string, s: string)
    requires WellFormed(uri) && Takeable(parts)
    requires k in UriKeySet && k in parts && parts[k] == Str(s)
    ensures SetUri(uri, parts).uri[k] == Trim(s, '/')
  {
    SetUriParts(uri, parts);
  }

  // ---------------------------------------------------------------- validation

  predicate IsHex(c: char) { '0' <= c <= '9' || 'a' <= c <= 'f' || 'A' <= c <= 'F' }

  /** `[0-9A-F]{n}` under the `i` flag. */
  predicate HexGroup(g: string, n: nat) {
    |g| == n && forall i :: 0 <= i < |g| ==> IsHex(g[i])
  }

  /** `[89AB]` under the `i` flag. */
  predicate IsVariant(c: char) { c == '8' || c == '9' || c == 'a' || c == 'b' || c == 'A' || c == 'B' }

  /** The string the UUID pattern's body matches: groups 8-4-4-4-12, `4` and a variant digit leading groups three and four. */
  predicate UuidShape(s: string) {
    && |s| == 36
    && s[8] == '-' && s[13] == '-' && s[18] == '-' && s[23] == '-'
    && HexGroup(s[0..8], 8) && HexGroup(s[9..13], 4) && HexGroup(s[14..18], 4)
    && HexGroup(s[19..23], 4) && HexGroup(s[24..36], 12)
    && s[14] == '4' && IsVariant(s[19])
  }

  /** `$` without the D flag also matches just before a final newline. */
  predicate EndAnchored(s: string, shape: string -> bool) {
    shape(s) || (s != [] && s[|s| - 1] == '\n' && shape(s[..|s| - 1]))
  }

  /** `isUuidValid`: `/^[0-9A-F]{8}-[0-9A-F]{4}-4[0-9A-F]{3}-[89AB][0-9A-F]{3}-[0-9A-F]{12}$/i`. */
  predicate IsUuidValid(s: string) {
    EndAnchored(s, UuidShape)
  }

  predicate IsCounterChar(c: char) {
    'a' <= c <= 'z' || 'A' <= c <= 'Z' || '0' <= c <= '9' || c == '-' || c == '_' || c == '.'
  }

  /** The string `[a-z0-9\-_.]{6,255}` matches under the `i` flag. */
  predicate CounterShape(s: string) {
    6 <= |s| <= 255 && forall i :: 0 <= i < |s| ==> IsCounterChar(s[i])
  }

  /** `isCounterNameValid`: `/^[a-z0-9\-_.]{6,255}$/i`. */
  predicate IsCounterNameValid(s: string) {
    EndAnchored(s, CounterShape)
  }

  /** Any five hex groups of the right sizes, with `4` and a variant digit in front of groups three and four, join into a valid UUID. */
  lemma UuidFromGroups(g1: string, g2: string, g3: string, g4: string, g5: string)
    requires HexGroup(g1, 8) && HexGroup(g2, 4) && HexGroup(g3, 4) && HexGroup(g4, 4) && HexGroup(g5, 12)
    requires g3[0] == '4' && IsVariant(g4[0])
    ensures IsUuidValid(g1 + "-" + g2 + "-" + g3 + "-" + g4 + "-" + g5)
  {
    var s := g1 + "-" + g2 + "-" + g3 + "-" + g4 + "-" + g5;
    assert s[0..8] == g1;
    assert s[9..13] == g2;
    assert s[14..18] == g3;
    assert s[19..23] == g4;
    assert s[24..36] == g5;
    assert UuidShape(s);
  }

  /** Conversely a valid UUID without a trailing newline is such five groups joined by dashes. */
  lemma UuidGroups(s: string)
    requires IsUuidValid(s) && (s == [] || s[|s| - 1] != '\n')
    ensures s == s[0..8] + "-" + s[9..13] + "-" + s[14..18] + "-" + s[19..23] + "-" + s[24..36]
    ensures HexGroup(s[0..8], 8) && HexGroup(s[9..13], 4) && HexGroup(s[14..18], 4)
    ensures HexGroup(s[19..23], 4) && HexGroup(s[24..36], 12)
    ensures s[14..18][0] == '4' && IsVariant(s[19..23][0])
  {
    assert UuidShape(s);
    var t := s[0..8] + "-" + s[9..13] + "-" + s[14..18] + "-" + s[19..23] + "-" + s[24..36];
    assert |t| == 36;
    forall i | 0 <= i < 36 ensures t[i] == s[i] {
      if i < 8 {} else if i == 8 {} else if i < 13 {} else if i == 13 {}
      else if i < 18 {} else if i == 18 {} else if i < 23 {} else if i == 23 {} else {}
    }
  }

  /** A 36-character string with dashes at the four group boundaries and hex digits elsewhere has the UUID shape. */
  lemma UuidFromChars(s: string)
    requires |s| == 36 && s[8] == '-' && s[13] == '-' && s[18] == '-' && s[23] == '-'
    requires forall i :: 0 <= i < 36 && i != 8 && i != 13 && i != 18 && i != 23 ==> IsHex(s[i])
    requires s[14] == '4' && IsVariant(s[19])
    ensures IsUuidValid(s)
  {
    assert HexGroup(s[0..8], 8) by { forall i | 0 <= i < 8 ensures IsHex(s[0..8][i]) { assert s[0..8][i] == s[i]; } }
    assert HexGroup(s[9..13], 4) by { forall i | 0 <= i < 4 ensures IsHex(s[9..13][i]) { assert s[9..13][i] == s[9 + i]; } }
    assert HexGroup(s[14..18], 4) by { forall i | 0 <= i < 4 ensures IsHex(s[14..18][i]) { assert s[14..18][i] == s[14 + i]; } }
    assert HexGroup(s[19..23], 4) by { forall i | 0 <= i < 4 ensures IsHex(s[19..23][i]) { assert s[19..23][i] == s[19 + i]; } }
    assert HexGroup(s[24..36], 12) by { forall i | 0 <= i < 12 ensures IsHex(s[24..36][i]) { assert s[24..36][i] == s[24 + i]; } }
  }

  /** The UUID the feature tests accept. */
  lemma UuidAccepted()
    ensures IsUuidValid("5b8c58e9-b2ac-4ae4-9381-dcd4524dd7e7")
  {
    var s := "5b8c58e9-b2ac-4ae4-9381-dcd4524dd7e7";
    assert forall i :: 0 <= i < 36 && i != 8 && i != 13 && i != 18 && i != 23 ==> IsHex(s[i]);
    UuidFromChars(s);
  }

  /** The same UUID with a version nibble of 0 is refused. */
  lemma UuidVersionZeroRejected()
    ensures !IsUuidValid("5b8c58e9-b2ac-0ae4-9381-dcd4524dd7e7")
  {
    var s := "5b8c58e9-b2ac-0ae4-9381-dcd4524dd7e7";
    assert s[14] == '0';
  }

  /** A counter name the feature test accepts, and the quoted one it rejects. */
  lemma CounterExamples()
    ensures IsCounterNameValid("new-counter")
    ensures !IsCounterNameValid("new.counter.\"")
  {
    var bad := "new.counter.\"";
    assert !IsCounterChar(bad[12]);
  }

  /** Both checks let one trailing newline through, as `$` does in PCRE. */
  lemma TrailingNewlineAccepted(s: string)
    requires UuidShape(s) || CounterShape(s)
    ensures UuidShape(s) ==> IsUuidValid(s + "\n")
    ensures CounterShape(s) ==> IsCounterNameValid(s + "\n")
  {
    assert (s + "\n")[..|s|] == s;
  }

  /** The part names in order; the first whose value is falsy (`""` or `"0"`), if any. */
  function FirstMissing(uri: Parts, keys: seq<string>): (r: Option<string>)
    requires forall k :: k in keys ==> k in uri
    ensures r.None? <==> forall k :: k in keys ==> Truthy(Str(uri[k]))
    ensures r.Some? ==> exists i :: (0 <= i < |keys| && keys[i] == r.value && !Truthy(Str(uri[keys[i]])) &&
      forall j :: 0 <= j < i ==> Truthy(Str(uri[keys[j]])))
  {
    if keys == [] then None
    else if !Truthy(Str(uri[keys[0]])) then Some(keys[0])
    else
      var rest := FirstMissing(uri, keys[1..]);
      if rest.Some? then
        var i :| 0 <= i < |keys[1..]| && keys[1..][i] == rest.value && !Truthy(Str(uri[keys[1..][i]])) &&
          forall j :: 0 <= j < i ==> Truthy(Str(uri[keys[1..][j]]));
        assert keys[i + 1] == rest.value;
        assert forall j :: 0 <= j < i + 1 ==> Truthy(Str(uri[keys[j]])) by {
          forall j | 0 <= j < i + 1 ensures Truthy(Str(uri[keys[j]])) {
            if j > 0 { assert keys[j] == keys[1..][j - 1]; }
          }
        }
        rest
      else
        assert forall k :: k in keys ==> k == keys[0] || k in keys[1..];
        rest
  }

  /** Every part is present: non-empty and not `"0"`. */
  predicate AllPresent(uri: Parts)
    requires WellFormed(uri)
  {
    forall k :: k in UriKeySet ==> Truthy(Str(uri[k]))
  }

  /**
   * `validateUri`: a missing part first, in part order; then the UUID; then the
   * counter name; then whether the base URI starts with `http`.
   */
  function ValidateUri(uri: Parts): (r: Outcome)
    requires WellFormed(uri)
    ensures r == Pass <==>
      AllPresent(uri) && IsUuidValid(uri["uuid"]) && IsCounterNameValid(uri["counter"]) &&
      StartsWith(uri["base_uri"], "http")
    ensures (r.Fail? && r.error.MissingPart?) <==> !AllPresent(uri)
    ensures r.Fail? && r.error.MissingPart? ==>
      exists i :: (0 <= i < |UriKeys| && UriKeys[i] == r.error.key && !Truthy(Str(uri[UriKeys[i]])) &&
        forall j :: 0 <= j < i ==> Truthy(Str(uri[UriKeys[j]])))
    ensures r == Fail(InvalidUuid) <==> AllPresent(uri) && !IsUuidValid(uri["uuid"])
    ensures r == Fail(InvalidCounter) <==>
      AllPresent(uri) && IsUuidValid(uri["uuid"]) && !IsCounterNameValid(uri["counter"])
    ensures r == Fail(UnsupportedProtocol) <==>
      AllPresent(uri) && IsUuidValid(uri["uuid"]) && IsCounterNameValid(uri["counter"]) &&
      !StartsWith(uri["base_uri"], "http")
  {
    assert forall k :: k in UriKeySet <==> k in UriKeys;
    var missing := FirstMissing(uri, UriKeys);
    if missing.Some? then Fail(MissingPart(missing.value))
    else if !IsUuidValid(uri["uuid"]) then Fail(InvalidUuid)
    else if !IsCounterNameValid(uri["counter"]) then Fail(InvalidCounter)
    else if !StartsWith(uri["base_uri"], "http") then Fail(UnsupportedProtocol)
    else Pass
  }

  /** `validateUri` names the first missing part, in part order. */
  lemma FirstMissingNamed(uri: Parts, i: int)
    requires WellFormed(uri) && 0 <= i < |UriKeys|
    requires !Truthy(Str(uri[UriKeys[i]])) && forall j :: 0 <= j < i ==> Truthy(Str(uri[UriKeys[j]]))
    ensures ValidateUri(uri) == Fail(MissingPart(UriKeys[i]))
  {
    assert UriKeys[i] in UriKeySet;
    var r := ValidateUri(uri);
    var n :| 0 <= n < |UriKeys| && UriKeys[n] == r.error.key && !Truthy(Str(uri[UriKeys[n]])) &&
      forall j :: 0 <= j < n ==> Truthy(Str(uri[UriKeys[j]]));
    assert n == i;
  }

  // ---------------------------------------------------------------- the URL

  /** The path marker the API version is wrapped in. */
  function VersionSegment(version: string): string {
    "api/" + version + "/event"
  }

  /** `implode('/', $this->uri)`. */
  function JoinedParts(uri: Parts): string
    requires WellFormed(uri)
  {
    Join([uri["base_uri"], uri["api_version"], uri["uuid"], uri["counter"]], "/")
  }

  /**
   * `getUri` as written: in the joined parts, EVERY occurrence of the version
   * string is replaced, including one inside the base URI, UUID or counter name.
   */
  function RewrittenUri(uri: Parts): string
    requires WellFormed(uri)
  {
    ReplaceAll(JoinedParts(uri), uri["api_version"], VersionSegment(uri["api_version"]))
  }

  /** The endpoint `getUri` evidently means: the version part alone is wrapped in the marker. */
  function EndpointUri(uri: Parts): (r: string)
    requires WellFormed(uri)
    ensures StartsWith(r, uri["base_uri"] + "/" + VersionSegment(uri["api_version"]) + "/")
  {
    var head := uri["base_uri"] + "/" + VersionSegment(uri["api_version"]) + "/";
    var r := head + uri["uuid"] + "/" + uri["counter"];
    assert r[..|head|] == head;
    r
  }

  /** The version text is not empty and occurs in the joined parts only as the version part itself. */
  predicate VersionOnlyOwnPart(uri: Parts)
    requires WellFormed(uri)
  {
    && uri["api_version"] != ""
    && forall i :: 0 <= i < |JoinedParts(uri)| && OccursAt(JoinedParts(uri), uri["api_version"], i) ==>
      i == |uri["base_uri"]| + 1
  }

  /**
   * When the version string occurs in the joined parts only as its own part,
   * the as-written replacement yields exactly the intended endpoint.
   */
  lemma RewrittenAgrees(uri: Parts)
    requires WellFormed(uri) && VersionOnlyOwnPart(uri)
    ensures RewrittenUri(uri) == EndpointUri(uri)
  {
    var b, v, u, c := uri["base_uri"], uri["api_version"], uri["uuid"], uri["counter"];
    JoinFour(b, v, u, c);
    var a, tail := b + "/", "/" + u + "/" + c;
    assert JoinedParts(uri) == a + v + tail;
    ReplaceOnlyAt(a, v, tail, VersionSegment(v));
  }

  lemma JoinFour(b: string, v: string, u: string, c: string)
    ensures Join([b, v, u, c], "/") == b + "/" + v + "/" + u + "/" + c
  {
    assert [b, v, u, c][1..] == [v, u, c];
    assert [v, u, c][1..] == [u, c];
    assert [u, c][1..] == [c];
    assert Join([u, c], "/") == u + "/" + c;
    assert Join([v, u, c], "/") == v + "/" + (u + "/" + c);
    assert Join([b, v, u, c], "/") == b + "/" + (v + "/" + (u + "/" + c));
  }

  /** Four parts that pass each check make a URI `validateUri` lets through. */
  lemma ValidParts(b: string, v: string, u: string, c: string)
    requires Truthy(Str(b)) && Truthy(Str(v)) && IsUuidValid(u) && IsCounterNameValid(c) && StartsWith(b, "http")
    ensures var uri := map["base_uri" := b, "api_version" := v, "uuid" := u, "counter" := c];
      WellFormed(uri) && ValidateUri(uri) == Pass
  {
    var uri := map["base_uri" := b, "api_version" := v, "uuid" := u, "counter" := c];
    assert uri.Keys == UriKeySet;
    assert uri["base_uri"] == b && uri["api_version"] == v && uri["uuid"] == u && uri["counter"] == c;
    assert |u| >= 36 && |c| >= 6;
  }

  /**
   * A version string that also starts inside the counter name is replaced
   * there too; everything else is free of its first character.
   */
  lemma RewrittenInCounter(b: string, v: string, u: string, pre: string, post: string)
    requires v != [] && v[0] !in b && v[0] !in u && v[0] !in pre && v[0] !in post && v[0] != '/'
    ensures var uri := map["base_uri" := b, "api_version" := v, "uuid" := u, "counter" := pre + v + post];
      && WellFormed(uri)
      && RewrittenUri(uri) == b + "/" + VersionSegment(v) + "/" + u + "/" + pre + VersionSegment(v) + post
      && RewrittenUri(uri) != EndpointUri(uri)
  {
    var uri := map["base_uri" := b, "api_version" := v, "uuid" := u, "counter" := pre + v + post];
    assert uri.Keys == UriKeySet;
    assert uri["base_uri"] == b && uri["api_version"] == v && uri["uuid"] == u && uri["counter"] == pre + v + post;
    JoinFour(b, v, u, pre + v + post);
    var x, y := b + "/", "/" + u + "/" + pre;
    assert JoinedParts(uri) == x + v + y + v + post;
    var seg := VersionSegment(v);
    ReplaceTwice(x, y, post, v, seg);
    assert x + seg + y + seg + post == b + "/" + seg + "/" + u + "/" + pre + seg + post;
    assert |EndpointUri(uri)| < |RewrittenUri(uri)|;
  }

  /** The parts of the counter example: default base URI and version, the test UUID, and a counter name holding "v1". */
  const DevBase := "https://canary.stage"
  const DevUuid := "5b8c58e9-b2ac-4ae4-9381-dcd4524dd7e7"
  const DevCounter := "de" + "v1" + "-counter"
  const DevCounterUri: Parts := map["base_uri" := DevBase, "api_version" := "v1", "uuid" := DevUuid, "counter" := DevCounter]

  /** The counter example's parts pass every check of `validateUri`. */
  lemma DevCounterUriValid()
    ensures WellFormed(DevCounterUri) && ValidateUri(DevCounterUri) == Pass
  {
    UuidAccepted();
    var c := DevCounter;
    assert c == "dev1-counter";
    assert CounterShape(c);
    assert StartsWith(DevBase, "http");
    ValidParts(DevBase, "v1", DevUuid, c);
  }

  /**
   * The counter name "dev1-counter" passes validation, yet `getUri` as written
   * rewrites the "v1" inside it too, so the request goes to a URL whose counter
   * part is "deapi/v1/event-counter".
   */
  lemma RewrittenUriBreaksCounter()
    ensures WellFormed(DevCounterUri) && ValidateUri(DevCounterUri) == Pass
    ensures RewrittenUri(DevCounterUri) ==
      DevBase + "/" + VersionSegment("v1") + "/" + DevUuid + "/" + "de" + VersionSegment("v1") + "-counter"
    ensures RewrittenUri(DevCounterUri) != EndpointUri(DevCounterUri)
  {
    DevCounterUriValid();
    DevPartsFree();
    RewrittenInCounter(DevBase, "v1", DevUuid, "de", "-counter");
  }

  /** Apart from the counter name, no part of the counter example holds a `v`. */
  lemma DevPartsFree()
    ensures 'v' !in DevBase && 'v' !in DevUuid && 'v' !in "de" && 'v' !in "-counter"
  {
    UuidAccepted();
    NoLetterVInUuid(DevUuid);
  }

  /** A UUID is hex digits and dashes, so it holds no `v`. */
  lemma NoLetterVInUuid(s: string)
    requires UuidShape(s)
    ensures 'v' !in s
  {
    forall i | 0 <= i < |s| ensures s[i] != 'v' {
      if i < 8 { assert s[i] == s[0..8][i]; }
      else if 8 < i < 13 { assert s[i] == s[9..13][i - 9]; }
      else if 13 < i < 18 { assert s[i] == s[14..18][i - 14]; }
      else if 18 < i < 23 { assert s[i] == s[19..23][i - 19]; }
      else if 23 < i { assert s[i] == s[24..36][i - 24]; }
    }
  }
}
