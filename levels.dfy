/**
 * The severity tables of the two loggers (`LEVELS` in src/AbstractLogger.php
 * and src/Logger.php), as the ordered PHP arrays they are, and the two
 * lookups made on them: by name, and by rank through `array_flip`.
 */
module Levels {
  import opened Errors
  import opened Text

  /** A PHP array from level name to rank, in declaration order. */
  type Table = seq<(string, int)>

  /** `AbstractLogger::LEVELS`: PSR-3 order, lower rank more severe. */
  const PsrLevels: Table := [
    ("emergency", 0), ("alert", 1), ("critical", 2), ("error", 3),
    ("warning", 4), ("notice", 5), ("info", 6), ("debug", 7)
  ]

  /** `Logger::LEVELS`: higher rank more severe, with `ok` at 0 and `debug` far above. */
  const CanaryLevels: Table := [
    ("emergency", 7), ("alert", 6), ("critical", 5), ("error", 4),
    ("warning", 3), ("notice", 2), ("info", 1), ("ok", 0), ("debug", 255)
  ]

  /** No name and no rank occurs twice. */
  predicate Injective(t: Table) {
    forall i, j :: 0 <= i < j < |t| ==> t[i].0 != t[j].0 && t[i].1 != t[j].1
  }

  /** `LEVELS[$name]`, null when the name is not a level; a later entry would win, as in PHP. */
  function RankOf(t: Table, name: string): (r: Option<int>)
    ensures r.None? <==> forall i :: 0 <= i < |t| ==> t[i].0 != name
    ensures r.Some? ==> exists i :: 0 <= i < |t| && t[i] == (name, r.value)
  {
    if t == [] then None
    else if t[|t| - 1].0 == name then Some(t[|t| - 1].1)
    else
      var r := RankOf(t[..|t| - 1], name);
      assert forall i :: 0 <= i < |t| - 1 ==> t[..|t| - 1][i] == t[i];
      r
  }

  /** `array_flip(LEVELS)[$rank]`: the name holding the rank; when two did, the later would win. */
  function NameOf(t: Table, rank: int): (r: Option<string>)
    ensures r.None? <==> forall i :: 0 <= i < |t| ==> t[i].1 != rank
    ensures r.Some? ==> exists i :: 0 <= i < |t| && t[i] == (r.value, rank)
  {
    if t == [] then None
    else if t[|t| - 1].1 == rank then Some(t[|t| - 1].0)
    else
      var r := NameOf(t[..|t| - 1], rank);
      assert forall i :: 0 <= i < |t| - 1 ==> t[..|t| - 1][i] == t[i];
      r
  }

  /** In an injective table both lookups find entry `i`. */
  lemma {:induction false} LookupAt(t: Table, i: int)
    requires Injective(t) && 0 <= i < |t|
    ensures RankOf(t, t[i].0) == Some(t[i].1)
    ensures NameOf(t, t[i].1) == Some(t[i].0)
    decreases |t|
  {
    if i < |t| - 1 {
      var s := t[..|t| - 1];
      assert s[i] == t[i];
      assert Injective(s) by {
        forall a, b | 0 <= a < b < |s| ensures s[a].0 != s[b].0 && s[a].1 != s[b].1 {
          assert s[a] == t[a] && s[b] == t[b];
        }
      }
      LookupAt(s, i);
    }
  }

  /** A level name goes to its rank and back: `log` with that rank reaches the same name. */
  lemma NameRoundTrip(t: Table, name: string)
    requires Injective(t) && RankOf(t, name).Some?
    ensures NameOf(t, RankOf(t, name).value) == Some(name)
  {
    var i :| 0 <= i < |t| && t[i] == (name, RankOf(t, name).value);
    LookupAt(t, i);
  }

  /** A rank that names a level goes to that name and back. */
  lemma RankRoundTrip(t: Table, rank: int)
    requires Injective(t) && NameOf(t, rank).Some?
    ensures RankOf(t, NameOf(t, rank).value) == Some(rank)
  {
    var i :| 0 <= i < |t| && t[i] == (NameOf(t, rank).value, rank);
    LookupAt(t, i);
  }

  /** Two names with the same rank are the same name. */
  lemma RankDeterminesName(t: Table, a: string, b: string)
    requires Injective(t) && RankOf(t, a).Some? && RankOf(t, a) == RankOf(t, b)
    ensures a == b
  {
    NameRoundTrip(t, a);
    NameRoundTrip(t, b);
  }

  /** `log`'s level argument: a name, or a number (PHP's `is_numeric`). */
  datatype LevelArg = Named(name: string) | Numeric(rank: int)

  /**
   * `log`'s level: a number is looked up in the flipped table; one that names
   * no level gives null, which `handleRequest` refuses as a name.
   */
  function LevelName(t: Table, level: LevelArg): (r: Result<string>)
    ensures level.Named? ==> r == Ok(level.name)
    ensures level.Numeric? ==> (r.Ok? <==> NameOf(t, level.rank).Some?)
    ensures level.Numeric? && r.Ok? ==> exists i :: 0 <= i < |t| && t[i] == (r.value, level.rank)
    ensures r.Err? ==> r.error == UnknownLevel
  {
    match level
    case Named(name) => Ok(name)
    case Numeric(rank) => (match NameOf(t, rank) case Some(name) => Ok(name) case None => Err(UnknownLevel))
  }

  /** In an injective table `log` with a rank reaches the one level that has that rank. */
  lemma LevelNameOfRank(t: Table, i: int)
    requires Injective(t) && 0 <= i < |t|
    ensures LevelName(t, Numeric(t[i].1)) == Ok(t[i].0)
  {
    LookupAt(t, i);
  }

  /** The PSR table lists the eight levels from most to least severe, ranked 0 to 7. */
  lemma PsrTable()
    ensures Injective(PsrLevels)
    ensures |PsrLevels| == 8 && forall i :: 0 <= i < 8 ==> PsrLevels[i].1 == i
  {
  }

  /** The Canary table ranks the same seven levels the other way round, then `ok` at 0 and `debug` at 255. */
  lemma CanaryTable()
    ensures Injective(CanaryLevels)
    ensures |CanaryLevels| == 9 && forall i :: 0 <= i < 8 ==> CanaryLevels[i].1 == 7 - i
    ensures CanaryLevels[..7] == seq(7, i requires 0 <= i < 7 => (PsrLevels[i].0, 7 - PsrLevels[i].1))
    ensures CanaryLevels[7] == ("ok", 0) && CanaryLevels[8] == ("debug", 255)
  {
  }

  // ---------------------------------------------------------------- `__call`

  /** The method `__call` looks for: the name without any `Async`, compared case-insensitively. */
  function AsyncTarget(name: string): string {
    Lower(ReplaceAll(name, "Async", ""))
  }

  /** Where `__call` sends a call: a severity method, `debug`, another method, or nowhere. */
  datatype Dispatch = Level(name: string) | Unsupported | OtherMethod(name: string) | Missing

  /**
   * `__call`'s `method_exists` test, for a class whose severity methods are
   * `levels` and whose other methods, besides `debug`, are `others`.
   */
  function DispatchAsync(levels: seq<string>, others: set<string>, name: string): (d: Dispatch)
    requires "debug" !in levels
    ensures d.Level? <==> AsyncTarget(name) in levels
    ensures d.Level? ==> d.name == AsyncTarget(name)
    ensures d.Unsupported? <==> AsyncTarget(name) == "debug"
    ensures d.OtherMethod? <==> AsyncTarget(name) !in levels && AsyncTarget(name) != "debug" && AsyncTarget(name) in others
    ensures d.Missing? <==> AsyncTarget(name) !in levels && AsyncTarget(name) != "debug" && AsyncTarget(name) !in others
  {
    var t := AsyncTarget(name);
    if t in levels then Level(t)
    else if t == "debug" then Unsupported
    else if t in others then OtherMethod(t)
    else Missing
  }

  /** Lower case letters, digits and punctuation are left alone by the case folding. */
  lemma {:induction false} LowerKeeps(s: string)
    requires forall i :: 0 <= i < |s| ==> !('A' <= s[i] <= 'Z')
    ensures Lower(s) == s
  {
    if s != [] {
      LowerKeeps(s[1..]);
    }
  }

  /** Appending `Async` to a lower-case method name leads `__call` back to that name. */
  lemma AsyncSuffixStripped(s: string)
    requires forall i :: 0 <= i < |s| ==> !('A' <= s[i] <= 'Z')
    ensures AsyncTarget(s + "Async") == s
  {
    assert 'A' !in s;
    ReplaceFreeThenMatch(s, "Async", "", "");
    ReplaceAllSkipFree("", "", "Async", "");
    assert s + "Async" + "" == s + "Async";
    LowerKeeps(s);
  }
}
