/** The chain-link utility the adapter inherits: the severity table
    (`logLevels`, a Map from level name to rank plus a `default` entry) and the
    resolution of the minimum level a link forwards (`getMinLogLevel`). */
module LogLevels {
  import opened JsValues

  /** What the severity Map stores under a key: a numeric rank, or, for the
      `default` key only, the name of another level. */
  datatype LevelEntry = Rank(n: nat) | Alias(name: string)

  /** The severities in increasing order. */
  const Names: seq<string> := ["silly", "verbose", "debug", "info", "warn", "error"]

  const DefaultKey: string := "default"

  /** `logLevels`: each severity to its rank, and `default` to the name `info`. */
  const Levels: map<string, LevelEntry> :=
    map["silly" := Rank(0), "verbose" := Rank(1), "debug" := Rank(2),
        "info" := Rank(3), "warn" := Rank(4), "error" := Rank(5),
        "default" := Alias("info")]

  /** The key of the global minimum level. */
  const GlobalKey: string := "MIN_LOG_LEVEL"

  /** The built-in minimum level when no source names one. */
  const BuiltinMin: string := "info"

  /** `logLevels.has(v)`: Map keys are strings, so only a string can be found. */
  predicate Has(v: Value)
    ensures Has(v) <==> v.Str? && (v.s in Names || v.s == DefaultKey)
  {
    assert Names == ["silly", "verbose", "debug", "info", "warn", "error"];
    v.Str? && v.s in Levels
  }

  /** `logLevels.get(v)`, with `undefined` as None. */
  function Lookup(v: Value): (r: Option<LevelEntry>)
    ensures r.Some? <==> Has(v)
    ensures !v.Str? ==> r == None
    ensures forall i :: 0 <= i < |Names| && v == Str(Names[i]) ==> r == Some(Rank(i))
    ensures v == Str(DefaultKey) ==> r == Some(Alias("info"))
  {
    RanksFollowOrder();
    if Has(v) then Some(Levels[v.s]) else None
  }

  /** `logLevels.get('default')`: the level name substituted for an unknown one. */
  function DefaultLevel(): (r: string)
    ensures r in Levels && Levels[r] == Rank(3)
    ensures r in Names
  {
    assert Levels[DefaultKey] == Alias("info");
    Levels[DefaultKey].name
  }

  /** Lexicographic `<` on strings, as JavaScript compares two strings. */
  function StrLess(s: string, t: string): bool
  {
    if |t| == 0 then false
    else if |s| == 0 then true
    else if s[0] != t[0] then s[0] < t[0]
    else StrLess(s[1..], t[1..])
  }

  /** JavaScript `a >= b` on two results of `logLevels.get`. Two ranks compare
      as numbers and two alias names as strings; in every other case one side
      is `undefined` or the alias text `info`, which converts to NaN, and the
      comparison is false. */
  function JsGe(a: Option<LevelEntry>, b: Option<LevelEntry>): (r: bool)
    // `undefined` on either side, or a rank against a name, never compares true
    ensures r ==> a.Some? && b.Some? && a.value.Rank? == b.value.Rank?
    ensures a.Some? && b.Some? && a.value.Rank? && b.value.Rank? ==> (r <==> a.value.n >= b.value.n)
    // any entry found in the table is `>=` itself
    ensures a == b && a.Some? ==> r
  {
    match (a, b)
    case (Some(Rank(x)), Some(Rank(y))) => x >= y
    case (Some(Alias(s)), Some(Alias(t))) => StrLessIrreflexive(s); !StrLess(s, t)
    case _ => false
  }

  lemma {:induction false} StrLessIrreflexive(s: string)
    ensures !StrLess(s, s)
  {
    if |s| > 0 {
      StrLessIrreflexive(s[1..]);
    }
  }

  /** The severity order is strict and total, and each name has the rank of
      its position. */
  lemma RanksFollowOrder()
    ensures forall i :: 0 <= i < |Names| ==> Names[i] in Levels && Levels[Names[i]] == Rank(i)
    ensures forall i, j :: 0 <= i < j < |Names| ==> Levels[Names[i]].n < Levels[Names[j]].n
    ensures Levels.Keys == (set i | 0 <= i < |Names| :: Names[i]) + {DefaultKey}
  {
    assert Names[0] == "silly" && Names[1] == "verbose" && Names[2] == "debug";
    assert Names[3] == "info" && Names[4] == "warn" && Names[5] == "error";
  }

  /** Comparing two severities by `>=` on their looked-up ranks is comparing
      their positions in the order. */
  lemma GeOnNamesIsOrder(i: nat, j: nat)
    requires i < |Names| && j < |Names|
    ensures JsGe(Lookup(Str(Names[i])), Lookup(Str(Names[j]))) <==> i >= j
  {
    RanksFollowOrder();
  }

  /** The `default` entry holds a name, not a rank: comparing it with a real
      rank is false on either side. */
  lemma DefaultEntryIsNotARank(v: Value)
    requires Has(v) && v.s in Names
    ensures Lookup(Str(DefaultKey)) == Some(Alias("info"))
    ensures !JsGe(Lookup(Str(DefaultKey)), Lookup(v))
    ensures !JsGe(Lookup(v), Lookup(Str(DefaultKey)))
    ensures JsGe(Lookup(Str(DefaultKey)), Lookup(Str(DefaultKey)))
  {
    RanksFollowOrder();
    var i :| 0 <= i < |Names| && Names[i] == v.s;
    assert Levels[v.s] == Rank(i);
    StrLessIrreflexive("info");
  }

  /** `MIN_LOG_LEVEL_<chain>`; an omitted chain name is the empty string. */
  function ScopedKey(chain: Option<string>): (r: string)
    ensures chain == None ==> r == "MIN_LOG_LEVEL_"
    ensures chain.Some? ==> r == "MIN_LOG_LEVEL_" + chain.value
  {
    GlobalKey + "_" + (match chain case Some(c) => c case None => "")
  }

  /** The four configured sources of the minimum level, highest precedence
      first: scoped env, scoped settings, global env, global settings. */
  function Sources(env: Env, config: Option<Settings>, chain: Option<string>): (r: seq<Value>)
    ensures |r| == 4
  {
    var settings := OrEmpty(config);
    [EnvGet(env, ScopedKey(chain)), Get(settings, ScopedKey(chain)),
     EnvGet(env, GlobalKey), Get(settings, GlobalKey)]
  }

  /** The first truthy value of `vs`, or `fallback` when there is none: the
      reference meaning of a chain `vs[0] || vs[1] || ... || fallback`. */
  function FirstTruthy(vs: seq<Value>, fallback: Value): Value
  {
    if |vs| == 0 then fallback else Or(vs[0], FirstTruthy(vs[1..], fallback))
  }

  /** `getMinLogLevel(config, chain)`. */
  function MinLogLevel(env: Env, config: Option<Settings>, chain: Option<string>): (r: Value)
    ensures Truthy(r)
    ensures r == Str(BuiltinMin) || r in Sources(env, config, chain)
  {
    var settings := OrEmpty(config);
    var minLogLevel :=
      Or(Or(Or(EnvGet(env, ScopedKey(chain)), Get(settings, ScopedKey(chain))),
            EnvGet(env, GlobalKey)),
         Get(settings, GlobalKey));
    Or(minLogLevel, Str(BuiltinMin))
  }

  lemma {:induction false} FirstTruthyPicksFirst(vs: seq<Value>, fallback: Value, i: nat)
    requires i < |vs| && Truthy(vs[i])
    requires forall j :: 0 <= j < i ==> !Truthy(vs[j])
    ensures FirstTruthy(vs, fallback) == vs[i]
  {
    if i > 0 {
      FirstTruthyPicksFirst(vs[1..], fallback, i - 1);
    }
  }

  lemma {:induction false} FirstTruthyFallsBack(vs: seq<Value>, fallback: Value)
    requires forall j :: 0 <= j < |vs| ==> !Truthy(vs[j])
    ensures FirstTruthy(vs, fallback) == fallback
  {
    if |vs| > 0 {
      FirstTruthyFallsBack(vs[1..], fallback);
    }
  }

  /** Two source lists that agree wherever either is truthy pick the same value:
      a falsy source, whatever it is, is skipped. */
  lemma {:induction false} FirstTruthyIgnoresFalsy(a: seq<Value>, b: seq<Value>, fallback: Value)
    requires |a| == |b|
    requires forall j :: 0 <= j < |a| && (Truthy(a[j]) || Truthy(b[j])) ==> a[j] == b[j]
    ensures FirstTruthy(a, fallback) == FirstTruthy(b, fallback)
  {
    if |a| > 0 {
      FirstTruthyIgnoresFalsy(a[1..], b[1..], fallback);
    }
  }

  /** The `||` chain of `getMinLogLevel` is the first truthy source, else `info`. */
  lemma MinLogLevelIsFirstTruthy(env: Env, config: Option<Settings>, chain: Option<string>)
    ensures MinLogLevel(env, config, chain) == FirstTruthy(Sources(env, config, chain), Str(BuiltinMin))
  {
    var s := Sources(env, config, chain);
    var fb := Str(BuiltinMin);
    assert s[1..][1..][1..][1..] == [];
    assert FirstTruthy(s[1..][1..][1..], fb) == Or(s[3], fb);
    assert FirstTruthy(s[1..][1..], fb) == Or(s[2], Or(s[3], fb));
    assert FirstTruthy(s[1..], fb) == Or(s[1], Or(s[2], Or(s[3], fb)));
    assert FirstTruthy(s, fb) == Or(s[0], Or(s[1], Or(s[2], Or(s[3], fb))));
  }

  /** Five-step precedence: the first truthy source wins over every later one. */
  lemma MinLogLevelPrecedence(env: Env, config: Option<Settings>, chain: Option<string>, i: nat)
    requires i < 4
    requires Truthy(Sources(env, config, chain)[i])
    requires forall j :: 0 <= j < i ==> !Truthy(Sources(env, config, chain)[j])
    ensures MinLogLevel(env, config, chain) == Sources(env, config, chain)[i]
  {
    MinLogLevelIsFirstTruthy(env, config, chain);
    FirstTruthyPicksFirst(Sources(env, config, chain), Str(BuiltinMin), i);
  }

  /** With every source absent or empty the minimum level is `info`. */
  lemma MinLogLevelDefaultsToInfo(env: Env, config: Option<Settings>, chain: Option<string>)
    requires forall j :: 0 <= j < 4 ==> !Truthy(Sources(env, config, chain)[j])
    ensures MinLogLevel(env, config, chain) == Str("info")
  {
    MinLogLevelIsFirstTruthy(env, config, chain);
    FirstTruthyFallsBack(Sources(env, config, chain), Str(BuiltinMin));
  }

  /** An environment variable set to the empty string is skipped exactly as an
      unset one. */
  lemma EmptyEnvEntryIsSkipped(env: Env, config: Option<Settings>, chain: Option<string>, key: string)
    ensures MinLogLevel(env[key := ""], config, chain) == MinLogLevel(env - {key}, config, chain)
  {
    MinLogLevelIsFirstTruthy(env[key := ""], config, chain);
    MinLogLevelIsFirstTruthy(env - {key}, config, chain);
    FirstTruthyIgnoresFalsy(Sources(env[key := ""], config, chain), Sources(env - {key}, config, chain), Str(BuiltinMin));
  }

  /** A settings entry holding the empty string is skipped exactly as a
      missing one. */
  lemma EmptySettingIsSkipped(env: Env, settings: Settings, chain: Option<string>, key: string)
    ensures MinLogLevel(env, Some(settings[key := Str("")]), chain) == MinLogLevel(env, Some(settings - {key}), chain)
  {
    MinLogLevelIsFirstTruthy(env, Some(settings[key := Str("")]), chain);
    MinLogLevelIsFirstTruthy(env, Some(settings - {key}), chain);
    FirstTruthyIgnoresFalsy(Sources(env, Some(settings[key := Str("")]), chain),
                            Sources(env, Some(settings - {key}), chain), Str(BuiltinMin));
  }

  /** A null or undefined config reads as an empty settings object. */
  lemma NullConfigIsEmptySettings(env: Env, chain: Option<string>)
    ensures MinLogLevel(env, None, chain) == MinLogLevel(env, Some(map[]), chain)
    ensures Sources(env, None, chain)[1] == Undefined && Sources(env, None, chain)[3] == Undefined
  {
  }
}
