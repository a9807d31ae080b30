/** The logger configuration record: minimum severity, rolling policy and
    file-name prefix, with validating builders and a document reader. */
module LogConfigs {
  import opened Wrappers
  import opened Errors
  import opened JsValues
  import LogLevels
  import RollingConfigs

  datatype LogConfig = LogConfig(level: int, rolling_config: RollingConfigs.RollingConfig, file_prefix: string)

  /** The severity is one of the five and the rolling policy is valid. */
  predicate Valid(c: LogConfig) {
    LogLevels.IsLevel(c.level) && RollingConfigs.Valid(c.rolling_config)
  }

  const DefaultPrefix: string := "Logtar_"

  const LevelKey: string := "level"
  const RollingKey: string := "rolling_config"
  const PrefixKey: string := "file_prefix"

  /** `LogConfig.with_defaults()`: every severity, the default rolling policy,
      prefix "Logtar_". */
  function Defaults(): (c: LogConfig)
    ensures c.level == LogLevels.Debug && c.level == 0
    ensures c.rolling_config == RollingConfigs.Defaults()
    ensures c.file_prefix == "Logtar_"
    ensures Valid(c)
  {
    LogConfig(LogLevels.Debug, RollingConfigs.Defaults(), DefaultPrefix)
  }

  /** `LogConfig.assert`: passes when called without an argument (`None`) or
      with an instance, and fails for every other value. */
  function Assert(arg: Option<Arg<LogConfig>>): (o: Outcome<Error>)
    ensures o.Pass? <==> arg.None? || arg.value.Instance?
    ensures o.Fail? ==> o.error == InvalidLogConfig
  {
    match arg
    case None => Pass
    case Some(Instance(_)) => Pass
    case Some(Plain(_)) => Fail(InvalidLogConfig)
  }

  /** `with_log_level`: replaces the severity when `LogLevel.assert` passes. */
  function WithLogLevel(c: LogConfig, v: Json): (r: Result<LogConfig, Error>)
    ensures r.Ok? <==> LogLevels.Assert(v).Pass?
    ensures r.Ok? ==> r.value.level == v.n
    ensures r.Ok? ==> r.value.rolling_config == c.rolling_config && r.value.file_prefix == c.file_prefix
    ensures r.Err? ==> r.error == InvalidLogLevel
    ensures Valid(c) && r.Ok? ==> Valid(r.value)
  {
    match LogLevels.Assert(v)
    case Fail(e) => Err(e)
    case Pass => Ok(c.(level := v.n))
  }

  /** `with_file_prefix`: any string, the empty one included, replaces the
      prefix; every other value is rejected. */
  function WithFilePrefix(c: LogConfig, v: Json): (r: Result<LogConfig, Error>)
    ensures r.Ok? <==> v.JStr?
    ensures r.Ok? ==> r.value == LogConfig(c.level, c.rolling_config, v.s)
    ensures r.Err? ==> r.error == InvalidFilePrefix
    ensures Valid(c) && r.Ok? ==> Valid(r.value)
  {
    if !v.JStr? then Err(InvalidFilePrefix) else Ok(c.(file_prefix := v.s))
  }

  /** `with_rolling_config`: replaces the whole rolling policy with the one
      `RollingConfig.from_json` reads from `v`, so a threshold missing from `v`
      reverts to its default instead of keeping the current value. */
  method WithRollingConfig(c: LogConfig, v: Json) returns (r: Result<LogConfig, Error>)
    ensures r.Ok? <==> RollingConfigs.Rejections(v) == {}
    ensures r.Ok? ==> r.value == LogConfig(c.level, RollingConfigs.Overlay(v), c.file_prefix)
    ensures r.Err? ==> r.error in RollingConfigs.Rejections(v)
    ensures Valid(c) && r.Ok? ==> Valid(r.value)
  {
    var rc :- RollingConfigs.FromJson(v);
    RollingConfigs.OverlayValid(v);
    return Ok(c.(rolling_config := rc));
  }

  /** The errors one property of a configuration document provokes. */
  function KeyRejections(key: string, v: Json): set<Error> {
    if key == LevelKey && LogLevels.Assert(v).Fail? then {InvalidLogLevel}
    else if key == RollingKey then RollingConfigs.Rejections(v)
    else if key == PrefixKey && !v.JStr? then {InvalidFilePrefix}
    else {}
  }

  /** The errors `from_json(j)` may throw, one for each recognised property
      with an invalid value, nested rolling thresholds included. */
  function Rejections(j: Json): set<Error> {
    match Properties(j)
    case Err(e) => {e}
    case Ok(m) =>
      (if LevelKey in m then KeyRejections(LevelKey, m[LevelKey]) else {})
      + (if RollingKey in m then KeyRejections(RollingKey, m[RollingKey]) else {})
      + (if PrefixKey in m then KeyRejections(PrefixKey, m[PrefixKey]) else {})
  }

  /** The defaults overridden by the recognised properties of `m` among `done`. */
  function OverlayOn(m: map<string, Json>, done: set<string>): LogConfig {
    LogConfig(
      if LevelKey in done && LevelKey in m && m[LevelKey].JNum? then m[LevelKey].n else LogLevels.Debug,
      if RollingKey in done && RollingKey in m then RollingConfigs.Overlay(m[RollingKey]) else RollingConfigs.Defaults(),
      if PrefixKey in done && PrefixKey in m && m[PrefixKey].JStr? then m[PrefixKey].s else DefaultPrefix)
  }

  /** The configuration `from_json(j)` builds when it does not throw: the
      defaults overridden by the recognised properties of `j`. */
  function Overlay(j: Json): LogConfig {
    var m := PropertiesOrEmpty(j);
    OverlayOn(m, m.Keys)
  }

  /** `LogConfig.from_json`: starts from the defaults and applies each property
      `Object.keys` lists, in an order the model leaves open, through the
      matching builder; other keys are skipped. */
  method FromJson(j: Json) returns (r: Result<LogConfig, Error>)
    ensures r.Ok? <==> Rejections(j) == {}
    ensures r.Ok? ==> r.value == Overlay(j)
    ensures r.Err? ==> r.error in Rejections(j)
    ensures r.Ok? ==> Valid(r.value)
  {
    var m :- Properties(j);
    var lc := Defaults();
    var remaining := m.Keys;
    while remaining != {}
      invariant remaining <= m.Keys
      invariant lc == OverlayOn(m, m.Keys - remaining)
      invariant forall key :: key in m && key !in remaining ==> KeyRejections(key, m[key]) == {}
      decreases remaining
    {
      var key :| key in remaining;
      if key == LevelKey {
        lc :- WithLogLevel(lc, m[key]);
      } else if key == RollingKey {
        lc :- WithRollingConfig(lc, m[key]);
      } else if key == PrefixKey {
        lc :- WithFilePrefix(lc, m[key]);
      }
      remaining := remaining - {key};
    }
    OverlayValid(j);
    return Ok(lc);
  }

  /** The document `{level: 2, file_prefix: "Test_"}` gives severity Warn,
      prefix "Test_" and the default rolling policy. */
  lemma LevelAndPrefixExample()
    ensures Rejections(JObj(map[LevelKey := JNum(2), PrefixKey := JStr("Test_")])) == {}
    ensures Overlay(JObj(map[LevelKey := JNum(2), PrefixKey := JStr("Test_")]))
         == LogConfig(LogLevels.Warn, RollingConfigs.Defaults(), "Test_")
  {
  }

  /** One invalid nested threshold makes the whole document fail. */
  lemma NestedRejection(m: map<string, Json>)
    requires RollingKey in m && RollingConfigs.Rejections(m[RollingKey]) != {}
    ensures Rejections(JObj(m)) != {}
    ensures RollingConfigs.Rejections(m[RollingKey]) <= Rejections(JObj(m))
  {
  }

  /** Every configuration `from_json` returns is valid. */
  lemma OverlayValid(j: Json)
    requires Rejections(j) == {}
    ensures Valid(Overlay(j))
  {
  }

  /** Adding or changing an unrecognised property changes neither the outcome
      nor the configuration `from_json` builds. */
  lemma UnknownKeysIgnored(m: map<string, Json>, key: string, v: Json)
    requires key != LevelKey && key != RollingKey && key != PrefixKey
    ensures Rejections(JObj(m[key := v])) == Rejections(JObj(m))
    ensures Overlay(JObj(m[key := v])) == Overlay(JObj(m))
  {
  }

  /** The document that describes `c`: its level, its rolling policy's
      document and its prefix. */
  function ToJson(c: LogConfig): Json {
    JObj(map[LevelKey := JNum(c.level),
             RollingKey := RollingConfigs.ToJson(c.rolling_config),
             PrefixKey := JStr(c.file_prefix)])
  }

  /** Reading back the document of a valid configuration succeeds and yields
      that configuration. */
  lemma ReadBack(c: LogConfig)
    requires Valid(c)
    ensures Rejections(ToJson(c)) == {}
    ensures Overlay(ToJson(c)) == c
  {
  }

  /** Each recognised key of an accepted document is reported back unchanged
      by the configuration it yields. */
  lemma RecognisedKeysKept(m: map<string, Json>)
    requires Rejections(JObj(m)) == {}
    ensures LevelKey in m ==> m[LevelKey] == JNum(Overlay(JObj(m)).level)
    ensures PrefixKey in m ==> m[PrefixKey] == JStr(Overlay(JObj(m)).file_prefix)
    ensures RollingKey in m ==> Overlay(JObj(m)).rolling_config == RollingConfigs.Overlay(m[RollingKey])
  {
  }
}
