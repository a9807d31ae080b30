/** The rolling policy record: when a log file should be replaced, by age
    (`time_threshold`, seconds) and by size (`size_threshold`, bytes). */
module RollingConfigs {
  import opened Wrappers
  import opened Errors
  import opened JsValues
  import opened RollingOptions

  datatype RollingConfig = RollingConfig(time_threshold: int, size_threshold: int)

  /** Both thresholds lie in their sanctioned domains. */
  predicate Valid(c: RollingConfig) {
    IsTime(c.time_threshold) && IsSize(c.size_threshold)
  }

  const SizeKey: string := "size_threshold"
  const TimeKey: string := "time_threshold"

  /** `RollingConfig.with_defaults()`: hourly files of at most five MiB. */
  function Defaults(): (c: RollingConfig)
    ensures c.time_threshold == 3600 && c.size_threshold == 5 * 1024 * 1024
    ensures Valid(c)
  {
    RollingConfig(Hourly, FiveMB)
  }

  /** `RollingConfig.assert`: passes only for an instance. */
  function Assert(arg: Arg<RollingConfig>): (o: Outcome<Error>)
    ensures o.Pass? <==> arg.Instance?
    ensures o.Fail? ==> o.error == InvalidRollingConfig
  {
    if arg.Instance? then Pass else Fail(InvalidRollingConfig)
  }

  /** `with_size_threshold`: replaces the size when the size check passes. */
  function WithSizeThreshold(c: RollingConfig, v: Json): (r: Result<RollingConfig, Error>)
    ensures r.Ok? <==> v.JNum? && v.n >= 1024
    ensures r.Ok? ==> r.value.size_threshold == v.n && r.value.time_threshold == c.time_threshold
    ensures r.Err? ==> r.error == InvalidSizeThreshold
    ensures Valid(c) && r.Ok? ==> Valid(r.value)
  {
    match AssertSize(v)
    case Fail(e) => Err(e)
    case Pass => Ok(c.(size_threshold := v.n))
  }

  /** `with_time_threshold`: replaces the period when the time check passes. */
  function WithTimeThreshold(c: RollingConfig, v: Json): (r: Result<RollingConfig, Error>)
    ensures r.Ok? <==> v.JNum? && IsTime(v.n)
    ensures r.Ok? ==> r.value.time_threshold == v.n && r.value.size_threshold == c.size_threshold
    ensures r.Err? ==> r.error == InvalidTimeThreshold
    ensures Valid(c) && r.Ok? ==> Valid(r.value)
  {
    match AssertTime(v)
    case Fail(e) => Err(e)
    case Pass => Ok(c.(time_threshold := v.n))
  }

  /** The errors one property of a rolling document provokes: none for an
      unrecognised key. */
  function KeyRejections(key: string, v: Json): set<Error> {
    if key == SizeKey && AssertSize(v).Fail? then {InvalidSizeThreshold}
    else if key == TimeKey && AssertTime(v).Fail? then {InvalidTimeThreshold}
    else {}
  }

  /** The errors `from_json(j)` may throw: every recognised property with an
      invalid value contributes its error, and which one is thrown depends on
      the order `Object.keys` lists them in. */
  function Rejections(j: Json): set<Error> {
    match Properties(j)
    case Err(e) => {e}
    case Ok(m) =>
      (if SizeKey in m then KeyRejections(SizeKey, m[SizeKey]) else {})
      + (if TimeKey in m then KeyRejections(TimeKey, m[TimeKey]) else {})
  }

  /** The integer `m[key]` when `key` is among `done`, `m` holds it and it is a
      number; otherwise `default`. */
  function Setting(m: map<string, Json>, done: set<string>, key: string, default: int): int {
    if key in done && key in m && m[key].JNum? then m[key].n else default
  }

  /** The defaults overridden by the recognised properties of `m` among `done`. */
  function OverlayOn(m: map<string, Json>, done: set<string>): RollingConfig {
    RollingConfig(Setting(m, done, TimeKey, Hourly), Setting(m, done, SizeKey, FiveMB))
  }

  /** The configuration `from_json(j)` builds when it does not throw: the
      defaults overridden by the recognised properties of `j`. */
  function Overlay(j: Json): RollingConfig {
    var m := PropertiesOrEmpty(j);
    OverlayOn(m, m.Keys)
  }

  /** `RollingConfig.from_json`: starts from the defaults and applies each
      property `Object.keys` lists, in an order the model leaves open, through
      the matching `with_*` setter; other keys are skipped. */
  method FromJson(j: Json) returns (r: Result<RollingConfig, Error>)
    ensures r.Ok? <==> Rejections(j) == {}
    ensures r.Ok? ==> r.value == Overlay(j)
    ensures r.Err? ==> r.error in Rejections(j)
    ensures r.Ok? ==> Valid(r.value)
  {
    var m :- Properties(j);
    var rc := Defaults();
    var remaining := m.Keys;
    while remaining != {}
      invariant remaining <= m.Keys
      invariant rc == OverlayOn(m, m.Keys - remaining)
      invariant SizeKey in m && SizeKey !in remaining ==> AssertSize(m[SizeKey]).Pass?
      invariant TimeKey in m && TimeKey !in remaining ==> AssertTime(m[TimeKey]).Pass?
      decreases remaining
    {
      var key :| key in remaining;
      if key == SizeKey {
        rc :- WithSizeThreshold(rc, m[key]);
      } else if key == TimeKey {
        rc :- WithTimeThreshold(rc, m[key]);
      }
      remaining := remaining - {key};
    }
    OverlayValid(j);
    return Ok(rc);
  }

  /** Setting a threshold and reading it back yields the value set, and the
      other threshold keeps its value. */
  lemma SetThenGet(c: RollingConfig, n: int, t: int)
    requires n >= 1024 && IsTime(t)
    ensures WithSizeThreshold(c, JNum(n)) == Ok(RollingConfig(c.time_threshold, n))
    ensures WithTimeThreshold(c, JNum(t)) == Ok(RollingConfig(t, c.size_threshold))
  {
  }

  /** An empty document yields exactly the defaults. */
  lemma EmptyDocumentIsDefaults()
    ensures Rejections(JObj(map[])) == {}
    ensures Overlay(JObj(map[])) == Defaults()
  {
  }

  /** A threshold absent from the document takes its default value. */
  lemma AbsentKeyIsDefault(m: map<string, Json>)
    ensures SizeKey !in m ==> Overlay(JObj(m)).size_threshold == Defaults().size_threshold
    ensures TimeKey !in m ==> Overlay(JObj(m)).time_threshold == Defaults().time_threshold
  {
  }

  /** Adding or changing an unrecognised property changes neither the outcome
      nor the configuration `from_json` builds. */
  lemma UnknownKeysIgnored(m: map<string, Json>, key: string, v: Json)
    requires key != SizeKey && key != TimeKey
    ensures Rejections(JObj(m[key := v])) == Rejections(JObj(m))
    ensures Overlay(JObj(m[key := v])) == Overlay(JObj(m))
  {
  }

  /** Every configuration `from_json` returns keeps both thresholds in their
      domains. */
  lemma OverlayValid(j: Json)
    requires Rejections(j) == {}
    ensures Valid(Overlay(j))
  {
  }

  /** The document that describes `c`: exactly its two thresholds. */
  function ToJson(c: RollingConfig): Json {
    JObj(map[TimeKey := JNum(c.time_threshold), SizeKey := JNum(c.size_threshold)])
  }

  /** Reading back the document of a valid configuration succeeds and yields
      that configuration. */
  lemma ReadBack(c: RollingConfig)
    requires Valid(c)
    ensures Rejections(ToJson(c)) == {}
    ensures Overlay(ToJson(c)) == c
  {
  }

  /** A document that sets both thresholds validly is described again by the
      configuration it yields, up to its unrecognised keys. */
  lemma DocumentRoundTrip(m: map<string, Json>)
    requires SizeKey in m && TimeKey in m
    requires Rejections(JObj(m)) == {}
    ensures ToJson(Overlay(JObj(m))).fields == map k | k in m && k in {SizeKey, TimeKey} :: m[k]
  {
  }
}
