/** The logger runtime: a configuration, the file handle `init` opened (if
    any), and the lines written so far. Every operation is a pure step from one
    state to the next. */
module Loggers {
  import opened Wrappers
  import opened Errors
  import opened JsValues
  import LogLevels
  import RollingConfigs
  import LogConfigs
  import LogFileNames

  /** `handle` is the descriptor of the open file, `None` before `init` has run;
      `written` lists, oldest first, every line handed to the file. */
  datatype Logger = Logger(config: LogConfigs.LogConfig, handle: Option<int>, written: seq<string>)

  /** The constructor: an absent or falsy argument selects the default
      configuration, a configuration instance is kept, and any other value is
      rejected by `LogConfig.assert`. No file is open yet. */
  function New(arg: Option<Arg<LogConfigs.LogConfig>>): (r: Result<Logger, Error>)
    ensures r.Ok? <==> arg.None? || arg.value.Instance? || !Truthy(arg.value.value)
    ensures r.Err? ==> r.error == InvalidLogConfig
    ensures r.Ok? && arg.Some? && arg.value.Instance? ==> r.value.config == arg.value.instance
    ensures r.Ok? && (arg.None? || arg.value.Plain?) ==> r.value.config == LogConfigs.Defaults()
    ensures r.Ok? ==> r.value.handle == None && r.value.written == []
  {
    var chosen := if arg.Some? && ArgTruthy(arg.value) then arg.value else Instance(LogConfigs.Defaults());
    :- LogConfigs.Assert(Some(chosen));
    Ok(Logger(chosen.instance, None, []))
  }

  /** `Logger.with_defaults()`. */
  function WithDefaults(): Result<Logger, Error> {
    New(None)
  }

  /** `Logger.with_config(c)`. */
  function WithConfig(arg: Option<Arg<LogConfigs.LogConfig>>): Result<Logger, Error> {
    New(arg)
  }

  function Level(lg: Logger): int {
    lg.config.level
  }

  function FilePrefix(lg: Logger): string {
    lg.config.file_prefix
  }

  function TimeThreshold(lg: Logger): int {
    lg.config.rolling_config.time_threshold
  }

  function SizeThreshold(lg: Logger): int {
    lg.config.rolling_config.size_threshold
  }

  /** `init`, with the clock reading `timestamp` (ISO-8601) and the descriptor
      `fd` the file system hands back as parameters: opens the file named from
      the prefix and the timestamp and makes it the current handle. Returns the
      new state and the name of the file opened. */
  function Init(lg: Logger, timestamp: string, fd: int): (r: (Logger, string))
    ensures r.0.handle == Some(fd)
    ensures r.0.config == lg.config && r.0.written == lg.written
    ensures r.1 == LogFileNames.FileName(lg.config.file_prefix, timestamp)
  {
    (lg.(handle := Some(fd)), LogFileNames.FileName(lg.config.file_prefix, timestamp))
  }

  /** The handle's descriptor is truthy: any number but 0. */
  predicate HandleOpen(lg: Logger) {
    lg.handle.Some? && lg.handle.value != 0
  }

  /** The gate lets a message of severity `level` through. */
  predicate Passes(lg: Logger, level: int) {
    level >= lg.config.level && HandleOpen(lg)
  }

  /** The line written for a message: the severity's name, ": ", the message. */
  function Line(name: string, message: string): string {
    name + ": " + message
  }

  /** `#log`: a message below the configured severity is dropped without
      looking at the handle; otherwise reading `.fd` of a handle that was never
      opened throws, a descriptor of 0 drops the message, and any other
      descriptor appends exactly one line. */
  function Log(lg: Logger, message: string, level: int): (r: Result<Logger, Error>)
    ensures level < lg.config.level ==> r == Ok(lg)
    ensures level >= lg.config.level && lg.handle.None? ==> r == Err(HandleUndefined)
    ensures level >= lg.config.level && lg.handle == Some(0) ==> r == Ok(lg)
    ensures Passes(lg, level) && !LogLevels.IsLevel(level) ==> r == Err(UnsupportedLogLevel)
    ensures r.Ok? ==> r.value.config == lg.config && r.value.handle == lg.handle
    ensures r.Ok? && |r.value.written| != |lg.written| ==> Passes(lg, level)
    ensures Passes(lg, level) && LogLevels.IsLevel(level) ==>
      r.Ok? && |r.value.written| == |lg.written| + 1 && r.value.written[..|lg.written|] == lg.written
    ensures Passes(lg, level) && LogLevels.IsLevel(level) ==>
      r.value.written[|lg.written|] == Line(LogLevels.Names[level], message)
  {
    if level < lg.config.level then Ok(lg)
    else if lg.handle.None? then Err(HandleUndefined)
    else if lg.handle.value == 0 then Ok(lg)
    else
      match LogLevels.ToString(level)
      case Err(e) => Err(e)
      case Ok(name) => Ok(lg.(written := lg.written + [Line(name, message)]))
  }

  /** A message the gate lets through is written. */
  predicate Writes(lg: Logger, message: string, level: int) {
    var r := Log(lg, message, level);
    r.Ok? && r.value.written != lg.written
  }

  function Debug(lg: Logger, message: string): Result<Logger, Error> {
    Log(lg, message, LogLevels.Debug)
  }

  function Info(lg: Logger, message: string): Result<Logger, Error> {
    Log(lg, message, LogLevels.Info)
  }

  function Warn(lg: Logger, message: string): Result<Logger, Error> {
    Log(lg, message, LogLevels.Warn)
  }

  function Error(lg: Logger, message: string): Result<Logger, Error> {
    Log(lg, message, LogLevels.Error)
  }

  function Critical(lg: Logger, message: string): Result<Logger, Error> {
    Log(lg, message, LogLevels.Critical)
  }

  /** The getters of a freshly constructed logger report its configuration's
      severity, prefix and thresholds. */
  lemma GettersAfterNew(c: LogConfigs.LogConfig)
    ensures New(Some(Instance(c))).Ok?
    ensures var lg := New(Some(Instance(c))).value;
      Level(lg) == c.level && FilePrefix(lg) == c.file_prefix
      && TimeThreshold(lg) == c.rolling_config.time_threshold
      && SizeThreshold(lg) == c.rolling_config.size_threshold
  {
  }

  /** The default logger has the default configuration and no open file. */
  lemma DefaultsLogger()
    ensures WithDefaults().Ok?
    ensures Level(WithDefaults().value) == LogLevels.Debug
    ensures FilePrefix(WithDefaults().value) == "Logtar_"
    ensures TimeThreshold(WithDefaults().value) == 3600
    ensures SizeThreshold(WithDefaults().value) == 5 * 1024 * 1024
    ensures WithDefaults().value.handle == None
  {
  }

  /** Gate monotonicity: a message written at severity `level` would also be
      written at any higher severity, with the handle in the same state. */
  lemma GateMonotone(lg: Logger, message: string, level: int, higher: int, other: string)
    requires Writes(lg, message, level)
    requires level <= higher && LogLevels.IsLevel(higher)
    ensures Writes(lg, other, higher)
  {
  }

  /** A descriptor of -1 is truthy, so unlike 0 it does not drop messages. */
  lemma NegativeDescriptorWrites(lg: Logger, message: string)
    requires lg.handle == Some(-1) && LogConfigs.Valid(lg.config)
    ensures Writes(lg, message, LogLevels.Critical)
  {
  }

  /** Each severity method tags its line with its own name and writes exactly
      when the configured severity does not exceed its own. */
  lemma Forwarding(lg: Logger, m: string)
    requires HandleOpen(lg)
    ensures Debug(lg, m) == if lg.config.level <= 0 then Ok(lg.(written := lg.written + ["DEBUG: " + m])) else Ok(lg)
    ensures Info(lg, m) == if lg.config.level <= 1 then Ok(lg.(written := lg.written + ["INFO: " + m])) else Ok(lg)
    ensures Warn(lg, m) == if lg.config.level <= 2 then Ok(lg.(written := lg.written + ["WARN: " + m])) else Ok(lg)
    ensures Error(lg, m) == if lg.config.level <= 3 then Ok(lg.(written := lg.written + ["ERROR: " + m])) else Ok(lg)
    ensures Critical(lg, m) == if lg.config.level <= 4 then Ok(lg.(written := lg.written + ["CRITICAL: " + m])) else Ok(lg)
  {
    assert "DEBUG" + ": " == "DEBUG: ";
    assert "INFO" + ": " == "INFO: ";
    assert "WARN" + ": " == "WARN: ";
    assert "ERROR" + ": " == "ERROR: ";
    assert "CRITICAL" + ": " == "CRITICAL: ";
  }

  /** With severity Warn configured and a file open, `debug` and `info` write
      nothing and `warn("x")` writes the single line "WARN: x". */
  lemma WarnScenario(c: LogConfigs.LogConfig, timestamp: string)
    requires c.level == LogLevels.Warn
    ensures var lg := Init(New(Some(Instance(c))).value, timestamp, 3).0;
      && Debug(lg, "a") == Ok(lg)
      && Info(lg, "b") == Ok(lg)
      && Warn(lg, "x").Ok? && Warn(lg, "x").value.written == ["WARN: x"]
  {
    assert "WARN" + ": " + "x" == "WARN: x";
  }

  /** Before `init`, a message that passes the severity comparison throws. */
  lemma LogBeforeInitFails(c: LogConfigs.LogConfig, message: string)
    requires LogConfigs.Valid(c)
    ensures Critical(New(Some(Instance(c))).value, message) == Err(HandleUndefined)
  {
  }
}
