# Logtar configuration and gating, modelled in Dafny

This project models the core of Logtar, a small Node.js file logger: its
severity enumeration (`LogLevel`), the rolling option domains
(`RollingSizeOptions`, `RollingTimeOptions`), the two configuration records
(`RollingConfig`, `LogConfig`) with their validating `with_*` builders and
`from_json` readers, and the `Logger` runtime's constructor, `init` file naming,
severity gate and line format.

JavaScript `throw` becomes an `Err`/`Fail` value (`Errors.Error` names each
thrown error). The JavaScript values the configuration code receives are
`JsValues.Json`: null (also standing for undefined), booleans, integers,
strings, arrays and objects (a map from key to value). An argument that an
`instanceof` check inspects is `JsValues.Arg`: a class instance or a plain value.
The `with_*` setters mutate and `return this`; every caller shown uses the
returned value, so they are modelled as functions returning the updated record.

`from_json` walks `Object.keys(json)` and applies each recognised key through
its setter, throwing on the first invalid one. The model walks the keys in an
order it leaves open, and proves the result does not depend on it: the call
succeeds exactly when no recognised key holds an invalid value, the
configuration it returns is the defaults overridden by the recognised keys
(`Overlay`), and the error it returns is one of those the invalid keys provoke
(`Rejections`).

The logger state is `Loggers.Logger`: the configuration, the descriptor of the
open file (`None` before `init`), and the lines written so far. The clock's ISO
timestamp and the descriptor `fs.open` returns are parameters of `Init`.

Notable behaviour of the code:
- the written line is `LEVEL: message`, with no timestamp, caller site or
  newline (lib/logger.js:91);
- no rolling check follows a write; the thresholds are only reported by getters
  (lib/logger.js:38-47);
- a message at or above the configured severity sent before `init` is not
  silently dropped: reading `.fd` of the undefined handle throws
  (lib/logger.js:87);
- a descriptor of -1 is truthy, so such a handle does not drop messages, though
  the comment at lib/logger.js:86 says it should.

## Model

| member | source | states |
|---|---|---|
| LogLevels.Assert | lib/utils/log-level.js:31-47 | passes exactly for the integers 0 to 4 and fails with the invalid-level error for every other value |
| LogLevels.ToString | lib/utils/log-level.js:55-69 | maps 0..4 to "DEBUG", "INFO", "WARN", "ERROR", "CRITICAL" and fails for every other integer |
| LogLevels.LevelsAscending | lib/utils/log-level.js:2-6 | the severities are Debug=0 … Critical=4, strictly increasing |
| LogLevels.ToStringTotalOnAccepted | lib/utils/log-level.js:31-69 | `to_string` succeeds on exactly the values `assert` accepts |
| LogLevels.NamesDistinct | lib/utils/log-level.js:56-62 | two severities with the same name are the same severity |
| RollingOptions.AssertSize | lib/utils/rolling-options.js:24-35 | a size passes iff it is a number of at least 1024 |
| RollingOptions.AssertTime | lib/utils/rolling-options.js:54-72 | a period passes iff it is one of 5, 60, 3600, 86400, 604800, 2592000, 31104000 |
| RollingOptions.SizeOptionsAscending | lib/utils/rolling-options.js:5-18 | the size constants are their stated products and strictly increase in declaration order |
| RollingOptions.SizeOptionsAccepted | lib/utils/rolling-options.js:5-35 | every named size passes the size check |
| RollingOptions.SizeBoundary | lib/utils/rolling-options.js:24-35 | 1024 passes, 1023 and a non-number fail |
| RollingOptions.SizeUpwardClosed | lib/utils/rolling-options.js:25-28 | any number above an accepted size is accepted |
| RollingOptions.TimeOptionsAscending | lib/utils/rolling-options.js:42-48 | the periods are the seven listed values, each derived from the previous by multiplication, strictly increasing |
| RollingOptions.TimeRejectsOthers | lib/utils/rolling-options.js:54-72 | 0 and 3599 are rejected, 3600 accepted |
| RollingConfigs.Defaults | lib/config/rolling-config.js:15-22 | the defaults are 3600 s and 5 MiB, and they are valid |
| RollingConfigs.Assert | lib/config/rolling-config.js:42-50 | passes exactly for an instance |
| RollingConfigs.WithSizeThreshold | lib/config/rolling-config.js:65-69 | succeeds iff the size check passes, then sets the size and keeps the period; preserves validity |
| RollingConfigs.WithTimeThreshold | lib/config/rolling-config.js:76-80 | succeeds iff the period check passes, then sets the period and keeps the size; preserves validity |
| RollingConfigs.FromJson | lib/config/rolling-config.js:87-102 | whatever the key order: succeeds iff the document is not null and no recognised key is invalid, then returns the defaults overridden by the recognised keys, which is valid; otherwise fails with KeysOfNull (for a null document) or an invalid key's error |
| RollingConfigs.SetThenGet | lib/config/rolling-config.js:27-80 | reading a threshold after setting it gives the value set, and the other threshold is unchanged |
| RollingConfigs.EmptyDocumentIsDefaults | lib/config/rolling-config.js:87-101 | an empty document is accepted and yields the defaults |
| RollingConfigs.AbsentKeyIsDefault | lib/config/rolling-config.js:88-99 | a threshold missing from the document takes its default |
| RollingConfigs.UnknownKeysIgnored | lib/config/rolling-config.js:90-99 | adding or changing an unrecognised key changes neither the outcome nor the result |
| RollingConfigs.OverlayValid | lib/config/rolling-config.js:65-102 | the configuration an accepted document yields is valid |
| RollingConfigs.ReadBack | lib/config/rolling-config.js:87-102 | reading the document of a valid configuration (its two thresholds) succeeds and yields that configuration |
| RollingConfigs.DocumentRoundTrip | lib/config/rolling-config.js:87-102 | a document setting both thresholds validly is described again, recognised keys unchanged, by the configuration it yields |
| LogConfigs.Defaults | lib/config/log-config.js:15-44 | the defaults are level Debug, prefix "Logtar_" and the default rolling policy, and they are valid |
| LogConfigs.Assert | lib/config/log-config.js:50-58 | passes with no argument or an instance, fails for any other value |
| LogConfigs.WithLogLevel | lib/config/log-config.js:71-75 | succeeds iff `LogLevel.assert` passes, then sets the level and keeps prefix and rolling policy; preserves validity |
| LogConfigs.WithFilePrefix | lib/config/log-config.js:93-104 | succeeds for every string, the empty one included, setting only the prefix; fails for every non-string |
| LogConfigs.WithRollingConfig | lib/config/log-config.js:82-85 | replaces the whole rolling policy with what `RollingConfig.from_json` reads, so absent thresholds revert to defaults; fails iff that read fails |
| LogConfigs.FromJson | lib/config/log-config.js:111-129 | whatever the key order: succeeds iff the document is not null, a present `rolling_config` is not null, and no recognised key (nested thresholds included) is invalid, then returns the defaults overridden by the recognised keys, which is valid; otherwise fails with KeysOfNull or an invalid key's error |
| LogConfigs.LevelAndPrefixExample | lib/config/log-config.js:111-129 | `{level: 2, file_prefix: "Test_"}` gives level 2, prefix "Test_" and the default rolling policy |
| LogConfigs.NestedRejection | lib/config/log-config.js:119-121 | any failure of the nested `rolling_config` read (an invalid threshold, or a null value) makes the whole document fail, and every error the nested read can raise is one the document can raise |
| LogConfigs.OverlayValid | lib/config/log-config.js:71-129 | the configuration an accepted document yields has a valid level and a valid rolling policy |
| LogConfigs.UnknownKeysIgnored | lib/config/log-config.js:114-126 | adding or changing an unrecognised key changes neither the outcome nor the result |
| LogConfigs.ReadBack | lib/config/log-config.js:111-129 | reading the document of a valid configuration (level, rolling thresholds, prefix) succeeds and yields that configuration |
| LogConfigs.RecognisedKeysKept | lib/config/log-config.js:111-129 | in an accepted document, the level and prefix are reported back unchanged and the rolling policy is what its nested document yields |
| Loggers.New | lib/logger.js:62-73 | the constructor, which `with_config` (`Loggers.WithConfig`) calls unchanged: an absent or falsy argument gives the defaults, an instance is kept, any other value fails; no file is open and nothing is written |
| Loggers.GettersAfterNew | lib/logger.js:24-47 | the getters report the configuration's level, prefix and thresholds unchanged |
| Loggers.DefaultsLogger | lib/logger.js:53-55 | the default logger has level Debug, prefix "Logtar_", 3600 s, 5 MiB and no open file |
| Loggers.Init | lib/logger.js:75-83 | the new handle is the opened descriptor, the configuration and written lines are kept, and the file name is derived from prefix and timestamp |
| Loggers.Log | lib/logger.js:85-94 | below the configured level nothing changes; otherwise an unopened handle throws, descriptor 0 drops, and any other descriptor appends exactly one line `NAME: message`, keeping earlier lines, configuration and handle |
| Loggers.GateMonotone | lib/logger.js:87 | a message written at one level is written at any higher level under the same handle |
| Loggers.NegativeDescriptorWrites | lib/logger.js:86-89 | a handle with descriptor -1 does not drop messages |
| Loggers.Forwarding | lib/logger.js:96-114 | `debug` … `critical` log at levels 0 … 4, tagging the line with that level's name |
| Loggers.WarnScenario | lib/logger.js:85-106 | at level Warn with a file open, `debug` and `info` write nothing and `warn("x")` writes exactly "WARN: x" |
| Loggers.LogBeforeInitFails | lib/logger.js:85-89 | a message passing the level comparison before `init` throws rather than being dropped |
| LogFileNames.ReplaceRuns | lib/logger.js:80 | the result contains no '.' or ':', is no longer than the input, and a separator-free input is returned unchanged |
| LogFileNames.ReplaceRunsIsScan | lib/logger.js:80 | the run replacement equals a character-by-character scanner that emits '-' on the first separator of each run |
| LogFileNames.ReplaceRunsAppend | lib/logger.js:80 | the replacement distributes over a concatenation that does not split a run |
| LogFileNames.RunBecomesOneDash | lib/logger.js:80 | a non-empty run of separators becomes exactly one '-' |
| LogFileNames.Idempotent | lib/logger.js:80 | replacing twice equals replacing once |
| LogFileNames.FileName | lib/logger.js:78-81 | the name starts with the prefix, ends with ".log", and between them is the timestamp with runs replaced, free of '.' and ':' |
| LogFileNames.RunInTimestamp | lib/logger.js:78-81 | separator-free parts joined by any run name the file prefix + a + "-" + b + ".log", so timestamps differing only in separators collide |

## Left out

- File-system I/O: `LogConfig.from_file` (lib/config/log-config.js:136-141), the `fs.open` call in `init`, `check_and_create_dir` (lib/utils/helpers.js:8-15) and the `logs` directory joined to the file name. The timestamp and the descriptor are parameters of `Loggers.Init`, which returns the bare file name.
- `console.log` of each line (lib/logger.js:92): console output is not part of the state.
- Caller-stack introspection (`get_caller_info`, lib/utils/helpers.js:17-29): it depends on the runtime's stack-trace layout, and no modelled code calls it.
- Asynchrony: the severity methods start `#log` without awaiting it. Each `#log` is one atomic step, and interleaved writes are not modelled.
- Time- and size-based rolling: the code never compares the thresholds or reopens files; adding a roll step would invent behaviour.
- Property enumeration order of `Object.keys`: left open, and the contracts hold for every order.
- Per-file contents: the lines written to every file opened so far form one sequence; the model does not split them per file.
- Non-integer numbers, NaN and Infinity: `Json` holds only integers, so a fractional size of at least 1024, which the size check would accept, cannot be expressed.
- `to_string`'s key coercion (`hasOwnProperty("2")`): the model's `to_string` takes integers only.
- `Object.keys` on strings and arrays lists index keys; `JsValues.Properties` omits them because they never match a configuration key.
- LogConfigs.WithRollingConfig: the argument is a plain value, so a `RollingConfig` instance cannot be passed. In the code, `Object.keys` of an instance lists none of its `#private` fields, so `with_rolling_config(RollingConfig.with_defaults().with_size_threshold(2048))` silently resets the policy to the defaults; the same holds for an instance handed to either `from_json`. The model does not express this input.
- Loggers.Log: the message is a string; the code interpolates any value with `${message}`, and JavaScript's conversion of other values to text is not modelled.
- Aliasing: the `Logger` keeps a reference to the `LogConfig` it was given (lib/logger.js:72), and the `with_*` setters mutate that object in place, so in JavaScript a later `with_*` call on it changes the running logger's level or prefix. The model's records are values, so a logger's configuration never changes after construction.
- `JsValues.Arg` can hold a plain value or an instance of the class being checked, not an instance of some other class.
- The field initializer `RollingConfig.Hourly` (lib/config/log-config.js:21) is undefined and always overwritten by the constructor.
- The demo scripts under learning/ and index.js (which loads ./lib/logtar, a file that is not part of this model).
