/** The errors the logger's configuration and runtime code can throw. */
module Errors {

  datatype Error =
    | InvalidLogLevel        // LogLevel.assert rejected the value
    | UnsupportedLogLevel    // LogLevel.to_string has no name for the value
    | InvalidSizeThreshold   // RollingSizeOptions.assert rejected the value
    | InvalidTimeThreshold   // RollingTimeOptions.assert rejected the value
    | InvalidRollingConfig   // RollingConfig.assert saw a non-instance
    | InvalidFilePrefix      // with_file_prefix saw a non-string
    | InvalidLogConfig       // LogConfig.assert saw a non-instance
    | KeysOfNull             // Object.keys was applied to null or undefined
    | HandleUndefined        // `.fd` was read from a file handle that was never opened
}
