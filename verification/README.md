# simple-api-demo: configuration loading and error taxonomy

This Dafny project models the two pieces of logic in the demo service that
do more than wire HTTP plumbing together:

- **Configuration loading.** `Config::from_env` reads `PORT` (default 8080),
  `PORT_APP` (default 4242) and `BIND_ADDRESS` (default `0.0.0.0`) from the
  process environment. The environment is modelled as an explicit snapshot,
  `map<string, string>`. A set port variable must parse as a Rust `u16`. A
  failure is reported as an `Environment` error that names the variable and
  echoes the text it found. `PORT` is read first, and its error wins. The bind
  address is copied verbatim and never checked.
- **The error taxonomy.** `AppError` has five kinds, each with a message.
  Each kind maps to an HTTP status (400 for validation errors, 500 for all
  others), a type tag and a display rendering. An error response carries all
  three.

The entry point's error wrapping (`main.rs`) is modelled too. A configuration
failure becomes a configuration error before any server starts. A server
failure becomes a server error.

Modules:

- `Wrappers` (`wrappers.dfy`): `Option` and `Result`. `Result` works with
  `:-`, which plays the part of Rust's `?`.
- `Decimal` (`decimal.dfy`): Rust's `str::parse::<u16>` as `ParseU16`, and
  `u16::to_string` as `ToDecimal`. Both are specified against an unbounded
  reference value of digit strings.
- `AppErrors` (`error.dfy`): the `AppError` datatype, its constructors, the
  status, type-tag and display functions, and the error response.
- `Configuration` (`config.dfy`): `Config`, `ParsePortEnv` and `FromEnv`.
- `Startup` (`startup.dfy`): the entry point's `map_err` wrapping. Starting
  the servers is passed in as a function parameter.

The `u16` parser follows Rust's `from_str_radix` for unsigned types in radix
10:

- The empty string is rejected, and so is a lone `+` or `-`.
- One leading `+` is skipped. A leading `-` is never skipped.
- Every other character must be an ASCII digit. Leading zeros are allowed.
  Nothing is trimmed.
- The value may not exceed 65535.

The error message (src/config.rs:54) quotes the range 1-65535, but the parse
at src/config.rs:51 accepts any `u16`, including 0; see
`Configuration.PortRangeAsParsed`.

## Model

| member | source | states |
|---|---|---|
| `Decimal.Scan` | src/config.rs:51 | The digit loop of the `u16` parse succeeds exactly when the remaining text is all ASCII digits and the whole string's value is at most 65535. On success it returns that value. |
| `Decimal.ParseU16` | src/config.rs:51 | `str::parse::<u16>` accepts exactly an optional `+` followed by one or more ASCII digits whose value is at most 65535, and returns that value. |
| `Decimal.ToDecimal` | src/config.rs:49 | Rendering a default port gives canonical digits (no leading zero, except for "0") whose value is the number rendered. |
| `Decimal.ParseToDecimal` | src/config.rs:49-51 | Round trip: parsing the rendering of any `u16` returns it, so the default path cannot fail. |
| `Decimal.ToDecimalValue` | src/config.rs:49 | Every canonical digit string is the rendering of its own value. Rendering is therefore onto the canonical strings. |
| `Decimal.ParseExamples` | src/config.rs:51 | Concrete inputs: "8080", "+80", "0080", "0" and "65535" parse. "65536", "", "+", "-1", "++1", " 80" and "80x" do not. |
| `AppErrors.ConfigError` | src/error.rs:34-38 | Builds a `Config` error holding the message verbatim. Its tag is "configuration_error" and its status is 500. |
| `AppErrors.ServerError` | src/error.rs:41-45 | Builds a `Server` error holding the message verbatim. Its tag is "server_error" and its status is 500. |
| `AppErrors.EnvironmentError` | src/error.rs:48-53 | Builds an `Environment` error whose variable name and message are separate, unchanged fields. Its tag is "environment_error" and its status is 500. |
| `AppErrors.InternalError` | src/error.rs:56-60 | Builds an `Internal` error holding the message verbatim. Its tag is "internal_error" and its status is 500. |
| `AppErrors.ValidationError` | src/error.rs:63-67 | Builds a `Validation` error holding the message verbatim. Its tag is "validation_error" and its status is 400. |
| `AppErrors.Status` | src/error.rs:72-80 | The status is Bad Request exactly for validation errors. Every other kind gets Internal Server Error. |
| `AppErrors.StatusClass` | src/error.rs:72-80 | An error's status code is a 4xx exactly when the error is a validation error, and a 5xx otherwise. |
| `AppErrors.ErrorType` | src/error.rs:98-106 | The type tag is one of the five tags, and it is "validation_error" exactly for validation errors. |
| `AppErrors.ErrorTypeIdentifiesVariant` | src/error.rs:98-106 | Two errors share a type tag exactly when they are the same kind, so the five tags are pairwise distinct. |
| `AppErrors.ErrorTypesAllUsed` | src/error.rs:98-106 | Each of the five tags is produced by some error. |
| `AppErrors.Display` | src/error.rs:12-29 | The rendering opens with its kind's prefix ("Configuration error: ", ..., "Environment variable error: ") and ends with the error's message. |
| `AppErrors.DisplayIdentifiesVariant` | src/error.rs:12-29 | Equal renderings imply the same kind of error. |
| `AppErrors.DisplayInjective` | src/error.rs:12-29 | Equal renderings imply equal errors, once the variable names of environment errors agree. |
| `AppErrors.EnvironmentDisplayAmbiguous` | src/error.rs:20-21 | The rendering "<var_name> - <message>" cannot be split back into name and message: two distinct environment errors render alike. |
| `AppErrors.ToResponse` | src/error.rs:83-93 | The error response carries the error's status, its type tag as `type`, its rendering as `message`, and the supplied timestamp. |
| `AppErrors.ResponseConsistent` | src/error.rs:83-93 | In a response, the status is 400 exactly when the type is "validation_error". The message opens with the prefix of the kind the type names. |
| `AppErrors.ResponseIdentifiesError` | src/error.rs:83-93 | Two errors with equal responses are equal, once the variable names of environment errors agree. |
| `AppErrors.ErrorExamples` | src/error.rs:117-144 | The unit tests in error.rs: the constructors give their own kind, config is 500, validation is 400, and the tags are as listed. |
| `Configuration.Lookup` | src/config.rs:49 | `env::var` yields a value exactly when the variable is set, and that value is the one in the environment. |
| `Wrappers.Option.GetOr` | src/config.rs:49 | `unwrap_or_else` yields the present value, or the fallback (the rendered default port, or "0.0.0.0" at config.rs:31) when the variable is unset. |
| `Wrappers.Result.MapErr` | src/config.rs:51-56 | `map_err` keeps a success and its value unchanged and replaces an error by the function applied to it (also used at main.rs:22 and 27). |
| `Configuration.ParsePortEnv` | src/config.rs:48-57 | Reading a port variable succeeds exactly when the variable is unset or holds a `u16` literal. The result is the literal's value, or the default when the variable is unset. A failure is an `Environment` error naming the variable, with message "must be a valid port number (1-65535), got: " followed by the raw text. |
| `Configuration.FromEnv` | src/config.rs:28-38 | Loading succeeds exactly when both port variables are acceptable. The ports are then their values or defaults, and the bind address is the set value or "0.0.0.0". An invalid `PORT` is reported whatever `PORT_APP` holds. A `PORT_APP` error is reported only when `PORT` is acceptable. |
| `Configuration.DefaultsWhenUnset` | src/config.rs:29-31 | With `PORT`, `PORT_APP` and `BIND_ADDRESS` unset, the result is `Ok(Config(8080, 4242, "0.0.0.0"))`. |
| `Configuration.RenderedPortIsRead` | src/config.rs:49-51 | A port variable holding the decimal rendering of a `u16` n yields n. |
| `Configuration.RenderedPortsAreLoaded` | src/config.rs:28-38 | Both port variables holding renderings of `u16`s load those exact ports. |
| `Configuration.ErrorOrder` | src/config.rs:29-30 | An error naming `PORT_APP` implies `PORT` was acceptable. When `PORT` is invalid, changing `PORT_APP` does not change the outcome. |
| `Configuration.LoadErrorsAreAttributed` | src/config.rs:51-56 | Every load error is an `Environment` error that names a set port variable and echoes that variable's text after the fixed message prefix. |
| `Configuration.BindAddressUnchecked` | src/config.rs:31 | Setting `BIND_ADDRESS` to any text does not change whether loading succeeds, the ports, or the error. The text appears verbatim in the result. |
| `Configuration.PortRangeAsParsed` | src/config.rs:51-54 | "0" is accepted as port 0 despite the message's "1-65535". "65536" is rejected, and the error names `PORT` and echoes the text. |
| `Configuration.CustomValuesLoaded` | src/config.rs:86-97 | The unit test in config.rs: `PORT=3000`, `PORT_APP=5000`, `BIND_ADDRESS=127.0.0.1` load exactly those values. |
| `Configuration.InvalidValuesRejected` | src/config.rs:106-135 | The unit tests in config.rs: `PORT=invalid` gives the `Environment` error for `PORT` echoing "invalid", and "not_a_number" is rejected. |
| `Configuration.UnsetUsesDefault` | src/config.rs:121-124 | The unit test in config.rs: an unset variable with default 9000 reads as 9000. |
| `Startup.LoadConfig` | src/main.rs:21-22 | A loaded configuration is passed through unchanged. A load failure becomes a `Config` error whose message is "Failed to load configuration: " followed by the failure's rendering. |
| `Startup.Run` | src/main.rs:21-27 | A configuration failure is reported as above. Otherwise the outcome is the servers' outcome, and a server failure becomes a `Server` error reading "Failed to start servers: " followed by the I/O error text. |
| `Startup.ConfigFailureStartsNothing` | src/main.rs:21-22 | When loading fails, the outcome does not depend on the server start at all, and it is a `Config` error. |
| `Startup.ServersGetLoadedConfig` | src/main.rs:25-27 | The outcome depends on the server start only through what it does with the loaded configuration. |
| `Startup.InvalidPortReport` | src/main.rs:21-22 | For an invalid `PORT`, the final message is "Failed to load configuration: Environment variable error: PORT - must be a valid port number (1-65535), got: " followed by the raw value. |

## Left out

- src/server.rs is not part of this model. It covers server construction,
  socket binding, the concurrent `try_join` of the two servers, CORS and
  request logging: concurrency and library I/O with no decisions of its own.
  In `Startup.Run` it is the `start` parameter, reduced to its outcome.
- src/handlers.rs is not part of this model. Its responses are fixed bodies
  whose only variable parts are the wall-clock time and the crate version.
- Logger initialisation (src/main.rs:18) and how the process reports the
  error it returns at exit are not modelled.
- `env::var` also fails on a value that is not valid Unicode, and the code
  then falls back to the default. An environment of strings cannot express
  such a value.
- `Decimal.ParseU16`: returns `None` rather than Rust's `ParseIntError` and
  its kind (empty, invalid digit, overflow), because the only caller discards
  the error with `map_err(|_| ...)`.
- `AppErrors.ToResponse`: the JSON serialisation of the body and the
  RFC 3339 formatting of the timestamp are not modelled. The timestamp is
  read from the wall clock by `error_response` and is a parameter here.
- `AppError::config` and its siblings take any `Display` value. Here they take
  the text that value renders to.
