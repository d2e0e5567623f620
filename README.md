# Rocket's console logger, modelled in Dafny

Rocket logs through a process-wide console logger (`lib/src/logger.rs`). The
logger holds one `LoggingLevel`: `Critical`, `Normal` or `Debug`. That level
maps to a ceiling on the `log` crate's five severities. Records above the
ceiling are dropped. Every other record is printed to standard output, except
for the noisy-module records described below. The
printed layout depends on the record's severity and on two reserved targets:
`"_"` asks for an indentation marker and `"launch"` marks a startup
announcement. Records from `hyper::` and `rustls::` modules are hidden unless
the level is `Debug`.

The model has four modules:

- `LogCrate` (`log_crate.dfy`) models the record types of the external `log`
  crate. It has the severity scale `Error < Warn < Info < Debug < Trace`,
  ordered by discriminant. A `Record` carries a severity, a target, a location
  (module path, file, `u32` line) and the already formatted message.
- `Logger` (`logger.dfy`) models the level policy: `MaxLogLevel`, `FromStr`,
  `Display` and `Enabled`. It also models `RocketLogger::log` as the pure
  function `LogStyled`, which returns everything one call prints, in order.
  The `RocketLogger` value is represented by the level it wraps, which every
  operation takes as an argument. `Log` is that output with styling disabled,
  that is plain text. `PlainBody` and `IndentText` state the plain layout
  independently of the styling. `LogPlainText` proves that the two agree.
- `Paint` (`paint.dfy`) models terminal styling as segments, each with a colour
  and a bold flag. `Strip` gives the bytes printed when styling is disabled.
- `Decimal` (`decimal.dfy`) renders the record's line number in decimal, as the
  Debug layout prints it.

The macros `error_!`, `warn_!`, `info_!`, `debug_!`, `trace_!` and
`launch_info!` appear only as the records they build: `IndentedRecord` has
target `"_"`, and `LaunchRecord` has severity `Error` and target `"launch"`.

## Model

| member | source | states |
|---|---|---|
| `Logger.MaxLogLevel` | lib/src/logger.rs:13-30 | The ceiling matches each level's documented meaning. Every level shows errors and warnings. Info passes exactly when the level is not Critical. Debug and Trace pass exactly when the level is Debug. Together these fix Critical→Warn, Normal→Info and Debug→Trace. |
| `Logger.CeilingMonotone` | lib/src/logger.rs:24-30 | Critical's ceiling is strictly below Normal's, and Normal's is strictly below Debug's. |
| `Logger.FromStr` | lib/src/logger.rs:36-45 | Parsing gives Critical exactly for "critical", Normal exactly for "normal" and Debug exactly for "debug" (case-sensitive). Every other string fails with the fixed message "a log level (debug, normal, critical)". |
| `Logger.Display` | lib/src/logger.rs:48-58 | Each level displays as one of the three accepted tokens, and parsing that token gives the same level back. |
| `Logger.ParseDisplayRoundTrip` | lib/src/logger.rs:36-58 | Every token that parses displays back as exactly that token. |
| `Logger.DisplayInjective` | lib/src/logger.rs:48-58 | Distinct levels display as distinct tokens. |
| `Logger.Enabled` | lib/src/logger.rs:88-90 | A record passes the filter iff it is an Error or a Warn, or it is an Info and the level is not Critical, or the level is Debug. |
| `Logger.EnabledMonotone` | lib/src/logger.rs:88-90 | Whatever Critical lets through, Normal lets through. Whatever Normal lets through, Debug lets through. |
| `LogCrate.AtMostTotalOrder` | lib/src/logger.rs:89 | The `<=` on severities that the filter uses is reflexive, antisymmetric, transitive and total, with Error least and Trace greatest. |
| `Logger.EffectiveLevel` | lib/src/logger.rs:101-104 | A "launch" record is rendered as Info. Only "launch" records are remapped, and only to Info; every other record keeps its own severity. |
| `Logger.Noisy` | lib/src/logger.rs:107-108 | A module path is noisy exactly when its first seven characters are "hyper::" or its first eight are "rustls::". |
| `Logger.Suppressed` | lib/src/logger.rs:109-111 | The noise filter never hides anything at Debug. Below Debug it hides exactly the records from noisy modules. |
| `Logger.StyledBody` | lib/src/logger.rs:119-137 | Every body ends with the newline of its last `println!`, and the message is printed just before it. The message is unstyled exactly in the Debug form; every other form colours it. |
| `Logger.Log` | lib/src/logger.rs:92-139 | The plain-text output of one call is empty exactly when the record's own severity fails the filter or the noise filter hides it. |
| `Logger.LogStyled` | lib/src/logger.rs:92-96 | A record whose own severity fails the filter prints nothing. |
| `Logger.PlainBody` | lib/src/logger.rs:119-137 | Every body is non-empty and ends with a newline. |
| `Logger.IndentSegmentsText` | lib/src/logger.rs:113-116 | Without styling, the indentation marker prints as four spaces, "=>" and one space. |
| `Logger.StyledBodyText` | lib/src/logger.rs:119-137 | Without styling, each body prints its plain layout. Error prints "Error: msg\n" and Warn prints "Warning: msg\n". Info and Trace print "msg\n". Debug prints "\n--> file:line\nmsg\n". |
| `Logger.DebugText` | lib/src/logger.rs:132-137 | Without styling, the Debug body is a blank line, then the arrow and "file:line" on one line, then the unstyled message on its own line. |
| `Logger.LogPlainText` | lib/src/logger.rs:92-137 | Without styling, the output has three cases. It is empty when the record fails the filter. It is empty when the record comes from a noisy module and the level is not Debug. Otherwise it is the optional indentation marker followed by the body for the remapped severity. |
| `Logger.LogEmptyIff` | lib/src/logger.rs:92-111 | Output is empty iff the record's own severity fails the filter or the record is suppressed as noise. Any non-empty output ends with a newline. |
| `Logger.DebugPrintsEverything` | lib/src/logger.rs:106-111 | At level Debug every record is printed, including records from hyper and rustls. |
| `Logger.NoisyModuleSilent` | lib/src/logger.rs:106-111 | Below Debug, a record whose module path starts with "hyper::" or "rustls::" prints nothing, whatever its severity. |
| `Logger.LaunchPrintsAsInfo` | lib/src/logger.rs:92-120 | A launch announcement is emitted at Error, so it passes the filter at every level. Unless suppressed as noise, it prints as the bare message and a newline, with no "Error:" label and no indentation. |
| `Logger.LaunchFilteredBySeverity` | lib/src/logger.rs:92-104 | The filter uses the record's own severity, before the launch remap. A launch-target Debug or Trace record prints nothing at Normal, even though Normal lets Info through. |
| `Logger.IndentPrefixIff` | lib/src/logger.rs:113-116 | A printed record starts with "    => " iff its target is "_" and the level is not Critical. This assumes the message does not itself start with that text. |
| `Logger.IndentedOutputHasMarker` | lib/src/logger.rs:113-116 | A printed record with target "_" below Critical starts with "    => ", whatever its message. |
| `Logger.IndentedRecordText` | lib/src/logger.rs:60-65 | A record from the indenting macros prints the marker when the level is not Critical, then the body for its own severity, unless filtered or suppressed. |
| `Logger.ContinuationWarningAtCritical` | lib/src/logger.rs:113-131 | At Critical, an indented warning from a non-noisy module prints "Warning: msg\n" with no marker. |
| `Logger.ContinuationWarningAtNormal` | lib/src/logger.rs:113-131 | At Normal, the same warning prints "    => Warning: msg\n". |
| `Paint.Strip` | lib/src/logger.rs:191-192 | With styling disabled, the output is empty iff every printed segment's text is empty. |
| `Paint.StripAppend` | lib/src/logger.rs:113-137 | The plain text of two successive prints is the first's text followed by the second's. |
| `Decimal.NatToString` | lib/src/logger.rs:135 | A line number prints as a non-empty string of decimal digits. It has a single digit iff the number is below 10, and it starts with '0' only for zero. |
| `Decimal.DecimalRoundTrip` | lib/src/logger.rs:135 | Reading the printed digits back gives the line number. |
| `Decimal.NatToStringInjective` | lib/src/logger.rs:135 | Distinct line numbers print differently. |

## Left out

- `try_init` and `init` (lib/src/logger.rs:189-213) are not modelled. The terminal check is I/O. The once-only install and the global maximum-level gate live in the external `log` crate. The failure message is console output.
- The Windows console-mode switch (lib/src/logger.rs:142-187) consists of foreign system calls.
- ANSI escape codes are not modelled. Styling is abstracted as a colour and a bold flag on each printed segment, and only the plain text (styling disabled) is given exact bytes.
- Message formatting (`format_args!`) is not modelled. The message is an opaque, already formatted string.
- Writing to standard output, and interleaving with other threads' output, are not modelled. One call's output is returned as a value.
- The macros (lib/src/logger.rs:60-84) are syntax. Only the records they build are modelled, as `IndentedRecord` and `LaunchRecord`.
- Logger.IndentPrefixIff: requires that the message does not start with "    => ". An Info or Trace message that does start with it makes an unindented line look indented, so the "iff" cannot hold without this condition. The forward direction holds for every message and is stated by `Logger.IndentedOutputHasMarker`.
