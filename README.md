# timber JSON configuration loader, in Dafny

This project models the JSON configuration loader of the timber logging
library (`config_json.go`). The loader takes a decoded configuration, a list
of filter records, and turns each enabled record into a logger. A logger has
a severity level, a pattern formatter, a table of per-path level overrides
("granulars") and a sink (console, socket or file). The loader hands each
logger to the registry, `Timber.AddLogger`.

The model follows the Go file part by part:

- `ConfigTypes` (`config_types.dfy`) holds the data model. `JSONGranular`,
  `JSONProperty`, `JSONFilter` and `JSONConfig` mirror the Go records. The
  values the loader builds are `LogFormatter`, `LogWriter` and
  `ConfigLogger`. The foreign collaborators form `Env`.
- `PropertyScan` (`property_scan.dfy`) holds the property-bag lookups. The
  Go code scans the bag front to back and overwrites a local on every match,
  so the last match wins. `LastValue` states that rule once. Then
  `GetJSONFormatter`, `GetJSONSocketWriter` and `GetJSONFileWriter` are
  methods with the source's loops. Each is proved equal to a specification
  function (`FormatPattern`, `SocketWriterOf`, `FileWriterOf`). Lemmas state
  the precedence rules of those functions.
- `Granulars` (`granulars.dfy`) holds the override table. The loop
  `BuildGranulars` is proved equal to `GranularLevels`. That function's key
  set is exactly the listed paths, and each path maps to the level of its
  last entry.
- `Loader` (`loader.dfy`) holds the registry and the loader. The registry
  is the class `Timber`, whose `loggers` sequence `AddLogger` appends to.
  `Timber.LoadJSONConfig` is the loop over the filters. It is proved to
  leave `loggers` equal to the old list plus the registrations of the pure
  outcome `LoadConfig`. Lemmas about `LoadFilters` state how a load behaves:
  the order of registrations, the first sink error, disabled records and
  unrecognized types.

The Go code reports errors as formatted strings. The model uses the
constructors of `Error` instead, one per message. A sink constructor reports
a sink or a failure cause; a failure becomes `WriterFailed` with that cause,
so it can never be mistaken for a missing-property error.

Three behaviours of the code are worth stating on their own:

- A `Format` field with a name and an empty value is not the zero value, so
  the property bag is not read, and the empty value then becomes `"%M"`
  (config_json.go:99-100, 110-111; `NamedEmptyFormatIsDefault`).
- One error covers both a missing protocol and a missing endpoint; it does
  not tell which of the two is missing (config_json.go:127-128,
  `MissingProtocolOrEndpoint`).
- Open and decode failures carry the file name and the cause
  (config_json.go:45, 52; `CannotLoadFile`, `CannotParseFile`).

## Model

| member | source | states |
|---|---|---|
| `PropertyScan.LastValue` | config_json.go:102-106 | the last-wins lookup: "" when no property has the name, otherwise the value of some property with that name |
| `PropertyScan.LastValueIsLastMatch` | config_json.go:119-125 | the lookup gives the value at the last index carrying the name, even an empty value |
| `PropertyScan.LastValueAppend` | config_json.go:136-140 | later properties override earlier ones: an appended bag that mentions the name decides the lookup alone, and one that does not changes nothing |
| `PropertyScan.FormatPattern` | config_json.go:99-112 | the pattern handed to the formatter is never empty |
| `PropertyScan.FormatFieldWins` | config_json.go:99-100 | a `Format` other than the zero value decides the pattern (its value, or `"%M"` if that is empty), and the property bag does not matter |
| `PropertyScan.NamedEmptyFormatIsDefault` | config_json.go:99-112 | a `Format` with a name but an empty value gives `"%M"` without reading the bag |
| `PropertyScan.FormatFromLastProperty` | config_json.go:102-112 | with the zero `Format`, the last `"format"` property decides the pattern, with an empty value giving `"%M"` |
| `PropertyScan.FormatDefaultWhenAbsent` | config_json.go:110-112 | with the zero `Format` and no `"format"` property, the pattern is `"%M"` |
| `PropertyScan.GetJSONFormatter` | config_json.go:93-114 | the loop builds the formatter for exactly `FormatPattern(filter)`, which is non-empty |
| `PropertyScan.SocketWriterDelegates` | config_json.go:119-130 | when the last `"protocol"` and the last `"endpoint"` are non-empty, the result is the socket constructor's outcome for those two values, a failure passed on with its cause |
| `PropertyScan.SocketWriterMissingEndpoint` | config_json.go:127-128 | a socket filter with no `"endpoint"` property fails with the missing-field error, whatever the constructor would do |
| `PropertyScan.SocketWriterLaterEmptyOverrides` | config_json.go:119-128 | a last `"protocol"` or `"endpoint"` with an empty value overrides earlier non-empty ones and the sink fails |
| `PropertyScan.GetJSONSocketWriter` | config_json.go:116-131 | the single loop yields `SocketWriterOf(filter, env)`, and the result is the missing-field error exactly when the last protocol or the last endpoint is empty |
| `PropertyScan.FileWriterDelegates` | config_json.go:136-144 | when the last `"filename"` is non-empty, the result is the file constructor's outcome for it, a failure passed on with its cause |
| `PropertyScan.FileWriterAbsentFilename` | config_json.go:136-142 | a file filter with no `"filename"` fails with the missing-filename error, whatever the constructor would do |
| `PropertyScan.FileWriterEmptyFilename` | config_json.go:136-142 | a last `"filename"` with an empty value fails exactly as an absent one |
| `PropertyScan.GetJSONFileWriter` | config_json.go:133-145 | the loop yields `FileWriterOf(filter, env)`, and the result is the missing-filename error exactly when the last file name is empty |
| `Granulars.GranularLevels` | config_json.go:64-67 | the override table has exactly the listed paths as keys |
| `Granulars.GranularLastWins` | config_json.go:65-67 | each path maps to the resolved level of the last override naming it |
| `Granulars.BuildGranulars` | config_json.go:64-67 | the in-place loop builds exactly `GranularLevels`, keyed by the listed paths |
| `Loader.AssembleFilter` | config_json.go:56-86 | the loop body yields the filter's step: skip when disabled, a warning for an unknown type, an abort with the sink error, or a logger to register |
| `Loader.LoadFilters` | config_json.go:55-90 | a load returns no error exactly when no filter's sink fails |
| `Loader.LoadAppend` | config_json.go:55-90 | loading two parts of a document is loading the first and then, only if it did not fail, the second |
| `Loader.LoadExtend` | config_json.go:55-89 | one more filter extends the outcome of the filters before it by that filter's step |
| `Loader.LoadSplitAt` | config_json.go:55-89 | the load around one filter is: the filters before it, its step, then the filters after it |
| `Loader.PrependThen` | config_json.go:55-89 | a step taken before a two-part load can be taken before the first part |
| `Loader.LoadWithoutAbortRegistersAll` | config_json.go:70-90 | a load with no sink error registers every console and every successfully built socket or file logger, in document order, and returns no error |
| `Loader.FirstAbortStops` | config_json.go:73-82 | the first failing sink's error is returned, and exactly the loggers of the filters before it stay registered |
| `Loader.FirstAbortAfterPrefix` | config_json.go:73-82 | after a prefix without errors, a failing sink ends the load with the prefix's registrations and warnings |
| `Loader.DisabledFilterIgnored` | config_json.go:56-58 | removing a disabled filter changes nothing about the load, however invalid its type or properties |
| `Loader.UnrecognizedTypeSkipped` | config_json.go:83-85 | an enabled filter of an unknown type registers nothing and stops nothing; it adds one warning with its tag |
| `Loader.SingleConsoleFilter` | config_json.go:59-72 | one enabled console filter with no format, properties or overrides registers exactly one logger with pattern `"%M"` and an empty override table |
| `Loader.LoadConfigEarlyFailures` | config_json.go:39-53 | an empty file name fails with `EmptyFilename` whatever the reader would return; an open or decode failure registers nothing |
| `Loader.Timber.AddLogger` | config_json.go:88 | registration appends the logger to the registry's list |
| `Loader.Timber.LoadJSONConfig` | config_json.go:38-91 | the registry ends as its old list plus the outcome's registrations, and the returned error and the warnings are the outcome's |

## Left out

- Opening, closing and JSON-decoding the file (config_json.go:43-53) are I/O and library parsing. One function parameter `read` stands for them and yields an open failure, a decode failure or a decoded `JSONConfig`. Closing the file has no observable effect in the model.
- The warning that `log.Printf` prints for an unknown type (config_json.go:84) is I/O. The model records the filter's tag in the ghost `warned` sequence instead.
- `getLevel`, `NewSocketWriter` and `NewFileWriter` are not part of this model. They are the fields of `Env`, arbitrary total functions, and a sink constructor may fail. Being functions, within one load two filters with the same socket address or the same file name get the same constructor outcome; the Go constructors open a new connection or file on every call, and may succeed once and fail the next time.
- `NewPatFormatter` is not part of this model. `PatFormatter(pattern)` records the pattern it is given. `new(ConsoleWriter)` is the value `ConsoleWriter`.
- `Timber.AddLogger`'s own code is not part of this model. The registry is reduced to the list it appends to.
- The level type is not part of this model. An integer rank stands for a level.
- `reflect.DeepEqual` on two `JSONProperty` values is structural equality of the two strings.
- The check `if err != nil` at config_json.go:61 never fires, because `err` is always nil there. It is not modelled.
- Error messages are `Error` constructors, not formatted strings.
