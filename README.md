# neve-logger: the logger-configuration processor, in Dafny

This project models the logger processor of neve-logger (`xlogneve/processor.go`),
the component a neve application registers as a bean so that the process-wide
xlog logger is configured from the `neve.logger.*` configuration block:

- `transLevel` turns the configured level name into a severity, case-insensitively,
  with INFO as the default for an empty or unknown name (module `Levels`, over the
  ASCII case folding of module `Ascii`);
- `matchOsOutput` recognises `stdout` / `stderr` in any case (module `Outputs`);
- `parseWriter` removes duplicate destinations (module `Dedup`), turns each
  remaining one into a standard stream or a writer made by the file-writer
  factory, records the factory-made writers as owned, and stops at the first
  factory error; its meaning is the function `Outputs.Resolve`;
- `NewLoggerProcessor` with its options, `Init`, `closeAll` / `BeanDestroy`,
  `Classify` and `Process` are the class `Processor.LoggerProcessor`; the global
  logger it configures is the class `GlobalLogger.Logger` (severity, output,
  formatter).

The processor keeps two ghost logs, `created` (every writer the factory returned)
and `closed` (every writer Close was called on). Its invariant `Valid()` is
`created == closed + writers`: every writer the processor ever made is either
still owned or has been closed, exactly once, in creation order. `Init` failing
on a destination therefore leaves open no writer that the factory returned
without an error. `BeanDestroy` closes every
owned writer and reports the last Close error.

Calls into code outside this file are parameters:

- `newRotateFile` stands for the rotating file writer constructor. It yields
  no writer when construction fails.
- `close` gives each writer's Close outcome.
- A custom factory is a function from path to writer or error.

The code is modelled as written. Four points are worth knowing:

- An empty destination string is not a stream name. It goes to the factory like
  any path (`Outputs.EmptyDestinationGoesToFactory`).
- The fan-out output is installed only when the processor owns at least one
  factory-made writer. A list of standard streams alone leaves the logger's
  output unchanged (`Outputs.BuiltinsOnlyOwnNothing`,
  `Scenarios.StreamsOnlyKeepOutput`).
- On a resolve error, `Init` closes every owned writer. That includes writers
  owned from an earlier `Init` on the same processor. The error of that
  `closeAll` is discarded.
- The severity threshold is applied before the outputs are resolved. It stays
  applied when resolution fails.

## Model

| member | source | states |
|---|---|---|
| `Ascii.Upper` | xlogneve/processor.go:154 | upper-casing keeps the length and maps each character to its ASCII upper-case form |
| `Ascii.Lower` | xlogneve/processor.go:106-108 | lower-casing keeps the length and maps each character to its ASCII lower-case form |
| `Levels.Code` | xlogneve/processor.go:54-56 | every severity's level is 0..5, so never the "unset" sentinel -1 |
| `Levels.TransLevel` | xlogneve/processor.go:152-171 | the result is (v, true) exactly when the upper-cased name is v's name; otherwise (INFO, false) |
| `Levels.TransLevelEmpty` | xlogneve/processor.go:153-170 | the empty name gives (INFO, false) |
| `Levels.TransLevelRoundTrip` | xlogneve/processor.go:154-168 | each severity's name, upper or lower case, translates back to that severity with true |
| `Levels.TransLevelIgnoresCase` | xlogneve/processor.go:154 | names equal after lower-casing ("warn", "Warn", "WARN") translate alike |
| `Dedup.Distinct` | xlogneve/processor.go:74-76 | the deduplicated list has no repeated string and holds exactly the input's strings |
| `Dedup.DistinctKeepsFirstOccurrenceOrder` | xlogneve/processor.go:74-76 | kept strings are in the order of their first occurrences in the input |
| `Dedup.DistinctOfNoDuplicates` | xlogneve/processor.go:74-76 | a list without repeats is left unchanged |
| `Dedup.DistinctIdempotent` | xlogneve/processor.go:74-76 | deduplicating twice gives the same list as once |
| `Outputs.MatchOsOutput` | xlogneve/processor.go:102-112 | "" gives nothing; stdout/stderr exactly when the lower-cased input is "stdout"/"stderr"; anything else gives nothing |
| `Outputs.MatchOsOutputIgnoresCase` | xlogneve/processor.go:106-110 | spellings equal up to case classify alike |
| `Outputs.Open` | xlogneve/processor.go:140-150 | the default factory fails exactly when no rotating writer is made, with an error naming the path; a custom factory is called as given |
| `Outputs.WriterFor` | xlogneve/processor.go:77-90 | a stream name gives exactly its stream; any other destination gives the factory's writer as a file writer, or fails exactly when the factory fails, with its error |
| `Outputs.Resolve` | xlogneve/processor.go:74-99 | at most one writer per destination; no error exactly when every destination got a writer |
| `Outputs.Owned` | xlogneve/processor.go:86-88 | the owned writers are never more than the resolved writers |
| `Outputs.OwnedMembers` | xlogneve/processor.go:86-88 | a handle is owned exactly when the writer list holds its factory-made writer |
| `Outputs.ResolveSpec` | xlogneve/processor.go:76-96 | the i-th writer is the i-th destination's writer; no error iff all resolved; otherwise the error is the factory failure of the first destination not resolved |
| `Outputs.OwnedAreFactoryMade` | xlogneve/processor.go:77-89 | a handle is owned iff the factory made it for a resolved destination that is not a stream name |
| `Outputs.BuiltinsOnlyOwnNothing` | xlogneve/processor.go:77-80 | a list of stream names resolves without error and owns nothing |
| `Outputs.EmptyDestinationGoesToFactory` | xlogneve/processor.go:77-82 | the empty destination is handed to the factory and resolves to its writer or error |
| `Processor.ApplyOpt` | xlogneve/processor.go:173-189 | each option replaces exactly its own setting: factory, level or formatter |
| `Processor.Configure` | xlogneve/processor.go:37-39 | each setting is either the initial one or carried by one of the options |
| `Processor.ConfiguredLevelDefault` | xlogneve/processor.go:31-39 | without a level option the level stays at its initial value |
| `Processor.ConfiguredLevelIsLastSet` | xlogneve/processor.go:37-39 | the level is that of the last level option |
| `Processor.ConfiguredFactoryDefault` | xlogneve/processor.go:32-33 | without a factory option the factory stays the initial one |
| `Processor.ConfiguredFactoryIsLastSet` | xlogneve/processor.go:173-177 | the factory is that of the last factory option |
| `Processor.ConfiguredFormatterIsLastSet` | xlogneve/processor.go:185-189 | the logger's formatter is that of the last formatter option |
| `Processor.EffectiveLevel` | xlogneve/processor.go:52-56 | a fixed level is kept; the sentinel is replaced by the configured name's level; the result is never the sentinel |
| `Processor.EffectiveLevelSettles` | xlogneve/processor.go:54-56 | once settled, a later Init keeps the level whatever the configuration says |
| `Processor.LastError` | xlogneve/processor.go:123-130 | a reported error is the Close outcome of one of the owned writers |
| `Processor.LastErrorSpec` | xlogneve/processor.go:122-134 | no error iff every Close succeeded; a reported error is some Close's error after which all Closes succeeded |
| `Processor.LoggerProcessor.constructor` | xlogneve/processor.go:31-42 | no writers, default factory, sentinel level, then the options applied in order |
| `Processor.LoggerProcessor.Apply` | xlogneve/processor.go:173-189 | one option changes its setting and nothing else |
| `Processor.LoggerProcessor.AddWriter` | xlogneve/processor.go:76-90 | a stream name appends the stream; otherwise the factory's writer is appended and owned, or its error returned with nothing changed |
| `Processor.LoggerProcessor.ParseWriter` | xlogneve/processor.go:72-100 | writers and error are the resolution of the deduplicated list; owned writers grow by exactly its factory-made writers, in order |
| `Processor.LoggerProcessor.CloseAll` | xlogneve/processor.go:122-134 | every owned writer is closed in order, the last Close error is returned, nothing stays owned |
| `Processor.LoggerProcessor.BeanDestroy` | xlogneve/processor.go:136-138 | teardown closes all owned writers; with none owned it closes nothing and returns no error |
| `Processor.LoggerProcessor.SettleLevel` | xlogneve/processor.go:52-57 | the level becomes the effective level and is the logger's threshold; nothing else changes |
| `Processor.LoggerProcessor.InstallOutputs` | xlogneve/processor.go:59-69 | the error is the resolution's error; on an error every owned writer is closed, none is left and the output is kept; otherwise the output is the fan-out exactly when a writer is owned |
| `Processor.LoggerProcessor.Init` | xlogneve/processor.go:44-70 | unreadable outputs: no error, nothing changed; else the level settled and applied; on a resolve error all owned writers closed, none left, output kept; else output replaced by the fan-out iff a writer is owned |
| `Processor.LoggerProcessor.Classify` | xlogneve/processor.go:114-116 | no bean is handled and no error is reported |
| `Processor.LoggerProcessor.Process` | xlogneve/processor.go:118-120 | always succeeds |
| `Scenarios.WarnSpellings` | xlogneve/processor.go:152-161 | "warn", "Warn" and "WARN" all give (WARN, true) |
| `Scenarios.UnknownLevelNames` | xlogneve/processor.go:152-171 | "" and "verbose" give (INFO, false) |
| `Scenarios.StreamSpellings` | xlogneve/processor.go:102-110 | "STDOUT" is stdout and "Stderr" is stderr |
| `Scenarios.NotStreams` | xlogneve/processor.go:102-112 | "" and "stdout.log" are not stream names |
| `Scenarios.UnsetLevelGivesInfo` | xlogneve/processor.go:52-57 | without a level option and with no configured level name, Init sets the INFO threshold |
| `Scenarios.ResolveOfDeduplicated` | xlogneve/processor.go:74-99 | a destination list deduplicated beforehand resolves exactly like the raw list |
| `Scenarios.FixedLevelSurvivesInit` | xlogneve/processor.go:179-183 | a level option survives Init and becomes the logger's threshold |
| `Scenarios.ConfiguredLevelApplies` | xlogneve/processor.go:52-57 | without a level option a configured "debug" in any case sets the DEBUG threshold |
| `Scenarios.FailedInitLeaksNothing` | xlogneve/processor.go:59-65 | after a failed Init on a new processor every writer made has been closed and the output is unchanged |
| `Scenarios.StreamsOnlyKeepOutput` | xlogneve/processor.go:66-68 | a configuration of stream names only keeps the logger's output |
| `Scenarios.DestroyTwice` | xlogneve/processor.go:122-138 | a second teardown closes nothing and reports no error |

## Left out

- Unicode case mapping: `strings.ToUpper` and `strings.ToLower` are modelled on ASCII letters only. For level names this matters: Go's `strings.ToUpper` maps U+0131 (dotless i) to 'I', so Go accepts "ınfo" as INFO and "panıc" as PANIC, and `Levels.TransLevel` does not. For stream names nothing is lost: the only non-ASCII characters `strings.ToLower` maps into ASCII are U+0130 (to 'i') and U+212A (Kelvin sign, to 'k'), and neither letter occurs in "stdout" or "stderr", so `Outputs.MatchOsOutput` accepts exactly the spellings Go accepts.
- The xlog library is not part of this model. `SetSeverityLevel`, `SetOutput` and `SetFormatter` are assignments to `GlobalLogger.Logger`. The diagnostic `Errorln` lines are not modelled.
- `io.MultiWriter`: the installed output is the list of writers it fans out to. Fan-out of writes is not modelled.
- Severity codes are taken as 0..5 in DEBUG..FATAL order, xlog's declaration order. Only their difference from the sentinel -1 matters here.
- `fig.Properties` and `bean.Container`: `Init` receives the output list as an `Option` (`None` when `neve.logger.file` cannot be read) and the level name ("" when unset). The container argument is unused by the code and is dropped.
- `defaultCreator` internals (rotation every day, asynchronous zipping, buffering): only its outcome is modelled. That outcome is a writer, or the error naming the path when no writer is made.
- Outputs.Open: a factory is a function of the path alone, answering either a writer or an error. This leaves out four Go behaviours. (1) A custom factory returning no writer and no error appends a nil writer, and `closeAll` then panics calling Close on it (processor.go:126). (2) A factory returning a writer together with an error has that writer dropped (processor.go:84) and never closed, so a failed `Init` can leave it open. (3) `OptSetFileWriterFactory(nil)` makes the call at processor.go:82 panic. (4) Two `Init` calls on the same path get the same handle here, whereas Go makes two distinct writers; a Go factory with hidden state could also answer differently for the same path. Deduplication means no path is asked twice within one Init.
- Processor.LoggerProcessor.ParseWriter: stops at the first factory error, as an explicit loop. If the stream library evaluates `Map` on every element before `FindFirst`, later destinations are still attempted. Their writers would be owned and closed by `Init`'s `closeAll`, and the first error would still be returned. The model covers only the stop-at-first-error order.
- Close outcomes are a function of the writer (`close`). The code closes each writer it owns once, but the same writer can be closed twice when a custom factory hands out one writer for two paths, or, in the model, when the factory gives the same handle to two `Init` calls. A second Close then has the same outcome as the first; repeated-Close behaviour of real writers is not modelled.
- Atomicity of the install with respect to concurrent log calls: concurrency is not modelled, and the code has no such mechanism.
- `OptSetLogFormatter` acts on the global logger at construction time. It is modelled as setting `Logger.formatter`; the formatter itself is an opaque identity.
- `xlogneve/test/fileapp_test.go` runs a whole application with sleeps against a configuration file. It is not modelled. Its observable claim, an INFO line suppressed at a higher configured level, belongs to the logger library.
