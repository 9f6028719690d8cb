/**
 * Client-side consequences of the processor's contracts: what a caller of
 * NewLoggerProcessor, Init and BeanDestroy can rely on from the
 * specifications alone.
 */
module Scenarios {
  import opened Wrappers
  import opened Ascii
  import Levels
  import opened Outputs
  import opened Dedup
  import opened GlobalLogger
  import opened Processor

  /** "warn", "Warn" and "WARN" all name the WARN severity. */
  lemma WarnSpellings()
    ensures Levels.TransLevel("warn") == (Levels.Warn, true)
    ensures Levels.TransLevel("Warn") == (Levels.Warn, true)
    ensures Levels.TransLevel("WARN") == (Levels.Warn, true)
  {
    Levels.TransLevelRoundTrip(Levels.Warn);
    assert Lower("Warn") == Lower("WARN");
    Levels.TransLevelIgnoresCase("Warn", "WARN");
  }

  /** An empty or unknown level name gives INFO, flagged as not recognised. */
  lemma UnknownLevelNames()
    ensures Levels.TransLevel("") == (Levels.Info, false)
    ensures Levels.TransLevel("verbose") == (Levels.Info, false)
  {
    assert Upper("verbose") == "VERBOSE";
  }

  /** Stream names in any case are recognised. */
  lemma StreamSpellings()
    ensures MatchOsOutput("STDOUT") == Some(Stdout)
    ensures MatchOsOutput("Stderr") == Some(Stderr)
  {
    LowerOfLiteral("STDOUT", "stdout");
    LowerOfLiteral("Stderr", "stderr");
  }

  /** Lower-casing a literal, character by character. */
  lemma LowerOfLiteral(s: string, t: string)
    requires |s| == |t| && forall i :: 0 <= i < |s| ==> LowerChar(s[i]) == t[i]
    ensures Lower(s) == t
  {
  }

  /** The empty string and a file path are not stream names. */
  lemma NotStreams()
    ensures MatchOsOutput("") == None
    ensures MatchOsOutput("stdout.log") == None
  {
  }

  /**
   * A level fixed by an option survives Init, whatever level the
   * configuration names, and becomes the logger's threshold.
   */
  method FixedLevelSurvivesInit(v: int, conf: Config, log: Logger,
                                newRotateFile: string -> Option<Handle>, close: Handle -> Option<Error>)
      returns (p: LoggerProcessor)
    requires v != Unset && conf.file.Some?
    modifies log
    ensures p.level == v && log.severity == v
  {
    p := new LoggerProcessor([SetLogLevel(v)], log);
    assert p.level == v;
    var _ := p.Init(conf, log, newRotateFile, close);
  }

  /**
   * Without a level option, Init on a configuration naming "debug" sets the
   * DEBUG threshold.
   */
  method ConfiguredLevelApplies(conf: Config, log: Logger,
                                newRotateFile: string -> Option<Handle>, close: Handle -> Option<Error>)
      returns (p: LoggerProcessor)
    requires conf.file.Some? && Lower(conf.level) == "debug"
    modifies log
    ensures log.severity == Levels.Code(Levels.Debug)
  {
    p := new LoggerProcessor([], log);
    var _ := p.Init(conf, log, newRotateFile, close);
    Levels.TransLevelRoundTrip(Levels.Debug);
    LowerOfLiteral(Levels.Name(Levels.Debug), "debug");
    Levels.TransLevelIgnoresCase(conf.level, Lower(Levels.Name(Levels.Debug)));
  }

  /** Without a level option, Init on a configuration naming no level sets the INFO threshold. */
  method UnsetLevelGivesInfo(conf: Config, log: Logger,
                             newRotateFile: string -> Option<Handle>, close: Handle -> Option<Error>)
      returns (p: LoggerProcessor)
    requires conf.file.Some? && conf.level == ""
    modifies log
    ensures log.severity == Levels.Code(Levels.Info)
  {
    p := new LoggerProcessor([], log);
    var _ := p.Init(conf, log, newRotateFile, close);
    Levels.TransLevelEmpty();
  }

  /**
   * A failed Init leaves nothing open: on a fresh processor, every writer
   * the factory made during the call has been closed and none is owned.
   */
  method FailedInitLeaksNothing(opts: seq<Opt>, conf: Config, log: Logger,
                                newRotateFile: string -> Option<Handle>, close: Handle -> Option<Error>)
      returns (p: LoggerProcessor, err: Option<Error>)
    modifies log
    ensures err.Some? ==> p.writers == [] && p.closed == p.created
    ensures err.Some? ==> log.output == old(log.output)
  {
    p := new LoggerProcessor(opts, log);
    err := p.Init(conf, log, newRotateFile, close);
  }

  /**
   * A configuration that lists only standard streams leaves the logger's
   * output as it was: the fan-out is installed only for owned file writers.
   */
  method StreamsOnlyKeepOutput(outputs: seq<string>, conf: Config, log: Logger,
                               newRotateFile: string -> Option<Handle>, close: Handle -> Option<Error>)
      returns (p: LoggerProcessor, err: Option<Error>)
    requires conf.file == Some(outputs)
    requires forall i :: 0 <= i < |outputs| ==> MatchOsOutput(outputs[i]).Some?
    modifies log
    ensures err == None && log.output == old(log.output)
  {
    p := new LoggerProcessor([], log);
    ghost var ds := Distinct(outputs);
    forall i | 0 <= i < |ds| ensures MatchOsOutput(ds[i]).Some? {
      assert ds[i] in outputs;
    }
    BuiltinsOnlyOwnNothing(ds, DefaultFactory, newRotateFile);
    err := p.Init(conf, log, newRotateFile, close);
  }

  /** Teardown twice: the second call closes nothing and reports no error. */
  method DestroyTwice(p: LoggerProcessor, close: Handle -> Option<Error>) returns (first: Option<Error>, second: Option<Error>)
    requires p.Valid()
    modifies p
    ensures p.writers == [] && p.closed == old(p.closed) + old(p.writers)
    ensures first == LastError(old(p.writers), close) && second == None
  {
    first := p.BeanDestroy(close);
    second := p.BeanDestroy(close);
  }

  /** A destination list deduplicated beforehand resolves exactly like the raw list. */
  lemma ResolveOfDeduplicated(s: seq<string>, f: Factory, newRotateFile: string -> Option<Handle>)
    ensures Resolve(Distinct(Distinct(s)), f, newRotateFile) == Resolve(Distinct(s), f, newRotateFile)
  {
    DistinctIdempotent(s);
  }
}
