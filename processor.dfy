/**
 * The logger-configuration processor (xlogneve/processor.go): construction
 * with options, initialisation from configuration, resolution of output
 * destinations into owned writers, and release of those writers on teardown.
 */
module Processor {
  import opened Wrappers
  import Levels
  import opened Outputs
  import opened Dedup
  import opened GlobalLogger

  /** The construction options: a file-writer factory, a fixed level, a formatter. */
  datatype Opt =
    | SetFileWriterFactory(factory: Factory)
    | SetLogLevel(level: int)
    | SetLogFormatter(formatter: Formatter)

  /** What the options can change: the processor's level and factory, and the logger's formatter. */
  datatype Settings = Settings(level: int, creator: Factory, formatter: Formatter)

  /** The level value that means "no level fixed yet". */
  const Unset: int := -1

  /** The effect of one option: it replaces exactly its own setting. */
  function ApplyOpt(s: Settings, o: Opt): (r: Settings)
    ensures o.SetLogLevel? ==> r == s.(level := o.level)
    ensures o.SetFileWriterFactory? ==> r == s.(creator := o.factory)
    ensures o.SetLogFormatter? ==> r == s.(formatter := o.formatter)
  {
    match o
    case SetFileWriterFactory(fac) => s.(creator := fac)
    case SetLogLevel(lv) => s.(level := lv)
    case SetLogFormatter(fm) => s.(formatter := fm)
  }

  /** The effect of a list of options applied in order. */
  function Configure(opts: seq<Opt>, s: Settings): (r: Settings)
    ensures r.level == s.level || exists k :: 0 <= k < |opts| && opts[k] == SetLogLevel(r.level)
    ensures r.creator == s.creator || exists k :: 0 <= k < |opts| && opts[k] == SetFileWriterFactory(r.creator)
    ensures r.formatter == s.formatter || exists k :: 0 <= k < |opts| && opts[k] == SetLogFormatter(r.formatter)
    decreases |opts|
  {
    if opts == [] then s
    else ApplyOpt(Configure(opts[..|opts| - 1], s), opts[|opts| - 1])
  }

  /** With no level option the level keeps its initial value. */
  lemma {:induction false} ConfiguredLevelDefault(opts: seq<Opt>, s: Settings)
    requires forall j :: 0 <= j < |opts| ==> !opts[j].SetLogLevel?
    ensures Configure(opts, s).level == s.level
    decreases |opts|
  {
    if opts != [] {
      ConfiguredLevelDefault(opts[..|opts| - 1], s);
    }
  }

  /** The last level option wins. */
  lemma {:induction false} ConfiguredLevelIsLastSet(opts: seq<Opt>, s: Settings, k: nat)
    requires k < |opts| && opts[k].SetLogLevel?
    requires forall j :: k < j < |opts| ==> !opts[j].SetLogLevel?
    ensures Configure(opts, s).level == opts[k].level
    decreases |opts|
  {
    if k < |opts| - 1 {
      ConfiguredLevelIsLastSet(opts[..|opts| - 1], s, k);
    }
  }

  /** With no factory option the factory keeps its initial value. */
  lemma {:induction false} ConfiguredFactoryDefault(opts: seq<Opt>, s: Settings)
    requires forall j :: 0 <= j < |opts| ==> !opts[j].SetFileWriterFactory?
    ensures Configure(opts, s).creator == s.creator
    decreases |opts|
  {
    if opts != [] {
      ConfiguredFactoryDefault(opts[..|opts| - 1], s);
    }
  }

  /** The last factory option wins. */
  lemma {:induction false} ConfiguredFactoryIsLastSet(opts: seq<Opt>, s: Settings, k: nat)
    requires k < |opts| && opts[k].SetFileWriterFactory?
    requires forall j :: k < j < |opts| ==> !opts[j].SetFileWriterFactory?
    ensures Configure(opts, s).creator == opts[k].factory
    decreases |opts|
  {
    if k < |opts| - 1 {
      ConfiguredFactoryIsLastSet(opts[..|opts| - 1], s, k);
    }
  }

  /** The last formatter option wins. */
  lemma {:induction false} ConfiguredFormatterIsLastSet(opts: seq<Opt>, s: Settings, k: nat)
    requires k < |opts| && opts[k].SetLogFormatter?
    requires forall j :: k < j < |opts| ==> !opts[j].SetLogFormatter?
    ensures Configure(opts, s).formatter == opts[k].formatter
    decreases |opts|
  {
    if k < |opts| - 1 {
      ConfiguredFormatterIsLastSet(opts[..|opts| - 1], s, k);
    }
  }

  /**
   * The level Init settles on: a level already fixed (not the sentinel) is
   * kept; otherwise the configured name's level, INFO if it names none.
   */
  function EffectiveLevel(current: int, levelName: string): (l: int)
    ensures current != Unset ==> l == current
    ensures current == Unset ==> l == Levels.Code(Levels.TransLevel(levelName).0)
    ensures l != Unset
  {
    if current == Unset then Levels.Code(Levels.TransLevel(levelName).0) else current
  }

  /** Once Init has settled a level, a later Init keeps it whatever the configuration says. */
  lemma EffectiveLevelSettles(current: int, first: string, second: string)
    ensures EffectiveLevel(EffectiveLevel(current, first), second) == EffectiveLevel(current, first)
  {
  }

  /**
   * The error closeAll reports for closing `hs` in order when `close` gives
   * each writer's Close outcome: the last error, or none.
   */
  function LastError(hs: seq<Handle>, close: Handle -> Option<Error>): (r: Option<Error>)
    ensures r.Some? ==> exists i :: 0 <= i < |hs| && close(hs[i]) == r
    decreases |hs|
  {
    if hs == [] then None
    else if close(hs[|hs| - 1]).Some? then close(hs[|hs| - 1])
    else LastError(hs[..|hs| - 1], close)
  }

  /**
   * Last error wins: there is no error exactly when every Close succeeded;
   * a reported error is the outcome of some Close after which all succeeded.
   */
  lemma {:induction false} LastErrorSpec(hs: seq<Handle>, close: Handle -> Option<Error>)
    ensures LastError(hs, close).None? <==> forall i :: 0 <= i < |hs| ==> close(hs[i]).None?
    ensures LastError(hs, close).Some? ==>
      exists i :: 0 <= i < |hs| && close(hs[i]) == LastError(hs, close) &&
        forall j :: i < j < |hs| ==> close(hs[j]).None?
    decreases |hs|
  {
    if hs != [] {
      var n := |hs| - 1;
      var p := hs[..n];
      LastErrorSpec(p, close);
      assert forall i :: 0 <= i < n ==> hs[i] == p[i];
      if close(hs[n]).Some? {
        assert LastError(hs, close) == close(hs[n]);
      } else {
        assert LastError(hs, close) == LastError(p, close);
        if LastError(p, close).Some? {
          var i :| 0 <= i < n && close(p[i]) == LastError(p, close) &&
            forall j :: i < j < n ==> close(p[j]).None?;
          assert close(hs[i]) == LastError(hs, close);
        }
      }
    }
  }

  /** The configuration Init reads: the output list (absent when it cannot be read) and the level name ("" when unset). */
  datatype Config = Config(file: Option<seq<string>>, level: string)

  class LoggerProcessor {
    /** The writers this processor made and must close (p.writers). */
    var writers: seq<Handle>
    var creator: Factory
    var level: int

    /** Every writer any factory call of this processor has returned, in order. */
    ghost var created: seq<Handle>
    /** Every writer Close has been called on, in order. */
    ghost var closed: seq<Handle>

    /** Every writer made is either still owned or has been closed, once, in creation order. */
    ghost predicate Valid()
      reads this
    {
      created == closed + writers
    }

    /** The option-controlled settings as seen through this processor and `log`. */
    ghost function SettingsOf(log: Logger): Settings
      reads this, log
    {
      Settings(level, creator, log.formatter)
    }

    /**
     * NewLoggerProcessor: the default factory, the sentinel level and no
     * writers, then each option applied in order.
     */
    constructor (opts: seq<Opt>, log: Logger)
      modifies log
      ensures Valid() && writers == [] && created == []
      ensures SettingsOf(log) == Configure(opts, Settings(Unset, DefaultFactory, old(log.formatter)))
      ensures log.severity == old(log.severity) && log.output == old(log.output)
    {
      writers := [];
      creator := DefaultFactory;
      level := Unset;
      created := [];
      closed := [];
      new;
      var i := 0;
      while i < |opts|
        invariant 0 <= i <= |opts|
        invariant writers == [] && created == [] && closed == []
        invariant SettingsOf(log) == Configure(opts[..i], Settings(Unset, DefaultFactory, old(log.formatter)))
        invariant log.severity == old(log.severity) && log.output == old(log.output)
      {
        Apply(opts[i], log);
        assert opts[..i + 1][..i] == opts[..i];
        i := i + 1;
      }
      assert opts[..|opts|] == opts;
    }

    /** One option applied to this processor (OptSetFileWriterFactory, OptSetLogLevel, OptSetLogFormatter). */
    method Apply(o: Opt, log: Logger)
      modifies this, log
      ensures SettingsOf(log) == ApplyOpt(old(SettingsOf(log)), o)
      ensures writers == old(writers) && created == old(created) && closed == old(closed)
      ensures log.severity == old(log.severity) && log.output == old(log.output)
    {
      match o
      case SetFileWriterFactory(fac) => creator := fac;
      case SetLogLevel(lv) => level := lv;
      case SetLogFormatter(fm) => log.formatter := fm;
    }

    /**
     * The per-destination step of parseWriter: a stream name gives the
     * stream; anything else goes to the factory, whose writer is appended to
     * the list and recorded as owned, or whose error is returned.
     */
    method AddWriter(d: string, ws: seq<Writer>, newRotateFile: string -> Option<Handle>)
      returns (ws': seq<Writer>, err: Option<Error>)
      requires Valid()
      modifies this
      ensures Valid() && closed == old(closed) && creator == old(creator) && level == old(level)
      ensures match WriterFor(d, creator, newRotateFile)
        case Failure(e) => err == Some(e) && ws' == ws && writers == old(writers)
        case Success(w) => err == None && ws' == ws + [w] && writers == old(writers) + Owned([w])
    {
      var std := MatchOsOutput(d);
      if std.Some? {
        return ws + [Std(std.value)], None;
      }
      var made := Open(creator, newRotateFile, d);
      if made.Failure? {
        return ws, Some(made.error);
      }
      assert Owned([File(made.value)]) == [made.value];
      writers := writers + [made.value];
      created := created + [made.value];
      return ws + [File(made.value)], None;
    }

    /**
     * parseWriter: each distinct destination once, in first-occurrence
     * order, becomes a stream or a factory-made writer; factory-made writers
     * are also recorded as owned; the first factory error stops it.
     */
    method ParseWriter(outputs: seq<string>, newRotateFile: string -> Option<Handle>)
      returns (ws: seq<Writer>, err: Option<Error>)
      requires Valid()
      modifies this
      ensures Valid()
      ensures Resolution(ws, err) == Resolve(Distinct(outputs), creator, newRotateFile)
      ensures writers == old(writers) + Owned(ws)
      ensures closed == old(closed) && creator == old(creator) && level == old(level)
    {
      var ds := Distinct(outputs);
      ghost var f := creator;
      ws, err := [], None;
      var i := 0;
      while i < |ds|
        invariant 0 <= i <= |ds|
        invariant Valid() && closed == old(closed) && creator == f && level == old(level)
        invariant writers == old(writers) + Owned(ws)
        invariant err == None
        invariant ResolvedUpTo(ds, i, ws, f, newRotateFile)
      {
        ghost var before := ws;
        ws, err := AddWriter(ds[i], ws, newRotateFile);
        if err.Some? {
          ResolvedStop(ds, i, ws, err.value, f, newRotateFile);
          return;
        }
        ghost var w := WriterFor(ds[i], f, newRotateFile).value;
        ResolvedAdvance(ds, i, before, w, f, newRotateFile);
        OwnedAppend(before, [w]);
        i := i + 1;
      }
      ResolvedAll(ds, ws, f, newRotateFile);
    }

    /**
     * closeAll: Close on every owned writer in order, continuing past
     * failures, reporting the last error and owning nothing afterwards.
     */
    method CloseAll(close: Handle -> Option<Error>) returns (err: Option<Error>)
      requires Valid()
      modifies this
      ensures Valid() && writers == []
      ensures closed == old(closed) + old(writers) && created == old(created)
      ensures err == LastError(old(writers), close)
      ensures creator == old(creator) && level == old(level)
    {
      err := None;
      if |writers| > 0 {
        var i := 0;
        while i < |writers|
          invariant 0 <= i <= |writers|
          invariant writers == old(writers) && created == old(created)
          invariant closed == old(closed) + writers[..i]
          invariant err == LastError(writers[..i], close)
          invariant creator == old(creator) && level == old(level)
        {
          var e := close(writers[i]);
          closed := closed + [writers[i]];
          if e.Some? {
            err := e;
          }
          assert writers[..i + 1][..i] == writers[..i];
          i := i + 1;
        }
        assert writers[..i] == writers;
        writers := [];
      }
    }

    /** BeanDestroy: the container's teardown hook, which is closeAll. */
    method BeanDestroy(close: Handle -> Option<Error>) returns (err: Option<Error>)
      requires Valid()
      modifies this
      ensures Valid() && writers == []
      ensures closed == old(closed) + old(writers) && created == old(created)
      ensures err == LastError(old(writers), close)
      ensures old(writers) == [] ==> err == None && closed == old(closed)
    {
      err := CloseAll(close);
    }

    /**
     * The level step of Init: the configured level replaces the level only
     * while it is still the sentinel; the logger's threshold becomes the level.
     */
    method SettleLevel(levelName: string, log: Logger)
      modifies this, log
      ensures level == EffectiveLevel(old(level), levelName) && log.severity == level
      ensures writers == old(writers) && created == old(created) && closed == old(closed) && creator == old(creator)
      ensures log.output == old(log.output) && log.formatter == old(log.formatter)
    {
      var lv := Levels.TransLevel(levelName).0;
      if level == Unset {
        level := Levels.Code(lv);
      }
      log.severity := level;
    }

    /**
     * The output step of Init: resolve the outputs; on an error close every
     * owned writer and report the error, leaving the logger's output alone;
     * otherwise install the fan-out of the resolved writers when the
     * processor owns at least one writer.
     */
    method InstallOutputs(outputs: seq<string>, log: Logger, newRotateFile: string -> Option<Handle>, close: Handle -> Option<Error>)
      returns (err: Option<Error>)
      requires Valid()
      modifies this, log
      ensures Valid() && creator == old(creator) && level == old(level)
      ensures log.severity == old(log.severity) && log.formatter == old(log.formatter)
      ensures err == Resolve(Distinct(outputs), creator, newRotateFile).err
      ensures err.Some? ==>
        var owned := Owned(Resolve(Distinct(outputs), creator, newRotateFile).writers);
        && writers == []
        && created == old(created) + owned
        && closed == old(closed) + old(writers) + owned
        && log.output == old(log.output)
      ensures err.None? ==>
        var ws := Resolve(Distinct(outputs), creator, newRotateFile).writers;
        && writers == old(writers) + Owned(ws)
        && closed == old(closed)
        && log.output == (if writers != [] then MultiWriter(ws) else old(log.output))
    {
      ghost var owned0 := writers;
      var ws, e := ParseWriter(outputs, newRotateFile);
      if e.Some? {
        ghost var owned1 := writers;
        var _ := CloseAll(close);
        assert closed == old(closed) + owned0 + Owned(ws) by {
          assert owned1 == owned0 + Owned(ws);
        }
        return e;
      }
      if |writers| > 0 {
        log.output := MultiWriter(ws);
      }
      return None;
    }

    /**
     * Init: read the output list (a read failure is swallowed and changes
     * nothing), settle the level and apply it to the logger, then resolve and
     * install the outputs.
     */
    method Init(conf: Config, log: Logger, newRotateFile: string -> Option<Handle>, close: Handle -> Option<Error>)
      returns (err: Option<Error>)
      requires Valid()
      modifies this, log
      ensures Valid() && creator == old(creator) && log.formatter == old(log.formatter)
      ensures conf.file.None? ==> err == None && unchanged(this) && unchanged(log)
      ensures conf.file.Some? ==> level == EffectiveLevel(old(level), conf.level) && log.severity == level
      ensures conf.file.Some? ==> err == Resolve(Distinct(conf.file.value), creator, newRotateFile).err
      ensures conf.file.Some? && err.Some? ==>
        var owned := Owned(Resolve(Distinct(conf.file.value), creator, newRotateFile).writers);
        && writers == []
        && created == old(created) + owned
        && closed == old(closed) + old(writers) + owned
        && log.output == old(log.output)
      ensures conf.file.Some? && err.None? ==>
        var ws := Resolve(Distinct(conf.file.value), creator, newRotateFile).writers;
        && writers == old(writers) + Owned(ws)
        && closed == old(closed)
        && log.output == (if writers != [] then MultiWriter(ws) else old(log.output))
    {
      if conf.file.None? {
        return None;
      }
      SettleLevel(conf.level, log);
      err := InstallOutputs(conf.file.value, log, newRotateFile, close);
    }

    /** Classify: the processor handles no bean. */
    method Classify<T>(o: T) returns (handled: bool, err: Option<Error>)
      ensures !handled && err == None
    {
      return false, None;
    }

    /** Process: nothing to do, always succeeds. */
    method Process() returns (err: Option<Error>)
      ensures err == None
    {
      return None;
    }
  }
}
