/**
 * Output destinations: classification of a destination string as a built-in
 * stream (matchOsOutput), the pluggable file-writer factory, and the
 * resolution of a deduplicated destination list into writers (parseWriter's
 * specification).
 */
module Outputs {
  import opened Wrappers
  import opened Ascii

  /** The identity of a file-backed writer made by a factory. */
  type Handle = nat

  /** The two process streams, which the processor never owns or closes. */
  datatype Stream = Stdout | Stderr

  /** A resolved destination: a built-in stream or a factory-made file writer. */
  datatype Writer = Std(stream: Stream) | File(handle: Handle)

  /**
   * Errors: the default factory's "Init logger failed, log file: <path>",
   * and errors of a custom factory or of a writer's Close, which are opaque.
   */
  datatype Error = LogFileInitFailed(path: string) | OpaqueError(id: nat)

  /**
   * The file-writer factory: the default one (a daily-rotating buffered file
   * writer) or one supplied through the factory option.
   */
  datatype Factory = DefaultFactory | CustomFactory(create: string -> Result<Handle, Error>)

  /**
   * matchOsOutput: "stdout" or "stderr" compared case-insensitively give the
   * matching stream; everything else, the empty string included, gives nothing.
   */
  function MatchOsOutput(op: string): (r: Option<Stream>)
    ensures op == "" ==> r == None
    ensures r == Some(Stdout) <==> Lower(op) == "stdout"
    ensures r == Some(Stderr) <==> Lower(op) == "stderr"
  {
    if |op| == 0 then None
    else if Lower(op) == "stdout" then Some(Stdout)
    else if Lower(op) == "stderr" then Some(Stderr)
    else None
  }

  /** Stream names are case-insensitive: spellings with the same upper-case form classify alike. */
  lemma MatchOsOutputIgnoresCase(s: string, t: string)
    requires Upper(s) == Upper(t)
    ensures MatchOsOutput(s) == MatchOsOutput(t)
  {
    SameUpperIffSameLower(s, t);
  }

  /**
   * Calling the processor's factory on `path`. The default factory fails
   * exactly when the rotating file writer cannot be made (`newRotateFile`
   * gives no writer), with an error naming the path.
   */
  function Open(f: Factory, newRotateFile: string -> Option<Handle>, path: string): (r: Result<Handle, Error>)
    ensures f.DefaultFactory? ==> (r.Failure? <==> newRotateFile(path).None?)
    ensures f.DefaultFactory? && r.Failure? ==> r.error == LogFileInitFailed(path)
    ensures f.DefaultFactory? && r.Success? ==> newRotateFile(path) == Some(r.value)
    ensures f.CustomFactory? ==> r == f.create(path)
  {
    match f
    case DefaultFactory =>
      (match newRotateFile(path)
       case None => Failure(LogFileInitFailed(path))
       case Some(h) => Success(h))
    case CustomFactory(create) => create(path)
  }

  /** The writer for one destination: a built-in stream if it names one, otherwise what the factory makes of it. */
  function WriterFor(d: string, f: Factory, newRotateFile: string -> Option<Handle>): (r: Result<Writer, Error>)
    ensures MatchOsOutput(d).Some? ==> r == Success(Std(MatchOsOutput(d).value))
    ensures MatchOsOutput(d).None? ==> (r.Failure? <==> Open(f, newRotateFile, d).Failure?)
    ensures MatchOsOutput(d).None? && r.Success? ==> r.value.File?
    ensures r.Failure? ==> MatchOsOutput(d).None? && Open(f, newRotateFile, d) == Failure(r.error)
    ensures r.Success? && r.value.File? ==> MatchOsOutput(d).None? && Open(f, newRotateFile, d) == Success(r.value.handle)
  {
    match MatchOsOutput(d)
    case Some(s) => Success(Std(s))
    case None =>
      (match Open(f, newRotateFile, d)
       case Failure(e) => Failure(e)
       case Success(h) => Success(File(h)))
  }

  /** The writers resolved so far and the error that stopped resolution, if any. */
  datatype Resolution = Resolution(writers: seq<Writer>, err: Option<Error>)

  /**
   * Resolution of a (deduplicated) destination list, in order, stopping at
   * the first destination the factory fails on.
   */
  function Resolve(ds: seq<string>, f: Factory, newRotateFile: string -> Option<Handle>): (r: Resolution)
    ensures |r.writers| <= |ds|
    ensures r.err.None? <==> |r.writers| == |ds|
    decreases |ds|
  {
    if ds == [] then Resolution([], None)
    else
      match WriterFor(ds[0], f, newRotateFile)
      case Failure(e) => Resolution([], Some(e))
      case Success(w) =>
        var rest := Resolve(ds[1..], f, newRotateFile);
        Resolution([w] + rest.writers, rest.err)
  }

  /** `ws` is what resolving the first `i` destinations of `ds` gave, with no error so far. */
  ghost predicate ResolvedUpTo(ds: seq<string>, i: nat, ws: seq<Writer>, f: Factory, newRotateFile: string -> Option<Handle>)
    requires i <= |ds|
  {
    var rest := Resolve(ds[i..], f, newRotateFile);
    Resolve(ds, f, newRotateFile) == Resolution(ws + rest.writers, rest.err)
  }

  /** A destination that resolves to `w` extends the resolved prefix by `w`. */
  lemma ResolvedAdvance(ds: seq<string>, i: nat, ws: seq<Writer>, w: Writer, f: Factory, newRotateFile: string -> Option<Handle>)
    requires i < |ds| && ResolvedUpTo(ds, i, ws, f, newRotateFile)
    requires WriterFor(ds[i], f, newRotateFile) == Success(w)
    ensures ResolvedUpTo(ds, i + 1, ws + [w], f, newRotateFile)
  {
    assert ds[i..][0] == ds[i];
    assert ds[i..][1..] == ds[i + 1..];
    var rest := Resolve(ds[i + 1..], f, newRotateFile);
    assert ws + [w] + rest.writers == ws + ([w] + rest.writers);
  }

  /** A destination the factory fails on ends resolution with that error. */
  lemma ResolvedStop(ds: seq<string>, i: nat, ws: seq<Writer>, e: Error, f: Factory, newRotateFile: string -> Option<Handle>)
    requires i < |ds| && ResolvedUpTo(ds, i, ws, f, newRotateFile)
    requires WriterFor(ds[i], f, newRotateFile) == Failure(e)
    ensures Resolve(ds, f, newRotateFile) == Resolution(ws, Some(e))
  {
    assert ds[i..][0] == ds[i];
    assert ws + [] == ws;
  }

  /** Once every destination is resolved, the prefix is the whole resolution. */
  lemma ResolvedAll(ds: seq<string>, ws: seq<Writer>, f: Factory, newRotateFile: string -> Option<Handle>)
    requires ResolvedUpTo(ds, |ds|, ws, f, newRotateFile)
    ensures Resolve(ds, f, newRotateFile) == Resolution(ws, None)
  {
    assert ds[|ds|..] == [];
    assert ws + [] == ws;
  }

  /** The factory-made writers of `ws`, in order: the ones the processor owns and must close. */
  function Owned(ws: seq<Writer>): (hs: seq<Handle>)
    ensures |hs| <= |ws|
    decreases |ws|
  {
    if ws == [] then []
    else
      var last := ws[|ws| - 1];
      assert ws == ws[..|ws| - 1] + [last];
      Owned(ws[..|ws| - 1]) + (if last.File? then [last.handle] else [])
  }

  /** A handle is owned exactly when the list holds its file writer. */
  lemma {:induction false} OwnedMembers(ws: seq<Writer>)
    ensures forall h :: h in Owned(ws) <==> File(h) in ws
    decreases |ws|
  {
    if ws != [] {
      var n := |ws| - 1;
      OwnedMembers(ws[..n]);
      assert ws == ws[..n] + [ws[n]];
    }
  }

  /** Owning distributes over concatenation. */
  lemma {:induction false} OwnedAppend(a: seq<Writer>, b: seq<Writer>)
    ensures Owned(a + b) == Owned(a) + Owned(b)
    decreases |b|
  {
    if b != [] {
      var n := |b| - 1;
      assert (a + b)[..|a + b| - 1] == a + b[..n];
      OwnedAppend(a, b[..n]);
    } else {
      assert a + b == a;
    }
  }

  /**
   * What resolution produces: the i-th writer is the writer of the i-th
   * destination; with no error every destination was resolved; with an
   * error, resolution stopped at the first destination whose factory call
   * failed, and the error is that failure.
   */
  lemma {:induction false} ResolveSpec(ds: seq<string>, f: Factory, newRotateFile: string -> Option<Handle>)
    ensures var r := Resolve(ds, f, newRotateFile);
      && |r.writers| <= |ds|
      && (forall i :: 0 <= i < |r.writers| ==> WriterFor(ds[i], f, newRotateFile) == Success(r.writers[i]))
      && (r.err.None? <==> |r.writers| == |ds|)
      && (r.err.Some? ==>
            MatchOsOutput(ds[|r.writers|]).None? &&
            Open(f, newRotateFile, ds[|r.writers|]) == Failure(r.err.value))
    decreases |ds|
  {
    if ds != [] {
      ResolveSpec(ds[1..], f, newRotateFile);
    }
  }

  /**
   * Ownership partition: a handle is owned exactly when it is the writer of a
   * resolved destination that is not a built-in stream; built-in streams never are.
   */
  lemma OwnedAreFactoryMade(ds: seq<string>, f: Factory, newRotateFile: string -> Option<Handle>, h: Handle)
    ensures var r := Resolve(ds, f, newRotateFile);
      h in Owned(r.writers) <==>
        exists i :: 0 <= i < |ds| && i < |r.writers| && MatchOsOutput(ds[i]).None? && Open(f, newRotateFile, ds[i]) == Success(h)
  {
    var r := Resolve(ds, f, newRotateFile);
    ResolveSpec(ds, f, newRotateFile);
    OwnedMembers(r.writers);
    if h in Owned(r.writers) {
      var i :| 0 <= i < |r.writers| && r.writers[i] == File(h);
      assert i < |ds|;
      assert WriterFor(ds[i], f, newRotateFile) == Success(File(h));
    }
  }

  /**
   * A destination list made only of stream names resolves without error and
   * owns nothing; so the processor does not replace the logger's output for it.
   */
  lemma {:induction false} BuiltinsOnlyOwnNothing(ds: seq<string>, f: Factory, newRotateFile: string -> Option<Handle>)
    requires forall i :: 0 <= i < |ds| ==> MatchOsOutput(ds[i]).Some?
    ensures Resolve(ds, f, newRotateFile).err == None
    ensures Owned(Resolve(ds, f, newRotateFile).writers) == []
    decreases |ds|
  {
    if ds != [] {
      BuiltinsOnlyOwnNothing(ds[1..], f, newRotateFile);
      var rest := Resolve(ds[1..], f, newRotateFile);
      var w := Std(MatchOsOutput(ds[0]).value);
      OwnedAppend([w], rest.writers);
      assert Owned([w]) == [] by {
        assert [w][..0] == [];
      }
    }
  }

  /** The empty destination is not a stream name: it is handed to the factory like a file path. */
  lemma EmptyDestinationGoesToFactory(f: Factory, newRotateFile: string -> Option<Handle>)
    ensures MatchOsOutput("") == None
    ensures Resolve([""], f, newRotateFile) ==
      match Open(f, newRotateFile, "")
      case Failure(e) => Resolution([], Some(e))
      case Success(h) => Resolution([File(h)], None)
  {
    assert [""][1..] == [];
  }
}
