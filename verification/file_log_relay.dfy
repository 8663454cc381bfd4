/** The file relay: pm2 writes an application's stdout and stderr to files,
    and the relay tails them. A tail is opened per shown stream when the
    process comes online and closed when it exits. */
module FileLogRelay {
  import opened Wrappers
  import opened LogRelay

  datatype Stream = Stdout | Stderr

  /** A tail handle: the stream it was opened for, the file it polls, and
      whether it is still watched. A handle is never reopened once
      unwatched. */
  datatype Tail = Tail(stream: Stream, path: Option<string>, watching: bool)

  /** What a tail reports: an appended line, or a failure to read its file. */
  datatype TailEvent = TailLine(text: string) | TailFailure(text: string)

  /** The relay's state: its normalised options, every tail handle it has
      ever opened (in opening order), and the indices of the handles held in
      `_outTail` and `_errTail`. */
  datatype FileRelay = FileRelay(
    app: AppOptions,
    outTail: Option<nat>,
    errTail: Option<nat>,
    tails: seq<Tail>)

  const ProcessEvent: string := "process:event"
  const Online: string := "online"
  const Exit: string := "exit"

  /** `handle`, when set, refers to a watched tail of `stream` on `path`. */
  predicate Holds(f: FileRelay, handle: Option<nat>, stream: Stream, path: Option<string>)
  {
    handle.Some? ==> handle.value < |f.tails| && f.tails[handle.value] == Tail(stream, path, true)
  }

  /** The invariant of every reachable relay: the held handles watch the
      configured files, the stdout one was opened first, and no other handle
      is still watched. */
  predicate Valid(f: FileRelay)
  {
    && Holds(f, f.outTail, Stdout, f.app.pm2.output)
    && Holds(f, f.errTail, Stderr, f.app.pm2.error)
    && (f.outTail.Some? && f.errTail.Some? ==> f.outTail.value < f.errTail.value)
    && forall i :: 0 <= i < |f.tails| && f.tails[i].watching ==> f.outTail == Some(i) || f.errTail == Some(i)
  }

  /** The handles still watching `stream`. */
  function LiveTails(f: FileRelay, stream: Stream): set<nat>
  {
    set i: nat | i < |f.tails| && f.tails[i].watching && f.tails[i].stream == stream
  }

  /** In a valid relay the live handles of each stream are exactly the held
      one, so there is at most one. */
  lemma LiveTailsOfValid(f: FileRelay)
    requires Valid(f)
    ensures LiveTails(f, Stdout) == (if f.outTail.Some? then {f.outTail.value} else {})
    ensures LiveTails(f, Stderr) == (if f.errTail.Some? then {f.errTail.value} else {})
    ensures |LiveTails(f, Stdout)| <= 1 && |LiveTails(f, Stderr)| <= 1
  {
  }

  /** The constructor. With `logToLaunchpadDir`, an unset `output`/`error` is
      moved to the launchpad log directory (`logFilePath` stands for the log
      manager's file path, resolved); otherwise both are cleared, leaving pm2
      at its default files. The base constructor then runs on the result. */
  function Create(app: AppOptions, logFilePath: string -> string): (r: (FileRelay, seq<LogCall>))
    ensures app.logging.logToLaunchpadDir ==>
      && r.0.app.pm2.output == Some(app.pm2.output.GetOr(logFilePath(app.pm2.name + "-stdout")))
      && r.0.app.pm2.error == Some(app.pm2.error.GetOr(logFilePath(app.pm2.name + "-stderr")))
    ensures !app.logging.logToLaunchpadDir ==> r.0.app.pm2.output == None && r.0.app.pm2.error == None
    ensures r.0.app.pm2.outFile == r.0.app.pm2.output
    ensures r.0.app.pm2.errorFile == r.0.app.pm2.error
    ensures r.0.app.pm2.name == app.pm2.name && r.0.app.logging == app.logging
    ensures r.0.outTail == None && r.0.errTail == None && r.0.tails == []
    ensures Valid(r.0)
    ensures r.1 != [] <==> Unrotated(r.0.app.pm2.output) || Unrotated(r.0.app.pm2.error)
    ensures !app.logging.logToLaunchpadDir ==> r.1 != []
    ensures r.1 != [] ==> r.1 == [LogCall(Warn, RotateWarning), LogCall(Warn, RotateHint)]
  {
    var name := app.pm2.name;
    var placed :=
      if app.logging.logToLaunchpadDir then
        app.pm2.(
          output := Some(app.pm2.output.GetOr(logFilePath(name + "-stdout"))),
          error := Some(app.pm2.error.GetOr(logFilePath(name + "-stderr"))))
      else
        app.pm2.(output := None, error := None);
    var (normalised, warnings) := InitLogRelay(app.(pm2 := placed));
    (FileRelay(normalised, None, None, []), warnings)
  }

  /** Constructing a file relay from options it has already normalised
      yields the same options and the same warnings. */
  lemma CreateIdempotent(app: AppOptions, logFilePath: string -> string)
    ensures var first := Create(app, logFilePath);
      var second := Create(first.0.app, logFilePath);
      second.0 == first.0 && second.1 == first.1
  {
  }

  /** A path the source treats as missing: unset or empty. */
  predicate Missing(path: Option<string>)
  {
    path == None || path == Some("")
  }

  function MissingWarning(app: AppOptions, property: string): LogCall
  {
    LogCall(Warn, "App process for " + app.pm2.name + " is missing the '" + property + "' property.")
  }

  /** One warning per missing destination, stdout first. */
  function MissingPathWarnings(app: AppOptions): (warnings: seq<LogCall>)
    ensures |warnings| == (if Missing(app.pm2.output) then 1 else 0) + (if Missing(app.pm2.error) then 1 else 0)
    ensures forall i :: 0 <= i < |warnings| ==> warnings[i].severity == Warn
    ensures MissingWarning(app, "output") in warnings <==> Missing(app.pm2.output)
    ensures MissingWarning(app, "error") in warnings <==> Missing(app.pm2.error)
    ensures Missing(app.pm2.output) ==> warnings[0] == MissingWarning(app, "output")
    ensures Missing(app.pm2.error) ==> warnings[|warnings| - 1] == MissingWarning(app, "error")
  {
    (if Missing(app.pm2.output) then [MissingWarning(app, "output")] else [])
    + (if Missing(app.pm2.error) then [MissingWarning(app, "error")] else [])
  }

  /** Unwatches the handle `handle` refers to, if any. */
  function Unwatch(tails: seq<Tail>, handle: Option<nat>): (r: seq<Tail>)
    ensures |r| == |tails|
    ensures forall i :: 0 <= i < |tails| ==>
      r[i] == (if handle == Some(i) then tails[i].(watching := false) else tails[i])
  {
    if handle.Some? && handle.value < |tails| then
      tails[handle.value := tails[handle.value].(watching := false)]
    else tails
  }

  /** Opens a watched tail of `stream` on `path` when `show` holds. */
  function Open(tails: seq<Tail>, stream: Stream, path: Option<string>, show: bool): (Option<nat>, seq<Tail>)
  {
    if show then (Some(|tails|), tails + [Tail(stream, path, true)]) else (None, tails)
  }

  /** `_handleOnline`: both held handles are unwatched and dropped, a warning
      is logged per missing destination, and a new tail is opened for each
      shown stream, even on a missing path. */
  function HandleOnline(f: FileRelay): (r: (FileRelay, seq<LogCall>))
    ensures r.0.app == f.app
    ensures |r.0.tails| == |f.tails| + (if f.app.logging.showStdout then 1 else 0)
                                    + (if f.app.logging.showStderr then 1 else 0)
    ensures forall i :: 0 <= i < |f.tails| ==> r.0.tails[i] == f.tails[i].(watching := r.0.tails[i].watching)
    ensures Valid(f) ==> forall i :: 0 <= i < |f.tails| ==> !r.0.tails[i].watching
    ensures r.0.outTail.Some? <==> f.app.logging.showStdout
    ensures r.0.errTail.Some? <==> f.app.logging.showStderr
    ensures r.0.outTail.Some? ==> r.0.outTail.value >= |f.tails|
    ensures r.0.errTail.Some? ==> r.0.errTail.value >= |f.tails|
    ensures Valid(f) ==> Valid(r.0)
    ensures r.1 == MissingPathWarnings(f.app)
  {
    var closed := Unwatch(Unwatch(f.tails, f.outTail), f.errTail);
    var (outTail, withOut) := Open(closed, Stdout, f.app.pm2.output, f.app.logging.showStdout);
    var (errTail, withErr) := Open(withOut, Stderr, f.app.pm2.error, f.app.logging.showStderr);
    (FileRelay(f.app, outTail, errTail, withErr), MissingPathWarnings(f.app))
  }

  /** `_handleOffline`: both held handles are unwatched and dropped; safe
      when none is held. */
  function HandleOffline(f: FileRelay): (r: FileRelay)
    ensures r.app == f.app && r.outTail == None && r.errTail == None
    ensures |r.tails| == |f.tails|
    ensures forall i :: 0 <= i < |f.tails| ==> r.tails[i] == f.tails[i].(watching := r.tails[i].watching)
    ensures Valid(f) ==> Valid(r) && forall i :: 0 <= i < |r.tails| ==> !r.tails[i].watching
  {
    FileRelay(f.app, None, None, Unwatch(Unwatch(f.tails, f.outTail), f.errTail))
  }

  predicate IsLifecycle(event: Event, status: string)
  {
    event.eventType == ProcessEvent && event.data.status == Some(status)
  }

  /** `handleEvent`: a process coming online restarts the tails, an exiting
      one stops them; every other event changes nothing and logs nothing. */
  function HandleEvent(f: FileRelay, event: Event): (r: (FileRelay, seq<LogCall>))
    ensures r.0.app == f.app
    ensures IsLifecycle(event, Online) ==> r == HandleOnline(f)
    ensures IsLifecycle(event, Exit) ==> r == (HandleOffline(f), [])
    ensures !IsLifecycle(event, Online) && !IsLifecycle(event, Exit) ==> r == (f, [])
    ensures !IsLifecycle(event, Online) ==> r.1 == []
    ensures Valid(f) ==> Valid(r.0)
  {
    if event.eventType == ProcessEvent then
      if event.data.status == Some(Online) then HandleOnline(f)
      else if event.data.status == Some(Exit) then (HandleOffline(f), [])
      else (f, [])
    else (f, [])
  }

  /** After `online`, each shown stream has exactly one live tail and each
      hidden one none, however many times `online` arrived before. */
  lemma OnlineLeavesOneTailPerStream(f: FileRelay)
    requires Valid(f)
    ensures var g := HandleOnline(f).0;
      && |LiveTails(g, Stdout)| == (if f.app.logging.showStdout then 1 else 0)
      && |LiveTails(g, Stderr)| == (if f.app.logging.showStderr then 1 else 0)
  {
    LiveTailsOfValid(HandleOnline(f).0);
  }

  /** After `exit` no tail is live, and a second `exit` changes nothing. */
  lemma ExitStopsAllTails(f: FileRelay, event: Event)
    requires Valid(f)
    requires IsLifecycle(event, Exit)
    ensures var g := HandleEvent(f, event).0;
      && LiveTails(g, Stdout) == {} && LiveTails(g, Stderr) == {}
      && HandleEvent(g, event) == (g, [])
  {
  }

  /** `_handleTailOutput`: a stdout line is logged at info iff stdout is
      shown. */
  function HandleTailOutput(logging: LogOptions, data: string): (calls: seq<LogCall>)
    ensures calls != [] <==> logging.showStdout
    ensures calls != [] ==> calls == [LogCall(Info, data)]
  {
    if logging.showStdout then [LogCall(Info, data)] else []
  }

  /** `_handleTailError`: logged at error when it reports a tail failure,
      and otherwise iff stderr is shown. */
  function HandleTailError(logging: LogOptions, data: string, isTailError: bool): (calls: seq<LogCall>)
    ensures calls != [] <==> isTailError || logging.showStderr
    ensures calls != [] ==> calls == [LogCall(Error, data)]
  {
    if isTailError || logging.showStderr then [LogCall(Error, data)] else []
  }

  /** The callbacks wired to tail `handle`: a stdout tail's lines go to
      `_handleTailOutput`, a stderr tail's lines to `_handleTailError`, and
      either tail's failures to `_handleTailError` as a tail error. An
      unwatched handle reports nothing. */
  function Notify(f: FileRelay, handle: nat, event: TailEvent): (calls: seq<LogCall>)
    ensures |calls| <= 1
    ensures calls != [] <==>
      && handle < |f.tails| && f.tails[handle].watching
      && (|| event.TailFailure?
          || (f.tails[handle].stream == Stdout && f.app.logging.showStdout)
          || (f.tails[handle].stream == Stderr && f.app.logging.showStderr))
    ensures calls != [] ==> calls[0].message == event.text && calls[0].severity != Warn
    ensures calls != [] ==>
      (calls[0].severity == Info <==> event.TailLine? && f.tails[handle].stream == Stdout)
  {
    if handle >= |f.tails| || !f.tails[handle].watching then []
    else match event
      case TailFailure(data) => HandleTailError(f.app.logging, data, true)
      case TailLine(data) =>
        match f.tails[handle].stream
        case Stdout => HandleTailOutput(f.app.logging, data)
        case Stderr => HandleTailError(f.app.logging, data, false)
  }

  /** The line `line` appended to `path`, as reported by every tail from
      handle `k` on that polls `path`, in opening order. */
  function AppendFrom(f: FileRelay, path: string, line: string, k: nat): seq<LogCall>
    decreases |f.tails| - k
  {
    if k >= |f.tails| then []
    else
      (if f.tails[k].path == Some(path) then Notify(f, k, TailLine(line)) else [])
      + AppendFrom(f, path, line, k + 1)
  }

  lemma {:induction false} AppendFromHeld(f: FileRelay, path: string, line: string, k: nat)
    requires Valid(f)
    requires k <= |f.tails|
    ensures AppendFrom(f, path, line, k) ==
      (if f.outTail.Some? && f.outTail.value >= k && f.app.pm2.output == Some(path)
       then HandleTailOutput(f.app.logging, line) else [])
      + (if f.errTail.Some? && f.errTail.value >= k && f.app.pm2.error == Some(path)
         then HandleTailError(f.app.logging, line, false) else [])
    decreases |f.tails| - k
  {
    if k < |f.tails| {
      AppendFromHeld(f, path, line, k + 1);
    }
  }

  /** A line appended to a file reaches the logger once through each held
      handle polling that file, stdout first, and through no other handle. */
  function Append(f: FileRelay, path: string, line: string): (calls: seq<LogCall>)
    ensures Valid(f) ==>
      calls == (if f.outTail.Some? && f.app.pm2.output == Some(path)
                then HandleTailOutput(f.app.logging, line) else [])
             + (if f.errTail.Some? && f.app.pm2.error == Some(path)
                then HandleTailError(f.app.logging, line, false) else [])
  {
    // Both branches are the same expression; the test only brings the
    // lemma's precondition into scope for the proof.
    if Valid(f) then
      AppendFromHeld(f, path, line, 0);
      AppendFrom(f, path, line, 0)
    else AppendFrom(f, path, line, 0)
  }

  /** Once online, a line appended to the stdout file is logged exactly once
      at info, plus once at error if the stderr file is the same file; a
      stdout line never reaches the logger twice. */
  lemma AppendAfterOnline(f: FileRelay, path: string, line: string)
    requires Valid(f)
    ensures var g := HandleOnline(f).0;
      Append(g, path, line) ==
        (if f.app.logging.showStdout && f.app.pm2.output == Some(path) then [LogCall(Info, line)] else [])
        + (if f.app.logging.showStderr && f.app.pm2.error == Some(path) then [LogCall(Error, line)] else [])
  {
  }

  /** After `exit`, appended lines reach the logger no more. */
  lemma AppendAfterExit(f: FileRelay, path: string, line: string)
    requires Valid(f)
    ensures Append(HandleOffline(f), path, line) == []
  {
  }
}
