/** The router: a registry from application name to that application's
    relay, and the single entry point for every supervisor event. */
module AppLogRouter {
  import opened Wrappers
  import opened LogRelay
  import FileLogRelay
  import BusLogRelay

  /** A relay of either kind, or of the base kind, which only throws. */
  datatype Relay =
    | Base(app: AppOptions)
    | File(file: FileLogRelay.FileRelay)
    | BusKind(bus: BusLogRelay.BusRelay)
  {
    /** The normalised options the relay was built with. */
    function App(): AppOptions
    {
      match this
      case Base(app) => app
      case File(f) => f.app
      case BusKind(b) => b.app
    }
  }

  /** `handleEvent`, dispatched on the relay's kind. The base kind throws;
      a bus relay keeps no state, and a file relay keeps its invariant. */
  function HandleEvent(relay: Relay, event: Event): (r: Result<(Relay, seq<LogCall>), RelayError>)
    ensures r.Failure? <==> relay.Base?
    ensures r.Success? ==> r.value.0.App() == relay.App() && (r.value.0.File? <==> relay.File?)
    ensures relay.BusKind? ==> r == Success((relay, BusLogRelay.HandleEvent(relay.bus, event)))
    ensures relay.File? ==>
      r == Success((File(FileLogRelay.HandleEvent(relay.file, event).0), FileLogRelay.HandleEvent(relay.file, event).1))
    ensures relay.File? && FileLogRelay.Valid(relay.file) ==> FileLogRelay.Valid(r.value.0.file)
  {
    match relay
    case Base(app) =>
      var thrown := BaseHandleEvent(app, event);
      Failure(thrown.error)
    case File(f) =>
      var (g, calls) := FileLogRelay.HandleEvent(f, event);
      Success((File(g), calls))
    case BusKind(b) => Success((relay, BusLogRelay.HandleEvent(b, event)))
  }

  /** The registry, and the file relays it has replaced. The source drops a
      replaced relay from its map without unwatching its tails, so those
      tails keep polling and logging; `orphans` keeps them, in replacement
      order. */
  datatype Router = Router(relays: map<string, Relay>, orphans: seq<FileLogRelay.FileRelay>)

  const Empty: Router := Router(map[], [])

  /** A relay the router may hold under `name`: built for that name, of one
      of the two concrete kinds, and a file relay in its invariant. */
  predicate Registered(name: string, relay: Relay)
  {
    && relay.App().pm2.name == name
    && match relay
       case Base(_) => false
       case File(f) => FileLogRelay.Valid(f)
       case BusKind(_) => true
  }

  predicate Valid(router: Router)
  {
    && (forall name :: name in router.relays ==> Registered(name, router.relays[name]))
    && (forall i :: 0 <= i < |router.orphans| ==> FileLogRelay.Valid(router.orphans[i]))
  }

  /** The file relay `router` would orphan by registering `name` again. */
  function Replaced(router: Router, name: string): seq<FileLogRelay.FileRelay>
  {
    if name in router.relays && router.relays[name].File? then [router.relays[name].file] else []
  }

  /** `initAppOptions`: builds the relay the log mode asks for, under the
      application's name, replacing any relay registered before under that
      name; a replaced file relay becomes an orphan with its tails as they
      were. Also returns the options as the relay normalised them, which the
      source leaves in the caller's object, and the constructor's warnings. */
  function InitAppOptions(router: Router, app: AppOptions, logFilePath: string -> string)
    : (r: (Router, AppOptions, seq<LogCall>))
    ensures r.0.relays.Keys == router.relays.Keys + {app.pm2.name}
    ensures forall name :: name in router.relays && name != app.pm2.name ==>
      r.0.relays[name] == router.relays[name]
    ensures r.0.relays[app.pm2.name].File? <==> app.logging.mode == TailLogFile
    ensures r.0.relays[app.pm2.name].App() == r.1
    ensures r.1.pm2.name == app.pm2.name && r.1.logging == app.logging
    ensures Registered(app.pm2.name, r.0.relays[app.pm2.name])
    ensures r.0.relays[app.pm2.name].File? ==> r.0.relays[app.pm2.name].file.tails == []
    ensures app.logging.mode == TailLogFile ==>
      && r.0.relays[app.pm2.name] == File(FileLogRelay.Create(app, logFilePath).0)
      && r.2 == FileLogRelay.Create(app, logFilePath).1
    ensures app.logging.mode != TailLogFile ==>
      && r.0.relays[app.pm2.name] == BusKind(BusLogRelay.Create(app).0)
      && r.2 == BusLogRelay.Create(app).1
    ensures r.0.orphans == router.orphans + Replaced(router, app.pm2.name)
    ensures Valid(router) ==> Valid(r.0)
  {
    var name := app.pm2.name;
    var orphans := router.orphans + Replaced(router, name);
    if app.logging.mode == TailLogFile then
      var (relay, warnings) := FileLogRelay.Create(app, logFilePath);
      (Router(router.relays[name := File(relay)], orphans), relay.app, warnings)
    else
      var (relay, warnings) := BusLogRelay.Create(app);
      (Router(router.relays[name := BusKind(relay)], orphans), relay.app, warnings)
  }

  /** The name an event is routed by: its process name, unless absent or
      empty (both falsy in the source). */
  function RouteName(event: Event): (name: Option<string>)
    ensures name.Some? <==> event.data.processName.Some? && event.data.processName.value != ""
    ensures name.Some? ==> name == event.data.processName
  {
    if event.data.processName.Some? && event.data.processName.value != "" then event.data.processName
    else None
  }

  /** `_handleEvent`: an event without a usable process name, or naming no
      registered application, is dropped; otherwise the relay registered
      under that name handles it, and no other relay changes. */
  function Dispatch(router: Router, event: Event): (r: Result<(Router, seq<LogCall>), RelayError>)
    ensures RouteName(event).None? ==> r == Success((router, []))
    ensures RouteName(event).Some? && RouteName(event).value !in router.relays ==> r == Success((router, []))
    ensures r.Success? ==> r.value.0.relays.Keys == router.relays.Keys
    ensures r.Success? ==> forall name :: name in router.relays && Some(name) != RouteName(event) ==>
      r.value.0.relays[name] == router.relays[name]
    ensures r.Success? && r.value.1 != [] ==> RouteName(event).Some? && RouteName(event).value in router.relays
    ensures r.Failure? ==> RouteName(event).Some? && router.relays[RouteName(event).value].Base?
    ensures RouteName(event).Some? && RouteName(event).value in router.relays ==>
      var name := RouteName(event).value;
      var handled := HandleEvent(router.relays[name], event);
      && (r.Failure? <==> handled.Failure?)
      && (handled.Success? ==> r.value == (Router(router.relays[name := handled.value.0], router.orphans), handled.value.1))
    ensures r.Success? ==> r.value.0.orphans == router.orphans
    ensures Valid(router) ==> r.Success? && Valid(r.value.0)
  {
    match RouteName(event)
    case None => Success((router, []))
    case Some(name) =>
      if name !in router.relays then Success((router, []))
      else
        match HandleEvent(router.relays[name], event)
        case Failure(e) => Failure(e)
        case Success((relay, calls)) => Success((Router(router.relays[name := relay], router.orphans), calls))
  }

  /** What the router is asked to do: register an application, or handle a
      supervisor event. */
  datatype Op = Register(app: AppOptions) | Deliver(event: Event)

  /** A call on the logger scoped to application `app`. */
  datatype AppLogCall = AppLogCall(app: string, call: LogCall)

  /** `calls`, each attributed to the logger of `app`. */
  function Tag(app: string, calls: seq<LogCall>): (tagged: seq<AppLogCall>)
    ensures |tagged| == |calls|
    ensures forall i :: 0 <= i < |calls| ==> tagged[i] == AppLogCall(app, calls[i])
  {
    seq(|calls|, i requires 0 <= i < |calls| => AppLogCall(app, calls[i]))
  }

  /** Performs `ops` in order, collecting every logger call together with
      the application whose logger it is made on. */
  function Run(router: Router, ops: seq<Op>, logFilePath: string -> string)
    : Result<(Router, seq<AppLogCall>), RelayError>
    decreases |ops|
  {
    if ops == [] then Success((router, []))
    else
      var first: Result<(Router, seq<AppLogCall>), RelayError> :=
        match ops[0]
        case Register(app) =>
          var (next, _, warnings) := InitAppOptions(router, app, logFilePath);
          Success((next, Tag(app.pm2.name, warnings)))
        case Deliver(event) =>
          match Dispatch(router, event)
          case Failure(e) => Failure(e)
          case Success((next, calls)) =>
            Success((next, Tag(RouteName(event).GetOr(""), calls)));
      match first
      case Failure(e) => Failure(e)
      case Success((next, calls)) =>
        match Run(next, ops[1..], logFilePath)
        case Failure(e) => Failure(e)
        case Success((last, more)) => Success((last, calls + more))
  }

  /** The empty registry is valid. */
  lemma EmptyValid()
    ensures Valid(Empty)
  {
  }

  /** From any valid registry, the empty one included, no sequence of registrations and events makes
      the router throw, and every file relay keeps its invariant: at most one
      live tail per stream. */
  lemma {:induction false} RunNeverFails(router: Router, ops: seq<Op>, logFilePath: string -> string)
    requires Valid(router)
    ensures Run(router, ops, logFilePath).Success?
    ensures Valid(Run(router, ops, logFilePath).value.0)
    decreases |ops|
  {
    if ops != [] {
      match ops[0]
      case Register(app) =>
        RunNeverFails(InitAppOptions(router, app, logFilePath).0, ops[1..], logFilePath);
      case Deliver(event) =>
        RunNeverFails(Dispatch(router, event).value.0, ops[1..], logFilePath);
    }
  }

  /** Every file relay in a valid router has at most one live tail per
      stream. */
  lemma OneLiveTailPerStream(router: Router, name: string)
    requires Valid(router)
    requires name in router.relays && router.relays[name].File?
    ensures |FileLogRelay.LiveTails(router.relays[name].file, FileLogRelay.Stdout)| <= 1
    ensures |FileLogRelay.LiveTails(router.relays[name].file, FileLogRelay.Stderr)| <= 1
  {
    FileLogRelay.LiveTailsOfValid(router.relays[name].file);
  }

  function Lifecycle(name: string, status: string): Event
  {
    Event(FileLogRelay.ProcessEvent, EventData(Some(name), Some(status), ""))
  }

  /** What the tails of `orphans` report on the logger of `name` when
      `line` is appended to `path`, in replacement order. */
  function OrphanAppend(orphans: seq<FileLogRelay.FileRelay>, name: string, path: string, line: string): seq<LogCall>
  {
    if orphans == [] then []
    else
      (if orphans[0].app.pm2.name == name then FileLogRelay.Append(orphans[0], path, line) else [])
      + OrphanAppend(orphans[1..], name, path, line)
  }

  lemma {:induction false} OrphanAppendConcat(a: seq<FileLogRelay.FileRelay>, b: seq<FileLogRelay.FileRelay>, name: string, path: string, line: string)
    ensures OrphanAppend(a + b, name, path, line) == OrphanAppend(a, name, path, line) + OrphanAppend(b, name, path, line)
  {
    if a == [] {
      assert a + b == b;
    } else {
      assert (a + b)[1..] == a[1..] + b;
      OrphanAppendConcat(a[1..], b, name, path, line);
    }
  }

  lemma {:induction false} OrphanAppendOthers(orphans: seq<FileLogRelay.FileRelay>, name: string, path: string, line: string)
    requires forall i :: 0 <= i < |orphans| ==> orphans[i].app.pm2.name != name
    ensures OrphanAppend(orphans, name, path, line) == []
  {
    if orphans != [] {
      OrphanAppendOthers(orphans[1..], name, path, line);
    }
  }

  /** The calls made on the logger of `name` when `line` is appended to
      `path`: first through the tails of the relays replaced under that name,
      then through the tails of the relay registered now. */
  function AppendFor(router: Router, name: string, path: string, line: string): seq<LogCall>
  {
    OrphanAppend(router.orphans, name, path, line)
    + (if name in router.relays && router.relays[name].File?
       then FileLogRelay.Append(router.relays[name].file, path, line) else [])
  }

  /** Registers `app` and reports its process online. */
  function RegisterOnline(router: Router, app: AppOptions, logFilePath: string -> string): Router
  {
    var registered := InitAppOptions(router, app, logFilePath).0;
    match Dispatch(registered, Lifecycle(app.pm2.name, FileLogRelay.Online))
    case Success((next, _)) => next
    case Failure(_) => registered
  }

  /** What one online tail-mode relay for `app` logs when `line` is appended
      to `path`: info if it is the stdout file and stdout is shown, error if
      it is the stderr file and stderr is shown. */
  function TailCalls(app: AppOptions, logFilePath: string -> string, path: string, line: string): seq<LogCall>
  {
    var opts := FileLogRelay.Create(app, logFilePath).0.app;
    (if opts.logging.showStdout && opts.pm2.output == Some(path) then [LogCall(Info, line)] else [])
    + (if opts.logging.showStderr && opts.pm2.error == Some(path) then [LogCall(Error, line)] else [])
  }

  /** Registering a tail-mode application and reporting it online leaves
      its new relay's tails logging as `TailCalls` says, and orphans the
      relay it replaced, if any. */
  lemma RegisterOnlineTails(router: Router, app: AppOptions, logFilePath: string -> string, path: string, line: string)
    requires Valid(router)
    requires app.logging.mode == TailLogFile
    requires app.pm2.name != ""
    ensures var name := app.pm2.name;
      var online := RegisterOnline(router, app, logFilePath);
      && Valid(online)
      && online.orphans == router.orphans + Replaced(router, name)
      && name in online.relays && online.relays[name].File?
      && online.relays[name].file.app.pm2.name == name
      && FileLogRelay.Append(online.relays[name].file, path, line) == TailCalls(app, logFilePath, path, line)
  {
    var name := app.pm2.name;
    var registered := InitAppOptions(router, app, logFilePath).0;
    FileLogRelay.AppendAfterOnline(registered.relays[name].file, path, line);
  }

  /** After `exit`, only the orphans of `name` still log its lines. */
  lemma ExitLeavesOrphans(router: Router, name: string, path: string, line: string)
    requires Valid(router)
    requires name != ""
    requires name in router.relays && router.relays[name].File?
    ensures var exited := Dispatch(router, Lifecycle(name, FileLogRelay.Exit));
      && exited.Success?
      && AppendFor(exited.value.0, name, path, line) == OrphanAppend(router.orphans, name, path, line)
  {
    FileLogRelay.AppendAfterExit(router.relays[name].file, path, line);
  }

  /** A tail-mode application registered for the first time, once online,
      has each line appended to its stdout file logged once at info when
      stdout is shown (and once at error when its stderr file is the same
      file and stderr is shown); after it exits, appended lines are logged
      no more. */
  lemma TailEndToEnd(router: Router, app: AppOptions, logFilePath: string -> string, path: string, line: string)
    requires Valid(router)
    requires app.logging.mode == TailLogFile
    requires app.pm2.name != ""
    requires app.pm2.name !in router.relays
    requires forall i :: 0 <= i < |router.orphans| ==> router.orphans[i].app.pm2.name != app.pm2.name
    ensures var name := app.pm2.name;
      var online := RegisterOnline(router, app, logFilePath);
      && AppendFor(online, name, path, line) == TailCalls(app, logFilePath, path, line)
      && var exited := Dispatch(online, Lifecycle(name, FileLogRelay.Exit));
         && exited.Success?
         && AppendFor(exited.value.0, name, path, line) == []
  {
    var name := app.pm2.name;
    RegisterOnlineTails(router, app, logFilePath, path, line);
    var online := RegisterOnline(router, app, logFilePath);
    assert online.orphans == router.orphans;
    OrphanAppendOthers(router.orphans, name, path, line);
    ExitLeavesOrphans(online, name, path, line);
  }

  /** Registering a tail-mode application again while it is online leaves
      the first relay's tails watching: once the new relay is online too, a
      line appended to its file is logged twice, and after `exit` it is
      still logged once, through the replaced relay's tail. */
  lemma ReRegistrationLogsTwice(router: Router, app: AppOptions, logFilePath: string -> string, path: string, line: string)
    requires Valid(router)
    requires app.logging.mode == TailLogFile
    requires app.pm2.name != ""
    requires app.pm2.name !in router.relays
    requires forall i :: 0 <= i < |router.orphans| ==> router.orphans[i].app.pm2.name != app.pm2.name
    ensures var name := app.pm2.name;
      var twice := RegisterOnline(RegisterOnline(router, app, logFilePath), app, logFilePath);
      var single := TailCalls(app, logFilePath, path, line);
      && AppendFor(twice, name, path, line) == single + single
      && var exited := Dispatch(twice, Lifecycle(name, FileLogRelay.Exit));
         && exited.Success?
         && AppendFor(exited.value.0, name, path, line) == single
  {
    var name := app.pm2.name;
    var single := TailCalls(app, logFilePath, path, line);
    RegisterOnlineTails(router, app, logFilePath, path, line);
    var once := RegisterOnline(router, app, logFilePath);
    var first := once.relays[name].file;
    assert Replaced(once, name) == [first];
    RegisterOnlineTails(once, app, logFilePath, path, line);
    var twice := RegisterOnline(once, app, logFilePath);
    assert twice.orphans == router.orphans + [first];
    OrphanAppendOthers(router.orphans, name, path, line);
    OrphanAppendConcat(router.orphans, [first], name, path, line);
    assert OrphanAppend([first], name, path, line) == single + OrphanAppend([], name, path, line);
    assert OrphanAppend(twice.orphans, name, path, line) == single;
    ExitLeavesOrphans(twice, name, path, line);
  }
}
