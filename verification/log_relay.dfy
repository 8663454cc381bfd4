/** What every relay shares: the per-application options it is built from,
    the logger trace it produces, the supervisor events it is handed, and
    the base relay's constructor and `handleEvent`. */
module LogRelay {
  import opened Wrappers

  /** The severities the relays log at. Debug messages are not modelled. */
  datatype Severity = Info | Warn | Error

  /** One call on the application's scoped logger. */
  datatype LogCall = LogCall(severity: Severity, message: string)

  datatype LogMode = TailLogFile | Bus

  /** The `logging` part of an application's options. */
  datatype LogOptions = LogOptions(
    mode: LogMode,
    showStdout: bool,
    showStderr: bool,
    logToLaunchpadDir: bool)

  /** The `pm2` part of an application's options: the process name and the
      log destinations; `outFile`/`errorFile` are pm2's older aliases. */
  datatype Pm2Options = Pm2Options(
    name: string,
    output: Option<string>,
    error: Option<string>,
    outFile: Option<string>,
    errorFile: Option<string>)

  datatype AppOptions = AppOptions(pm2: Pm2Options, logging: LogOptions)

  /** The payload of a supervisor event: the owning process's name, the
      lifecycle status (`event`) and the decoded log text (`data`). */
  datatype EventData = EventData(
    processName: Option<string>,
    status: Option<string>,
    payload: string)

  datatype Event = Event(eventType: string, data: EventData)

  /** Thrown by the base relay's `handleEvent`. */
  datatype RelayError = NotImplemented

  const DevNull: string := "/dev/null"
  const RotateWarning: string := "Launchpad is unable to rotate log files generated by pm2"
  const RotateHint: string :=
    "Set log mode to 'bus' and unset pm2 output/error properties to hide this warning."

  /** True when pm2 writes the stream to a file the relay cannot rotate:
      anything but the discard sentinel, including an unset path. */
  predicate Unrotated(path: Option<string>)
  {
    path != Some(DevNull)
  }

  /** The base relay's constructor, given the options its subclass has
      already normalised: copies `output`/`error` to pm2's older aliases and
      warns twice when either stream is kept in a pm2 log file. */
  function InitLogRelay(app: AppOptions): (r: (AppOptions, seq<LogCall>))
    ensures r.0.pm2.outFile == app.pm2.output && r.0.pm2.errorFile == app.pm2.error
    ensures r.0.pm2.output == app.pm2.output && r.0.pm2.error == app.pm2.error
    ensures r.0.pm2.name == app.pm2.name && r.0.logging == app.logging
    ensures r.1 != [] <==> Unrotated(app.pm2.output) || Unrotated(app.pm2.error)
    ensures r.1 != [] ==> r.1 == [LogCall(Warn, RotateWarning), LogCall(Warn, RotateHint)]
  {
    var pm2 := app.pm2.(outFile := app.pm2.output, errorFile := app.pm2.error);
    var warnings :=
      if Unrotated(pm2.output) || Unrotated(pm2.error) then
        [LogCall(Warn, RotateWarning), LogCall(Warn, RotateHint)]
      else [];
    (app.(pm2 := pm2), warnings)
  }

  /** The base relay's `handleEvent`, which every subclass must override:
      it throws whatever the event. */
  function BaseHandleEvent(app: AppOptions, event: Event): (r: Result<seq<LogCall>, RelayError>)
    ensures r == Failure(NotImplemented)
  {
    Failure(NotImplemented)
  }
}
