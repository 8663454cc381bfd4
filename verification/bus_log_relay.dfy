/** The bus relay: pm2 hands it each chunk of an application's output on
    the bus, and it frames the chunk into lines and logs them. It keeps no
    state across events. */
module BusLogRelay {
  import opened Wrappers
  import opened LogRelay
  import LineFramer

  datatype BusRelay = BusRelay(app: AppOptions)

  const LogOut: string := "log:out"
  const LogErr: string := "log:err"

  /** The constructor: an unset `output`/`error` is sent to the discard
      sentinel so that pm2 writes no log file of its own; a set one is kept.
      The base constructor then runs on the result. */
  function Create(app: AppOptions): (r: (BusRelay, seq<LogCall>))
    ensures app.pm2.output.None? ==> r.0.app.pm2.output == Some(DevNull)
    ensures app.pm2.error.None? ==> r.0.app.pm2.error == Some(DevNull)
    ensures app.pm2.output.Some? ==> r.0.app.pm2.output == app.pm2.output
    ensures app.pm2.error.Some? ==> r.0.app.pm2.error == app.pm2.error
    ensures r.0.app.pm2.outFile == r.0.app.pm2.output
    ensures r.0.app.pm2.errorFile == r.0.app.pm2.error
    ensures r.0.app.pm2.name == app.pm2.name && r.0.app.logging == app.logging
    ensures r.1 == [] <==>
      && app.pm2.output in {None, Some(DevNull)}
      && app.pm2.error in {None, Some(DevNull)}
    ensures r.1 != [] ==> r.1 == [LogCall(Warn, RotateWarning), LogCall(Warn, RotateHint)]
  {
    var defaulted := app.(pm2 := app.pm2.(
      output := Some(app.pm2.output.GetOr(DevNull)),
      error := Some(app.pm2.error.GetOr(DevNull))));
    var (normalised, warnings) := InitLogRelay(defaulted);
    (BusRelay(normalised), warnings)
  }

  /** Constructing a bus relay from options it has already normalised
      changes nothing and warns no more than the first time. */
  lemma CreateIdempotent(app: AppOptions)
    ensures var first := Create(app);
      var second := Create(first.0.app);
      second.0 == first.0 && second.1 == first.1
  {
  }

  /** One logger call of severity `severity` per line, in order. */
  function Emit(severity: Severity, lines: seq<string>): (calls: seq<LogCall>)
    ensures |calls| == |lines|
    ensures forall i :: 0 <= i < |lines| ==> calls[i] == LogCall(severity, lines[i])
  {
    seq(|lines|, i requires 0 <= i < |lines| => LogCall(severity, lines[i]))
  }

  /** `_handleBusLogOut`: every framed line at info, if stdout is shown. */
  function HandleLogOut(relay: BusRelay, payload: string): (calls: seq<LogCall>)
    ensures relay.app.logging.showStdout ==>
      |calls| == LineFramer.Count(payload, '\n') &&
      forall i :: 0 <= i < |calls| ==> calls[i] == LogCall(Info, LineFramer.SplitLines(payload)[i])
    ensures !relay.app.logging.showStdout ==> calls == []
  {
    if relay.app.logging.showStdout then Emit(Info, LineFramer.SplitLines(payload)) else []
  }

  /** `_handleBusLogErr`: every framed line at error, if stderr is shown. */
  function HandleLogErr(relay: BusRelay, payload: string): (calls: seq<LogCall>)
    ensures relay.app.logging.showStderr ==>
      |calls| == LineFramer.Count(payload, '\n') &&
      forall i :: 0 <= i < |calls| ==> calls[i] == LogCall(Error, LineFramer.SplitLines(payload)[i])
    ensures !relay.app.logging.showStderr ==> calls == []
  {
    if relay.app.logging.showStderr then Emit(Error, LineFramer.SplitLines(payload)) else []
  }

  /** `handleEvent`: `log:out` and `log:err` are logged; every other event
      type, lifecycle events included, is ignored. */
  function HandleEvent(relay: BusRelay, event: Event): (calls: seq<LogCall>)
    ensures event.eventType !in {LogOut, LogErr} ==> calls == []
    ensures event.eventType == LogOut ==> calls == HandleLogOut(relay, event.data.payload)
    ensures event.eventType == LogErr ==> calls == HandleLogErr(relay, event.data.payload)
    ensures forall i :: 0 <= i < |calls| ==>
      && calls[i].severity == (if event.eventType == LogOut then Info else Error)
      && '\n' !in calls[i].message
    ensures event.eventType == LogOut ==>
      (calls != [] <==> relay.app.logging.showStdout && '\n' in event.data.payload)
    ensures event.eventType == LogErr ==>
      (calls != [] <==> relay.app.logging.showStderr && '\n' in event.data.payload)
  {
    CountPositive(event.data.payload);
    if event.eventType == LogOut then HandleLogOut(relay, event.data.payload)
    else if event.eventType == LogErr then HandleLogErr(relay, event.data.payload)
    else []
  }

  lemma {:induction false} CountPositive(s: string)
    ensures LineFramer.Count(s, '\n') > 0 <==> '\n' in s
  {
    if s != [] {
      CountPositive(s[1..]);
      assert s == [s[0]] + s[1..];
    }
  }

  /** The shown lines of an application reach the logger exactly as it
      wrote them: for lines without a newline written one per line, with
      "\n" or with "\r\n", the logger receives exactly those lines. */
  lemma LogOutDeliversLines(relay: BusRelay, lines: seq<string>, crlf: bool)
    requires relay.app.logging.showStdout
    requires LineFramer.NoNewlines(lines)
    requires !crlf ==> forall i :: 0 <= i < |lines| ==> LineFramer.StripCR(lines[i]) == lines[i]
    ensures var payload := if crlf then LineFramer.JoinCRLF(lines) else LineFramer.JoinLines(lines);
      HandleLogOut(relay, payload) == Emit(Info, lines)
  {
    if crlf {
      LineFramer.SplitLinesRoundTripCRLF(lines);
    } else {
      LineFramer.SplitLinesRoundTrip(lines);
    }
  }

  /** Two payloads batched into one bus event are logged exactly as if they
      had arrived as two events, provided the first ends in a newline. */
  lemma BatchedPayloads(relay: BusRelay, eventType: string, data: EventData, first: string, second: string)
    requires first == [] || first[|first| - 1] == '\n'
    ensures HandleEvent(relay, Event(eventType, data.(payload := first + second)))
         == HandleEvent(relay, Event(eventType, data.(payload := first)))
          + HandleEvent(relay, Event(eventType, data.(payload := second)))
  {
    LineFramer.SplitLinesConcat(first, second);
  }

  /** An unterminated fragment at the end of a payload is never logged. */
  lemma UnterminatedFragmentDropped(relay: BusRelay, eventType: string, data: EventData, fragment: string)
    requires '\n' !in fragment
    ensures HandleEvent(relay, Event(eventType, data.(payload := data.payload + fragment)))
         == HandleEvent(relay, Event(eventType, data))
  {
    LineFramer.SplitLinesDropsRemainder(data.payload, fragment);
  }
}
