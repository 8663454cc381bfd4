# Per-application log router of the launchpad monitor, in Dafny

This project models `AppLogRouter` from the launchpad monitor package. The
router sits between pm2, which runs the managed applications, and
launchpad's logging. Every application registers a relay chosen by its log
mode:

- a **file relay** (`TailLogFile` mode) lets pm2 write stdout/stderr to files
  and tails those files. It opens one tail per shown stream when the
  process comes `online` and closes the tails when it exits;
- a **bus relay** (any other mode) receives pm2's `log:out` / `log:err` bus
  payloads. It splits each payload into lines and logs them.

Both relays normalise the application's pm2 `output`/`error` paths when
they are constructed. Both warn when pm2 would keep a log file that launchpad
cannot rotate. The router sends every supervisor event to the relay
registered under the event's process name, or drops it.

The model is functional. Each relay is an immutable value, and each
operation is a pure function returning the next state and the trace of
logger calls it makes, as `LogCall(severity, message)` values. A tail
handle is abstract: a stream, a path and a watched/unwatched flag. The file
relay keeps every handle it has ever opened, so the model can state that
its old handles were unwatched and not just forgotten. Registering a name
again does not unwatch the replaced relay's handles, which go on polling
and logging; the router keeps such replaced file relays as orphans, and a
line appended to a file reaches the logger through their handles as well
(`AppLogRouter.AppendFor`).

Modules, one per class of the source file plus the framer and the wrappers:

| file | module | models |
|---|---|---|
| `wrappers.dfy` | `Wrappers` | `Option` (`null`/`undefined`) and `Result` (throws) |
| `line_framer.dfy` | `LineFramer` | `_splitLines` and a reference framing it agrees with |
| `log_relay.dfy` | `LogRelay` | shared options, events and logger calls; the base `LogRelay` constructor and `handleEvent` |
| `bus_log_relay.dfy` | `BusLogRelay` | `BusLogRelay` |
| `file_log_relay.dfy` | `FileLogRelay` | `FileLogRelay`, its tail handles and the tail callbacks |
| `app_log_router.dfy` | `AppLogRouter` | the relay kinds, `initAppOptions`, `_handleEvent`, runs of operations |

## Model

| member | source | states |
|---|---|---|
| `LineFramer.Split` | packages/monitor/lib/app-log-router.js:224 | splitting on an optional `\r` then `\n` gives one part more than there are newlines, and no part contains a newline |
| `LineFramer.SplitLines` | packages/monitor/lib/app-log-router.js:223-227 | `_splitLines` returns exactly one line per `\n` in the buffer, and no line contains `\n` |
| `LineFramer.Terminated` | packages/monitor/lib/app-log-router.js:223-227 | reference framing: every buffer is its newline-terminated lines, joined back with `\n`, followed by an unterminated remainder; the lines contain no `\n`, and no `\r` when the buffer has none |
| `LineFramer.SplitLinesFramed` | packages/monitor/lib/app-log-router.js:223-227 | on newline-terminated lines plus a remainder, `_splitLines` returns those lines in order, each with one trailing `\r` removed, and drops the remainder |
| `LineFramer.SplitLinesSpec` | packages/monitor/lib/app-log-router.js:223-227 | on every buffer, `_splitLines` equals the reference framing's lines with one trailing `\r` removed from each |
| `LineFramer.SplitLinesDropsRemainder` | packages/monitor/lib/app-log-router.js:225 | text after the last newline never changes the result: the last fragment is dropped unconditionally |
| `LineFramer.SplitLinesConcat` | packages/monitor/lib/app-log-router.js:223-227 | a buffer ending in `\n` frames independently of what follows it |
| `LineFramer.SplitLinesRoundTrip` | packages/monitor/lib/app-log-router.js:223-227 | lines with no `\n` and no trailing `\r`, each terminated by `\n`, come back unchanged |
| `LineFramer.SplitLinesRoundTripCRLF` | packages/monitor/lib/app-log-router.js:223-227 | any lines with no `\n`, each terminated by `\r\n`, come back unchanged |
| `LineFramer.JoinSplitLines` | packages/monitor/lib/app-log-router.js:223-227 | a `\r`-free buffer ending in `\n` is rebuilt by terminating each framed line with `\n` |
| `LogRelay.InitLogRelay` | packages/monitor/lib/app-log-router.js:32-54 | `out_file`/`error_file` become `output`/`error`, nothing else changes, and the two rotation warnings are logged iff `output` or `error` is not `/dev/null` (unset counts as not) |
| `BusLogRelay.Create` | packages/monitor/lib/app-log-router.js:193-199 | unset `output`/`error` become `/dev/null`, set ones are kept, the aliases equal them, and there is no warning iff each path was unset or `/dev/null`; any warnings are exactly the base constructor's two rotation warnings, in order |
| `BusLogRelay.CreateIdempotent` | packages/monitor/lib/app-log-router.js:193-199 | building a bus relay from its own normalised options changes nothing |
| `BusLogRelay.HandleLogOut` | packages/monitor/lib/app-log-router.js:233-239 | if stdout is shown, one `info` call per framed line, in order, carrying that line; otherwise no call |
| `BusLogRelay.HandleLogErr` | packages/monitor/lib/app-log-router.js:245-251 | if stderr is shown, one `error` call per framed line, in order, carrying that line; otherwise no call |
| `BusLogRelay.HandleEvent` | packages/monitor/lib/app-log-router.js:205-216 | event types other than `log:out`/`log:err` log nothing; `log:out` logs only at `info` and `log:err` only at `error`; there are calls iff the stream is shown and the payload holds a newline |
| `BusLogRelay.LogOutDeliversLines` | packages/monitor/lib/app-log-router.js:223-239 | an application's lines written with `\n` or `\r\n` reach the logger as exactly those lines |
| `BusLogRelay.BatchedPayloads` | packages/monitor/lib/app-log-router.js:205-251 | two payloads batched into one event are logged as if they had arrived separately, when the first ends in `\n` |
| `BusLogRelay.UnterminatedFragmentDropped` | packages/monitor/lib/app-log-router.js:225 | an unterminated fragment at the end of a payload is never logged |
| `FileLogRelay.Create` | packages/monitor/lib/app-log-router.js:83-98 | with `logToLaunchpadDir`, only unset paths are filled from the log directory; without it, both are forced unset. The aliases equal the paths and no tail is open. Without `logToLaunchpadDir` the rotation warnings are always logged; any warnings are exactly the base constructor's two rotation warnings, in order |
| `FileLogRelay.CreateIdempotent` | packages/monitor/lib/app-log-router.js:83-98 | building a file relay from its own normalised options changes nothing |
| `FileLogRelay.LiveTailsOfValid` | packages/monitor/lib/app-log-router.js:66-77 | in a valid relay, the live handles of each stream are exactly the one held in `_outTail`/`_errTail`, so there is at most one |
| `FileLogRelay.MissingPathWarnings` | packages/monitor/lib/app-log-router.js:133-142 | one warning per missing destination, where missing means unset or empty: the `output` warning is logged iff `output` is missing, and then first, and the `error` warning iff `error` is missing, and then last |
| `FileLogRelay.HandleOnline` | packages/monitor/lib/app-log-router.js:116-159 | every earlier handle is unwatched. A new tail is opened for a stream iff it is shown, even on a missing path. Earlier handles keep their stream and path, and the invariant is preserved |
| `FileLogRelay.HandleOffline` | packages/monitor/lib/app-log-router.js:162-171 | both held handles are dropped and no handle stays watched; earlier handles keep their stream and path |
| `FileLogRelay.HandleEvent` | packages/monitor/lib/app-log-router.js:104-113 | `process:event` `online` restarts the tails, `exit` stops them; every other event changes nothing and logs nothing; the invariant is preserved |
| `FileLogRelay.OnlineLeavesOneTailPerStream` | packages/monitor/lib/app-log-router.js:124-158 | after `online`, however often repeated, each shown stream has exactly one live tail and each hidden one none |
| `FileLogRelay.ExitStopsAllTails` | packages/monitor/lib/app-log-router.js:162-171 | after `exit` no tail is live, and a second `exit` changes nothing and logs nothing |
| `FileLogRelay.HandleTailOutput` | packages/monitor/lib/app-log-router.js:174-178 | a stdout line is logged at `info` iff stdout is shown |
| `FileLogRelay.HandleTailError` | packages/monitor/lib/app-log-router.js:181-185 | logged at `error` iff it is a tail failure or stderr is shown |
| `FileLogRelay.Notify` | packages/monitor/lib/app-log-router.js:146-157 | a live handle logs at most one call with the reported text. A failure on either stream is always logged at `error`. A line is logged iff its stream is shown, at `info` exactly for stdout lines. An unwatched handle logs nothing |
| `FileLogRelay.Append` | packages/monitor/lib/app-log-router.js:146-157 | a line appended to a file is logged once through each held handle polling that file, and through no other handle (the stdout handle's call is listed first, an order the model fixes) |
| `FileLogRelay.AppendAfterOnline` | packages/monitor/lib/app-log-router.js:116-159 | after `online`, a line appended to the stdout file is logged exactly once at `info` when stdout is shown, never twice |
| `FileLogRelay.AppendAfterExit` | packages/monitor/lib/app-log-router.js:162-171 | after `exit`, appended lines are not logged |
| `LogRelay.BaseHandleEvent` | packages/monitor/lib/app-log-router.js:60-63 | the base relay's `handleEvent` throws on every event |
| `AppLogRouter.HandleEvent` | packages/monitor/lib/app-log-router.js:316-318 | the call `?.handleEvent` makes on the relay found: it throws exactly for the base kind, a bus relay keeps no state and logs what `BusLogRelay.HandleEvent` logs, and a file relay becomes what `FileLogRelay.HandleEvent` returns and keeps its invariant |
| `AppLogRouter.InitAppOptions` | packages/monitor/lib/app-log-router.js:279-293 | registers, under the app's name, the file relay `FileLogRelay.Create` builds iff the mode is `TailLogFile`, else the bus relay `BusLogRelay.Create` builds, and logs that constructor's warnings. It replaces any earlier entry with a relay holding no tail, leaves other entries unchanged, and a replaced file relay joins the orphans with its tails untouched |
| `AppLogRouter.RouteName` | packages/monitor/lib/app-log-router.js:315 | an event is routable iff its process name is present and non-empty |
| `AppLogRouter.Dispatch` | packages/monitor/lib/app-log-router.js:314-319 | an unroutable or unregistered event changes nothing and logs nothing; otherwise the named relay handles it: the router throws iff that relay does, and else stores the relay it returns under the name and logs its calls. No other entry and no orphan changes; a valid router never throws and stays valid |
| `AppLogRouter.RunNeverFails` | packages/monitor/lib/app-log-router.js:279-319 | from a valid registry, no sequence of registrations and events throws, and the invariant holds throughout |
| `AppLogRouter.OneLiveTailPerStream` | packages/monitor/lib/app-log-router.js:116-171 | every file relay in a valid router has at most one live tail per stream |
| `AppLogRouter.RegisterOnlineTails` | packages/monitor/lib/app-log-router.js:279-293 | registering a tail-mode app and sending `online` leaves one relay under its name whose tails log an appended line once per shown stream polling that file, and orphans exactly the file relay it replaced |
| `AppLogRouter.ExitLeavesOrphans` | packages/monitor/lib/app-log-router.js:162-171 | after `exit` is routed to a file relay, an appended line reaches the app's logger only through the orphans' tails |
| `AppLogRouter.TailEndToEnd` | packages/monitor/lib/app-log-router.js:116-185 | register a tail-mode app under a new name, send `online`, append a line: it is logged once at `info` when it is the shown stdout file (and once at `error` when it is also the shown stderr file). After `exit`, it is no longer logged |
| `AppLogRouter.ReRegistrationLogsTwice` | packages/monitor/lib/app-log-router.js:286-288 | registering an online tail-mode app a second time and sending `online` again makes every appended line logged twice; after `exit` it is still logged once, through the replaced relay's tail |

## Behaviour worth noting

- A missing `output`/`error` path only produces a warning. The tail for a
  shown stream is still opened, on the missing path
  (`FileLogRelay.HandleOnline`).
- The file relay fixes its paths when it is constructed, and `online`
  uses them unchanged.
- An unterminated fragment at the end of a bus payload is dropped
  (`BusLogRelay.UnterminatedFragmentDropped`).
- The file relay without `logToLaunchpadDir` forces both paths unset. So
  it always logs the rotation warnings, and on `online` it always logs both
  missing-path warnings.
- Registering a name a second time replaces the earlier relay in the map
  but does not unwatch its live tails, so lines appended to the file are
  then logged once per registration
  (`AppLogRouter.ReRegistrationLogsTwice`).
- The router drops an event whose process name is empty, as it does for an
  absent one, because the source tests the name for truthiness. An
  application registered under the empty name never receives an event.
- `initAppOptions` returns nothing and normalises the caller's options
  object in place, although its doc comment announces a return value. The
  model returns the normalised options instead.

## Left out

- Debug logging (`logger.debug`, lines 33-34, 145, 153): the messages are
  not part of the trace, because their text carries no behaviour.
- The `tail` package (`new Tail`, `.watch()`, `.unwatch()`, polling with a
  100 ms interval): a handle is an abstract value with a watched flag.
  `FileLogRelay.Notify` assumes, as the package does, that an unwatched
  handle reports nothing. `FileLogRelay.Append` stands for the package
  delivering one appended line to every handle polling that file. Two
  behaviours of the package are assumed rather than modelled:
  - opening a tail always succeeds (`FileLogRelay.Open`), even on a path
    that is unset or empty, which lines 146 and 154 pass to `new Tail`
    when that stream is shown (lines 144 and 152), as they do for both
    shown streams without `logToLaunchpadDir`, since lines 93-94 clear
    both paths; a hidden stream gets only the warning of lines 133-142. Whether that
    constructor throws is decided by the package, not by this file;
  - the handles polling one file report an appended line in a fixed order:
    stdout before stderr (`FileLogRelay.Append`) and replaced relays before
    the current one (`AppLogRouter.AppendFor`). Each handle polls on its own
    timer, so the source fixes no order between them; only the multiset of
    calls is meaningful.
- AppLogRouter.RunNeverFails: holds only under the assumption above that
  opening a tail never throws; the same assumption underlies
  `AppLogRouter.Dispatch`'s promise that a valid router never throws.
- `connectToBus` / `disconnectFromBus` and the pm2/axon bus: subscription
  plumbing with no logic. `AppLogRouter.Dispatch` is what the subscription
  calls.
- `LogManager.getInstance().getFilePath`, `getLogger` and `path.resolve`:
  foreign singletons. The log-directory path is the parameter
  `logFilePath`. The scoped logger is the trace returned with each
  operation.
- `Buffer.toString()` decoding of `event.data`: the payload is an
  already-decoded string. A `log:out`/`log:err` event without `data`,
  which makes the source throw when that stream is shown (lines 234 and
  246), is not modelled.
- `autoBind` and the constructor of `AppLogRouter`: no behaviour beyond
  binding `this` and storing the parent logger.
- Mutation of the options object by other code after a relay is built:
  each relay keeps the normalised options it computed.
