/** The stream-tracking state of the Cloud Foundry console tailing job, as values.

    The job keeps a table from console output streams to error counts (or no
    table at all, Java's `null`) and a `tailing` flag. Streams are opaque
    identifiers; closing one is recorded by adding it to a set of closed
    streams. Every stream the console creates is a new object, which is
    modelled by handing out identifiers from a counter. The host's
    `schedule(delay)` calls are recorded in a log of requested delays.

    The functions Stop, Start and Run give the new state for `stopTailing`,
    `startTailing` and one call of `run`; the class in module Console is
    proved to implement them. */
module ConsoleSpec {

  datatype Option<T> = None | Some(value: T)

  /** An output stream of the console, identified by when it was created. */
  datatype StreamId = StreamId(n: nat)

  /** How one `write` of a stream ended in a polling round: normally, with a
      CoreException whose cause is not an IOException, or with one whose
      cause is an IOException. */
  datatype WriteOutcome = Written | Failed | FailedIO

  /** What the console produced for one content item in `startTailing`:
      `newOutputStream` gave null; the content gave a null output stream for
      the new console stream; or the content wrapped it in an output stream. */
  datatype ContentStream = ConsoleStreamNull | OutputStreamNull | OutputStreamCreated

  /** The application a console belongs to: its name and its URIs (`None`
      when `getUris()` is null). */
  datatype CloudApplication = CloudApplication(name: string, uris: Option<seq<string>>)

  /** The state of the job: `active` is the field activeStreams, `closed` the
      streams closed so far, `next` the first identifier not yet handed out,
      `requests` the delays of every `schedule` call so far. */
  datatype Tailer = Tailer(
    active: Option<map<StreamId, nat>>,
    tailing: bool,
    closed: set<StreamId>,
    next: nat,
    requests: seq<nat>)

  /** A stream is dropped once its error count exceeds this. */
  const MaxErrors: nat := 5

  /** The delay between two polling rounds, in milliseconds. */
  const SampleInterval: nat := 5000

  /** The delay of `schedule()` without an argument. */
  const NoDelay: nat := 0

  /** The job's state right after construction: no table, `tailing` already true. */
  const Initial: Tailer := Tailer(None, true, {}, 0, [])

  /** The name of the console (and of the job) for an application. */
  function ConsoleName(app: CloudApplication): (name: string)
    ensures app.uris.Some? && |app.uris.value| > 0 ==> name == app.uris.value[0]
    ensures app.uris.None? || app.uris.value == [] ==> name == app.name
  {
    if app.uris.Some? && |app.uris.value| > 0 then app.uris.value[0] else app.name
  }

  /** The streams in a table, none when there is no table. */
  function Streams(active: Option<map<StreamId, nat>>): set<StreamId>
  {
    if active.Some? then active.value.Keys else {}
  }

  /** The state invariant: every stream in the table was handed out, is still
      open and is within its error budget, and every closed stream was handed out. */
  predicate Valid(t: Tailer)
  {
    && (forall s :: s in Streams(t.active) ==> s.n < t.next && s !in t.closed)
    && (t.active.Some? ==> forall s :: s in t.active.value ==> t.active.value[s] <= MaxErrors)
    && (forall s :: s in t.closed ==> s.n < t.next)
  }

  // ---------------------------------------------------------------- stopTailing

  /** `stopTailing`: clear the flag, close every stream of the table, drop the table. */
  function Stop(t: Tailer): Tailer
  {
    t.(tailing := false, active := None, closed := t.closed + Streams(t.active))
  }

  // --------------------------------------------------------------- startTailing

  /** The part of the state the loop of `startTailing` changes: the new
      table, the closed streams and the next free identifier. */
  datatype Opened = Opened(table: map<StreamId, nat>, closed: set<StreamId>, next: nat)

  /** The number of content items that produced `kind`. */
  function Count(items: seq<ContentStream>, kind: ContentStream): nat
    decreases |items|
  {
    if items == [] then 0
    else (if items[0] == kind then 1 else 0) + Count(items[1..], kind)
  }

  /** One iteration of the loop of `startTailing`. A new console stream gets
      identifier `next` and is closed when its content gives no output stream;
      an output stream wrapping it gets `next + 1` and enters the table at 0. */
  function OpenItem(acc: Opened, item: ContentStream): Opened
  {
    match item
    case ConsoleStreamNull => acc
    case OutputStreamNull =>
      acc.(closed := acc.closed + {StreamId(acc.next)}, next := acc.next + 1)
    case OutputStreamCreated =>
      acc.(table := acc.table[StreamId(acc.next + 1) := 0], next := acc.next + 2)
  }

  /** The loop of `startTailing` over the remaining content items. */
  function OpenAll(acc: Opened, items: seq<ContentStream>): Opened
    decreases |items|
  {
    if items == [] then acc else OpenAll(OpenItem(acc, items[0]), items[1..])
  }

  /** `startTailing(contents)`, where `None` stands for null contents or a null
      list of contents. */
  function Start(t: Tailer, contents: Option<seq<ContentStream>>): Tailer
  {
    var stopped := Stop(t);
    if contents.None? || |contents.value| == 0 then stopped
    else
      var o := OpenAll(Opened(map[], stopped.closed, stopped.next), contents.value);
      var started := stopped.(active := Some(o.table), closed := o.closed, next := o.next);
      if o.table != map[] then started.(tailing := true, requests := started.requests + [NoDelay])
      else started
  }

  // ------------------------------------------------------------------------ run

  /** A stream's error count after a write with outcome `o`. */
  function NextCount(count: nat, o: WriteOutcome): nat
  {
    if o == Written then count else count + 1
  }

  /** Whether a stream with error count `count` is closed and dropped after a
      write with outcome `o`. */
  predicate Retires(count: nat, o: WriteOutcome)
  {
    o == FailedIO || NextCount(count, o) > MaxErrors
  }

  /** The table after one polling round. */
  function Round(table: map<StreamId, nat>, outcome: StreamId -> WriteOutcome): map<StreamId, nat>
  {
    map s | s in table && !Retires(table[s], outcome(s)) :: NextCount(table[s], outcome(s))
  }

  /** The streams closed in one polling round. */
  function Retiring(table: map<StreamId, nat>, outcome: StreamId -> WriteOutcome): set<StreamId>
  {
    set s | s in table && Retires(table[s], outcome(s))
  }

  /** One call of `run`; `outcome(s)` is how the write of stream `s` ends. */
  function Run(t: Tailer, outcome: StreamId -> WriteOutcome): Tailer
  {
    if !t.tailing then t
    else
      var polled :=
        if t.active.Some? && t.active.value != map[]
        then t.(active := Some(Round(t.active.value, outcome)),
                closed := t.closed + Retiring(t.active.value, outcome))
        else t;
      if polled.active.Some? && polled.active.value != map[]
      then polled.(requests := polled.requests + [SampleInterval])
      else Stop(polled)
  }

  /** Successive calls of `run`, one outcome function per round. */
  function Rounds(t: Tailer, outcomes: seq<StreamId -> WriteOutcome>): Tailer
    decreases |outcomes|
  {
    if outcomes == [] then t else Rounds(Run(t, outcomes[0]), outcomes[1..])
  }
}
