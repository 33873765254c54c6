/** The console tailing job itself: an object whose methods update the table
    of active streams and the `tailing` flag in place. Each method is proved
    to leave the object in the state that module ConsoleSpec gives for it. */
module Console {
  import opened ConsoleSpec
  import ConsoleLemmas

  /** What `run` reports to the host; the job always reports OK. */
  datatype Status = OkStatus

  class CloudFoundryConsole {
    /** The job's name, given by the application. */
    const name: string
    /** The streams being polled, each with its error count; `None` is null. */
    var activeStreams: Option<map<StreamId, nat>>
    /** Whether the job is currently tailing. */
    var tailing: bool
    /** The streams closed so far: the closed flag of every stream. */
    var closed: set<StreamId>
    /** The first identifier not yet given to a stream. */
    var nextStream: nat
    /** The delays of every `schedule` call the job has made. */
    ghost var requests: seq<nat>

    /** The object's state as a value. */
    ghost function State(): Tailer
      reads this
    {
      Tailer(activeStreams, tailing, closed, nextStream, requests)
    }

    /** The object invariant: the streams in the table are open and within
        their error budget. */
    ghost predicate Valid()
      reads this
    {
      ConsoleSpec.Valid(State())
    }

    constructor (app: CloudApplication)
      ensures name == ConsoleName(app)
      ensures State() == Initial && Valid()
    {
      name := ConsoleName(app);
      activeStreams := None;
      tailing := true;
      closed := {};
      nextStream := 0;
      requests := [];
    }

    /** A new output stream of the console, never seen before. */
    method NewOutputStream() returns (stream: StreamId)
      modifies this`nextStream
      ensures stream == StreamId(old(nextStream))
      ensures nextStream == old(nextStream) + 1
    {
      stream := StreamId(nextStream);
      nextStream := nextStream + 1;
    }

    /** Stops polling: clears `tailing`, closes every stream of the table and
        drops the table. */
    method StopTailing()
      requires Valid()
      modifies this
      ensures Valid()
      ensures State() == Stop(old(State()))
    {
      tailing := false;
      if activeStreams.Some? {
        var table := activeStreams.value;
        var open := table.Keys;
        while open != {}
          invariant open <= table.Keys
          invariant closed == old(closed) + (table.Keys - open)
          invariant activeStreams == Some(table) && !tailing
          invariant nextStream == old(nextStream) && requests == old(requests)
          decreases open
        {
          var stream :| stream in open;
          closed := closed + {stream};
          open := open - {stream};
        }
        activeStreams := None;
      }
      ConsoleLemmas.StopPreservesValid(old(State()));
    }

    /** The loop of `startTailing`: a new table, then for each content item a
        new console stream, closed again when the content gives no output
        stream for it and otherwise wrapped and put in the table at count 0. */
    method OpenContents(items: seq<ContentStream>)
      modifies this
      ensures activeStreams.Some?
      ensures Opened(activeStreams.value, closed, nextStream) == OpenAll(Opened(map[], old(closed), old(nextStream)), items)
      ensures tailing == old(tailing) && requests == old(requests)
    {
      activeStreams := Some(map[]);
      var i := 0;
      while i < |items|
        invariant 0 <= i <= |items|
        invariant activeStreams.Some?
        invariant OpenAll(Opened(activeStreams.value, closed, nextStream), items[i..])
                  == OpenAll(Opened(map[], old(closed), old(nextStream)), items)
        invariant tailing == old(tailing) && requests == old(requests)
      {
        assert items[i..][1..] == items[i + 1..];
        match items[i] {
          case ConsoleStreamNull =>
          case OutputStreamNull =>
            var stream := NewOutputStream();
            closed := closed + {stream};
          case OutputStreamCreated =>
            var stream := NewOutputStream();
            var outStream := NewOutputStream();
            activeStreams := Some(activeStreams.value[outStream := 0]);
        }
        i := i + 1;
      }
      assert items[i..] == [];
    }

    /** Stops any previous tailing, then opens an output stream for every
        content item that yields one and starts polling if any was opened.
        `contents` is `None` when the contents or their list are null; each
        item says what the console and the content produced for it. */
    method StartTailing(contents: Option<seq<ContentStream>>)
      requires Valid()
      modifies this
      ensures Valid()
      ensures State() == Start(old(State()), contents)
    {
      StopTailing();
      if contents.Some? && |contents.value| > 0 {
        OpenContents(contents.value);
        if activeStreams.value != map[] {
          tailing := true;
          requests := requests + [NoDelay];
        }
      }
      ConsoleLemmas.StartPreservesValid(old(State()), contents);
    }

    /** The loop of `run` over a copy of the table: every stream writes once;
        a failed write raises its count; a stream whose write failed on an
        IOException or whose count exceeds MaxErrors is removed and closed,
        every other one is put back with its count. */
    method PollStreams(outcome: StreamId -> WriteOutcome)
      requires activeStreams.Some?
      modifies this
      ensures activeStreams == Some(Round(old(activeStreams.value), outcome))
      ensures closed == old(closed) + Retiring(old(activeStreams.value), outcome)
      ensures tailing == old(tailing) && nextStream == old(nextStream) && requests == old(requests)
    {
      var copy := activeStreams.value;
      var pending := copy.Keys;
      while pending != {}
        invariant pending <= copy.Keys
        invariant activeStreams.Some?
        invariant forall s :: s in activeStreams.value <==>
                    s in copy && (s in pending || !Retires(copy[s], outcome(s)))
        invariant forall s :: s in activeStreams.value ==>
                    activeStreams.value[s] == if s in pending then copy[s] else NextCount(copy[s], outcome(s))
        invariant closed == old(closed) + (set s | s in copy && s !in pending && Retires(copy[s], outcome(s)))
        invariant tailing == old(tailing) && nextStream == old(nextStream) && requests == old(requests)
        decreases pending
      {
        var stream :| stream in pending;
        var count := copy[stream];
        var ioexception := false;
        var written := outcome(stream);
        if written != Written {
          if written == FailedIO {
            ioexception := true;
          }
          count := count + 1;
        }
        activeStreams := Some(activeStreams.value - {stream});
        if ioexception || count > MaxErrors {
          closed := closed + {stream};
        } else {
          activeStreams := Some(activeStreams.value[stream := count]);
        }
        pending := pending - {stream};
      }
      assert activeStreams.value == Round(copy, outcome);
      assert closed == old(closed) + Retiring(copy, outcome);
    }

    /** One polling round, then the decision to run again or to stop: the
        job asks to run again after SampleInterval if any stream is left,
        and stops tailing otherwise. `outcome(s)` is how the write of
        stream `s` ends. */
    method Run(outcome: StreamId -> WriteOutcome) returns (status: Status)
      requires Valid()
      modifies this
      ensures Valid()
      ensures status == OkStatus
      ensures State() == ConsoleSpec.Run(old(State()), outcome)
    {
      if tailing {
        if activeStreams.Some? && activeStreams.value != map[] {
          PollStreams(outcome);
        }
        if activeStreams.Some? && activeStreams.value != map[] {
          requests := requests + [SampleInterval];
        } else {
          StopTailing();
        }
      }
      ConsoleLemmas.RunPreservesValid(old(State()), outcome);
      status := OkStatus;
    }
  }
}
