/** What the tailing job promises, stated and proved over module ConsoleSpec:
    stopping closes everything and is idempotent, starting stops first and
    opens exactly the created output streams, a polling round gives every
    stream its own cumulative error budget, and the job asks to run again
    exactly while streams are left. */
module ConsoleLemmas {
  import opened ConsoleSpec

  // ---------------------------------------------------------------- stopTailing

  /** `stopTailing` closes every stream of the table, drops the table, clears
      `tailing`, and a second call changes nothing more. */
  lemma StopClosesAll(t: Tailer)
    ensures !Stop(t).tailing && Stop(t).active.None?
    ensures Stop(t).closed == t.closed + Streams(t.active)
    ensures Stop(t).next == t.next && Stop(t).requests == t.requests
    ensures Stop(Stop(t)) == Stop(t)
  {
  }

  lemma StopPreservesValid(t: Tailer)
    requires Valid(t)
    ensures Valid(Stop(t))
  {
  }

  // --------------------------------------------------------------- startTailing

  /** All streams of the table and all closed streams were handed out. */
  predicate Below(acc: Opened)
  {
    && (forall s :: s in acc.table ==> s.n < acc.next)
    && (forall s :: s in acc.closed ==> s.n < acc.next)
  }

  /** The loop of `startTailing` keeps what it started with, adds only new
      streams, at count 0, to the table, closes only new streams, and never
      closes a stream it puts in the table. */
  lemma {:induction false} OpenAllFresh(acc: Opened, items: seq<ContentStream>)
    requires Below(acc)
    ensures var r := OpenAll(acc, items);
            && acc.next <= r.next
            && (forall s :: s in acc.table ==> s in r.table && r.table[s] == acc.table[s])
            && (forall s :: s in r.table && s !in acc.table ==> acc.next <= s.n < r.next && r.table[s] == 0 && s !in r.closed)
            && acc.closed <= r.closed
            && (forall s :: s in r.closed && s !in acc.closed ==> acc.next <= s.n < r.next)
    decreases |items|
  {
    if items != [] {
      var acc1 := OpenItem(acc, items[0]);
      assert Below(acc1);
      OpenAllFresh(acc1, items[1..]);
    }
  }

  /** The loop of `startTailing` puts one stream per created output stream in
      the table and closes one console stream per item left without one. */
  lemma {:induction false} OpenAllCounts(acc: Opened, items: seq<ContentStream>)
    requires Below(acc)
    ensures |OpenAll(acc, items).table| == |acc.table| + Count(items, OutputStreamCreated)
    ensures |OpenAll(acc, items).closed| == |acc.closed| + Count(items, OutputStreamNull)
    decreases |items|
  {
    if items != [] {
      var acc1 := OpenItem(acc, items[0]);
      match items[0] {
        case ConsoleStreamNull =>
        case OutputStreamNull =>
          assert StreamId(acc.next) !in acc.closed;
          assert |acc1.closed| == |acc.closed| + 1;
        case OutputStreamCreated =>
          assert StreamId(acc.next + 1) !in acc.table;
          assert |acc1.table| == |acc.table| + 1;
      }
      assert Below(acc1);
      OpenAllCounts(acc1, items[1..]);
    }
  }

  /** Some item produced `kind` exactly when the count of `kind` is positive. */
  lemma {:induction false} CountPositive(items: seq<ContentStream>, kind: ContentStream)
    ensures Count(items, kind) > 0 <==> exists i :: 0 <= i < |items| && items[i] == kind
    decreases |items|
  {
    if items != [] {
      CountPositive(items[1..], kind);
      if Count(items[1..], kind) > 0 {
        var i :| 0 <= i < |items[1..]| && items[1..][i] == kind;
        assert items[i + 1] == kind;
      }
      if exists i :: 0 <= i < |items| && items[i] == kind {
        var i :| 0 <= i < |items| && items[i] == kind;
        if i > 0 {
          assert items[1..][i - 1] == kind;
        }
      }
    }
  }

  /** `startTailing` first stops: every stream of the previous session is
      closed and none of them is in the new table. */
  lemma StartStopsPrevious(t: Tailer, contents: Option<seq<ContentStream>>)
    requires Valid(t)
    ensures t.closed + Streams(t.active) <= Start(t, contents).closed
    ensures Streams(t.active) !! Streams(Start(t, contents).active)
  {
    if contents.Some? && contents.value != [] {
      OpenAllFresh(Opened(map[], Stop(t).closed, t.next), contents.value);
    }
  }

  /** With null or empty contents `startTailing` only stops. */
  lemma StartWithoutContents(t: Tailer, contents: Option<seq<ContentStream>>)
    requires contents.None? || contents.value == []
    ensures Start(t, contents) == Stop(t)
  {
  }

  /** With contents, the table after `startTailing` holds exactly one new
      stream, at count 0, per item that gave an output stream. */
  lemma StartTable(t: Tailer, items: seq<ContentStream>)
    requires Valid(t) && items != []
    ensures Start(t, Some(items)).active.Some?
    ensures |Start(t, Some(items)).active.value| == Count(items, OutputStreamCreated)
    ensures forall s :: s in Start(t, Some(items)).active.value ==>
              Start(t, Some(items)).active.value[s] == 0 && t.next <= s.n
  {
    var acc := Opened(map[], Stop(t).closed, t.next);
    OpenAllFresh(acc, items);
    OpenAllCounts(acc, items);
  }

  /** With contents, `startTailing` closes exactly one new console stream per
      item whose content gave no output stream for it. */
  lemma StartClosesUnwrapped(t: Tailer, items: seq<ContentStream>)
    requires Valid(t) && items != []
    ensures Stop(t).closed <= Start(t, Some(items)).closed
    ensures |Start(t, Some(items)).closed - Stop(t).closed| == Count(items, OutputStreamNull)
  {
    var acc := Opened(map[], Stop(t).closed, t.next);
    assert Below(acc);
    var r := OpenAll(acc, items);
    assert Start(t, Some(items)).closed == r.closed;
    OpenAllKeepsClosed(acc, items);
    OpenAllCounts(acc, items);
    SubsetDifference(acc.closed, r.closed);
  }

  /** The loop of `startTailing` never reopens a stream. */
  lemma {:induction false} OpenAllKeepsClosed(acc: Opened, items: seq<ContentStream>)
    ensures acc.closed <= OpenAll(acc, items).closed
    decreases |items|
  {
    if items != [] {
      OpenAllKeepsClosed(OpenItem(acc, items[0]), items[1..]);
    }
  }

  lemma SubsetDifference<T>(a: set<T>, b: set<T>)
    requires a <= b
    ensures |b - a| == |b| - |a|
  {
  }

  /** `startTailing` sets `tailing` and schedules the job, without delay, if
      and only if some content item produced an output stream; otherwise it
      schedules nothing and `tailing` is false. */
  lemma StartSchedulesIff(t: Tailer, contents: Option<seq<ContentStream>>)
    requires Valid(t)
    ensures var created := contents.Some? && exists i :: 0 <= i < |contents.value| && contents.value[i] == OutputStreamCreated;
            && (Start(t, contents).tailing <==> created)
            && Start(t, contents).requests == t.requests + (if created then [NoDelay] else [])
  {
    if contents.Some? && contents.value != [] {
      OpenAllCounts(Opened(map[], Stop(t).closed, t.next), contents.value);
      CountPositive(contents.value, OutputStreamCreated);
    }
  }

  /** `startTailing` keeps the state invariant: the new streams are open and
      within budget. */
  lemma StartPreservesValid(t: Tailer, contents: Option<seq<ContentStream>>)
    requires Valid(t)
    ensures Valid(Start(t, contents))
  {
    if contents.Some? && contents.value != [] {
      OpenAllFresh(Opened(map[], Stop(t).closed, t.next), contents.value);
    }
  }

  // ------------------------------------------------------------------------ run

  /** `run` while not tailing changes nothing and schedules nothing. */
  lemma RunIdle(t: Tailer, outcome: StreamId -> WriteOutcome)
    requires !t.tailing
    ensures Run(t, outcome) == t
  {
  }

  /** A write raises the error count by exactly one when it fails and leaves
      it as it was when it succeeds: a success does not reset it. */
  lemma NextCountCumulative(count: nat, o: WriteOutcome)
    ensures o == Written ==> NextCount(count, o) == count
    ensures o != Written ==> NextCount(count, o) == count + 1
  {
  }

  /** In one polling round a stream is closed and dropped if and only if its
      write failed on an IOException or its count now exceeds MaxErrors;
      otherwise it stays, with its updated count. */
  lemma RunPerStream(t: Tailer, outcome: StreamId -> WriteOutcome, s: StreamId)
    requires Valid(t) && t.tailing && s in Streams(t.active)
    ensures var count, o := t.active.value[s], outcome(s);
            && (s in Streams(Run(t, outcome).active) <==> !Retires(count, o))
            && (s in Streams(Run(t, outcome).active) ==> Run(t, outcome).active.value[s] == NextCount(count, o))
            && (s in Run(t, outcome).closed <==> Retires(count, o))
  {
  }

  /** Which streams stay after a round, with which counts, and which are
      closed, depends on each stream's own outcome only. */
  lemma RunIndependent(t: Tailer, outcome1: StreamId -> WriteOutcome, outcome2: StreamId -> WriteOutcome, s: StreamId)
    requires outcome1(s) == outcome2(s)
    ensures s in Streams(Run(t, outcome1).active) <==> s in Streams(Run(t, outcome2).active)
    ensures s in Streams(Run(t, outcome1).active) ==> Run(t, outcome1).active.value[s] == Run(t, outcome2).active.value[s]
    ensures s in Run(t, outcome1).closed <==> s in Run(t, outcome2).closed
  {
    if t.tailing && t.active.Some? && s in t.active.value {
      var table := t.active.value;
      if !Retires(table[s], outcome1(s)) {
        assert s in Round(table, outcome1) && s in Round(table, outcome2);
      }
    }
  }

  /** After a tailing round the job asks to run again after SampleInterval if
      and only if streams are left; otherwise it has stopped tailing. */
  lemma RunReschedulesIff(t: Tailer, outcome: StreamId -> WriteOutcome)
    requires t.tailing
    ensures var r := Run(t, outcome);
            && (Streams(r.active) != {} <==> r.requests == t.requests + [SampleInterval])
            && (Streams(r.active) != {} ==> r.tailing)
            && (Streams(r.active) == {} ==> !r.tailing && r.active.None? && r.requests == t.requests)
  {
  }

  /** A round keeps the invariant; in particular every count left in the table
      is at most MaxErrors. */
  lemma RunPreservesValid(t: Tailer, outcome: StreamId -> WriteOutcome)
    requires Valid(t)
    ensures Valid(Run(t, outcome))
  {
  }

  /** A round never adds a stream to the table, never reopens a closed one,
      and hands out no identifiers. */
  lemma RunShrinks(t: Tailer, outcome: StreamId -> WriteOutcome)
    ensures Streams(Run(t, outcome).active) <= Streams(t.active)
    ensures t.closed <= Run(t, outcome).closed
    ensures Run(t, outcome).next == t.next
  {
  }

  // ------------------------------------------------------ the error budget

  /** The outcomes of stream `s` in successive rounds. */
  function Trace(s: StreamId, outcomes: seq<StreamId -> WriteOutcome>): (trace: seq<WriteOutcome>)
    ensures |trace| == |outcomes|
    ensures forall i :: 0 <= i < |outcomes| ==> trace[i] == outcomes[i](s)
    decreases |outcomes|
  {
    if outcomes == [] then [] else [outcomes[0](s)] + Trace(s, outcomes[1..])
  }

  /** The number of failed writes in a trace, whatever their cause. */
  function Failures(trace: seq<WriteOutcome>): nat
  {
    if trace == [] then 0 else (if trace[0] == Written then 0 else 1) + Failures(trace[1..])
  }

  /** A stream at error count `count` survives the trace when no write fails
      on an IOException and its failures, counted over the whole trace,
      keep it within MaxErrors. */
  predicate Survives(count: nat, trace: seq<WriteOutcome>)
  {
    FailedIO !in trace && count + Failures(trace) <= MaxErrors
  }

  /** Later rounds neither add streams nor reopen closed ones. */
  lemma {:induction false} RoundsShrink(t: Tailer, outcomes: seq<StreamId -> WriteOutcome>)
    ensures Streams(Rounds(t, outcomes).active) <= Streams(t.active)
    ensures t.closed <= Rounds(t, outcomes).closed
    decreases |outcomes|
  {
    if outcomes != [] {
      RunShrinks(t, outcomes[0]);
      RoundsShrink(Run(t, outcomes[0]), outcomes[1..]);
    }
  }

  /** The error budget over many rounds: a polled stream is still polled after
      the rounds if and only if none of its writes failed on an IOException
      and its failures over all rounds, successes in between or not, keep its
      count within MaxErrors; its count is then its old count plus those
      failures; and otherwise it has been closed. */
  lemma {:induction false} RoundsBudget(t: Tailer, outcomes: seq<StreamId -> WriteOutcome>, s: StreamId)
    requires Valid(t) && t.tailing && s in Streams(t.active)
    ensures var r, count, trace := Rounds(t, outcomes), t.active.value[s], Trace(s, outcomes);
            && (s in Streams(r.active) <==> Survives(count, trace))
            && (s in Streams(r.active) ==> r.active.value[s] == count + Failures(trace))
            && (s in r.closed <==> !Survives(count, trace))
    decreases |outcomes|
  {
    var count := t.active.value[s];
    if outcomes != [] {
      var o := outcomes[0](s);
      var t1 := Run(t, outcomes[0]);
      var trace := Trace(s, outcomes);
      assert trace == [o] + Trace(s, outcomes[1..]);
      assert trace[1..] == Trace(s, outcomes[1..]);
      RunPerStream(t, outcomes[0], s);
      RunPreservesValid(t, outcomes[0]);
      if Retires(count, o) {
        RoundsShrink(t1, outcomes[1..]);
        assert !Survives(count, trace);
      } else {
        RunReschedulesIff(t, outcomes[0]);
        RoundsBudget(t1, outcomes[1..], s);
      }
    }
  }
}
