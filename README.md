# Cloud Foundry console tailing job, modelled in Dafny

The Cloud Foundry Eclipse integration shows an application's remote log and
file content in a console view. `CloudFoundryConsole` is the background job
that does this. It keeps a table from console output streams to error counts
(`activeStreams`, possibly null) and a `tailing` flag:

- `startTailing` stops any earlier tailing. It then opens one output stream
  per content item and starts polling if at least one stream was opened.
- `run` is one polling round. Every stream writes once. A stream is closed
  and dropped when its write fails on an I/O error, or when its count of
  failed writes exceeds five. Other streams are not affected. The job asks
  to run again after 5000 ms while streams are left, and stops otherwise.
- `stopTailing` closes every stream and drops the table.

The project has three files:

- `console_spec.dfy` (module `ConsoleSpec`) gives the job's state as a value,
  `Tailer`. The functions `Stop`, `Start` and `Run` give the state after
  each operation, `OpenAll` and `Round` give the effect of their loops, and
  `Valid` is the state invariant. Streams are identifiers. Closing a stream adds it to the set `closed`. Every stream
  the console creates gets a new identifier from a counter, the way Java
  creates a new object. The host's `schedule(delay)` calls are recorded in
  the log `requests`; `schedule()` without an argument is recorded as delay 0.
- `console.dfy` (module `Console`) is the job as a class. Its methods update
  `activeStreams`, `tailing` and `closed` in place, with loops. Each method
  is proved to leave the object in the state that the matching function
  gives. Each also keeps the object invariant `Valid`: every stream in the
  table is open and has at most five errors.
- `console_lemmas.dfy` (module `ConsoleLemmas`) proves what the job
  promises about those functions.

The outcome of each write (`Written`, `Failed`, `FailedIO`) is an input to
`run`. What the console produced for each content item is an input to
`startTailing`. A `None` contents stands for null contents or a null list
of contents, which the code treats the same way.

The job's own description speaks of a stream failing "repeatedly", and a
summary of it speaks of more than five *consecutive* failures. The code
never resets a count after a successful write, so the budget is cumulative.
The model follows the code: `NextCountCumulative` and `RoundsBudget` state
the cumulative budget.

Two details of the code are kept as written:

- The job starts with `tailing` true and no table.
- When the contents are non-empty but no item gives an output stream, the
  table becomes an empty table rather than null, and `tailing` stays false.

## Model

| member | source | states |
|---|---|---|
| ConsoleSpec.ConsoleName | org.cloudfoundry.ide.eclipse.server.ui/src/org/cloudfoundry/ide/eclipse/internal/server/ui/console/CloudFoundryConsole.java:226-228 | the name is the first URI when the URI list is present and non-empty, and the application's name otherwise |
| Console.CloudFoundryConsole.constructor | org.cloudfoundry.ide.eclipse.server.ui/src/org/cloudfoundry/ide/eclipse/internal/server/ui/console/CloudFoundryConsole.java:82-98 | the job is named after the application, starts with no table and with `tailing` true, has closed and scheduled nothing, and satisfies the object invariant |
| Console.CloudFoundryConsole.NewOutputStream | org.cloudfoundry.ide.eclipse.server.ui/src/org/cloudfoundry/ide/eclipse/internal/server/ui/console/CloudFoundryConsole.java:118-120 | each stream the console creates has an identifier never handed out before |
| Console.CloudFoundryConsole.StopTailing | org.cloudfoundry.ide.eclipse.server.ui/src/org/cloudfoundry/ide/eclipse/internal/server/ui/console/CloudFoundryConsole.java:151-166 | the loop closes every stream of the table; afterwards the state is `Stop` of the old state, and the object invariant still holds |
| Console.CloudFoundryConsole.OpenContents | org.cloudfoundry.ide.eclipse.server.ui/src/org/cloudfoundry/ide/eclipse/internal/server/ui/console/CloudFoundryConsole.java:116-133 | the loop over the content items leaves exactly the table, closed streams and next identifier that `OpenAll` gives, and changes neither `tailing` nor the schedule |
| Console.CloudFoundryConsole.StartTailing | org.cloudfoundry.ide.eclipse.server.ui/src/org/cloudfoundry/ide/eclipse/internal/server/ui/console/CloudFoundryConsole.java:105-141 | stops first, then opens the contents and schedules only if the table is non-empty; afterwards the state is `Start` of the old state and the contents, and the object invariant still holds |
| Console.CloudFoundryConsole.PollStreams | org.cloudfoundry.ide.eclipse.server.ui/src/org/cloudfoundry/ide/eclipse/internal/server/ui/console/CloudFoundryConsole.java:179-212 | the loop over a copy of the table leaves exactly the table `Round` gives and closes exactly the streams `Retiring` gives, and changes nothing else |
| Console.CloudFoundryConsole.Run | org.cloudfoundry.ide.eclipse.server.ui/src/org/cloudfoundry/ide/eclipse/internal/server/ui/console/CloudFoundryConsole.java:169-224 | polls only while tailing and the table is non-empty, then reschedules or stops; afterwards the state is `Run` of the old state and the outcomes, and the object invariant still holds; the status is always OK |
| ConsoleLemmas.StopClosesAll | org.cloudfoundry.ide.eclipse.server.ui/src/org/cloudfoundry/ide/eclipse/internal/server/ui/console/CloudFoundryConsole.java:151-166 | stopping clears `tailing`, closes every stream that was in the table, drops the table, changes nothing else, and stopping twice is the same as stopping once |
| ConsoleLemmas.StopPreservesValid | org.cloudfoundry.ide.eclipse.server.ui/src/org/cloudfoundry/ide/eclipse/internal/server/ui/console/CloudFoundryConsole.java:151-166 | stopping keeps the state invariant |
| ConsoleLemmas.OpenAllFresh | org.cloudfoundry.ide.eclipse.server.ui/src/org/cloudfoundry/ide/eclipse/internal/server/ui/console/CloudFoundryConsole.java:116-133 | the loop of `startTailing` adds to the table only new streams, at count 0, never closes a stream it adds, closes only new streams, and keeps every stream closed before |
| ConsoleLemmas.OpenAllCounts | org.cloudfoundry.ide.eclipse.server.ui/src/org/cloudfoundry/ide/eclipse/internal/server/ui/console/CloudFoundryConsole.java:117-133 | the loop adds exactly one table entry per item that gave an output stream, and closes exactly one console stream per item whose content gave none |
| ConsoleLemmas.OpenAllKeepsClosed | org.cloudfoundry.ide.eclipse.server.ui/src/org/cloudfoundry/ide/eclipse/internal/server/ui/console/CloudFoundryConsole.java:116-133 | the loop never reopens a closed stream |
| ConsoleLemmas.StartStopsPrevious | org.cloudfoundry.ide.eclipse.server.ui/src/org/cloudfoundry/ide/eclipse/internal/server/ui/console/CloudFoundryConsole.java:105-110 | after starting, every stream of the previous session is closed and none of them is in the new table |
| ConsoleLemmas.StartWithoutContents | org.cloudfoundry.ide.eclipse.server.ui/src/org/cloudfoundry/ide/eclipse/internal/server/ui/console/CloudFoundryConsole.java:112-114 | with null or empty contents, starting only stops |
| ConsoleLemmas.StartTable | org.cloudfoundry.ide.eclipse.server.ui/src/org/cloudfoundry/ide/eclipse/internal/server/ui/console/CloudFoundryConsole.java:116-123 | with contents, the table holds exactly one new stream at count 0 per item that gave an output stream |
| ConsoleLemmas.StartClosesUnwrapped | org.cloudfoundry.ide.eclipse.server.ui/src/org/cloudfoundry/ide/eclipse/internal/server/ui/console/CloudFoundryConsole.java:118-131 | with contents, exactly one new console stream is closed per item whose content gave no output stream for it |
| ConsoleLemmas.StartSchedulesIff | org.cloudfoundry.ide.eclipse.server.ui/src/org/cloudfoundry/ide/eclipse/internal/server/ui/console/CloudFoundryConsole.java:112-140 | `tailing` is set and one immediate run is requested if and only if some item gave an output stream; otherwise nothing is scheduled and `tailing` is false |
| ConsoleLemmas.StartPreservesValid | org.cloudfoundry.ide.eclipse.server.ui/src/org/cloudfoundry/ide/eclipse/internal/server/ui/console/CloudFoundryConsole.java:105-141 | starting keeps the state invariant: streams in the table are open and within budget |
| ConsoleLemmas.RunIdle | org.cloudfoundry.ide.eclipse.server.ui/src/org/cloudfoundry/ide/eclipse/internal/server/ui/console/CloudFoundryConsole.java:169-223 | a round while not tailing changes no state and schedules nothing |
| ConsoleLemmas.NextCountCumulative | org.cloudfoundry.ide.eclipse.server.ui/src/org/cloudfoundry/ide/eclipse/internal/server/ui/console/CloudFoundryConsole.java:182-197 | a failed write raises the count by exactly one, and a successful write leaves it unchanged (no reset) |
| ConsoleLemmas.RunPerStream | org.cloudfoundry.ide.eclipse.server.ui/src/org/cloudfoundry/ide/eclipse/internal/server/ui/console/CloudFoundryConsole.java:181-212 | a polled stream is closed and dropped if and only if its write failed on an IOException or its new count exceeds 5; otherwise it stays with its new count |
| ConsoleLemmas.RunIndependent | org.cloudfoundry.ide.eclipse.server.ui/src/org/cloudfoundry/ide/eclipse/internal/server/ui/console/CloudFoundryConsole.java:179-212 | whether a stream stays, its new count and whether it is closed depend only on its own write's outcome, not on the other streams' outcomes |
| ConsoleLemmas.RunReschedulesIff | org.cloudfoundry.ide.eclipse.server.ui/src/org/cloudfoundry/ide/eclipse/internal/server/ui/console/CloudFoundryConsole.java:215-220 | after a tailing round, a run after 5000 ms is requested if and only if streams are left; otherwise tailing has stopped and the table is dropped |
| ConsoleLemmas.RunPreservesValid | org.cloudfoundry.ide.eclipse.server.ui/src/org/cloudfoundry/ide/eclipse/internal/server/ui/console/CloudFoundryConsole.java:181-212 | a round keeps the state invariant, so every count left in the table is at most 5 and every stream in it is open |
| ConsoleLemmas.RunShrinks | org.cloudfoundry.ide.eclipse.server.ui/src/org/cloudfoundry/ide/eclipse/internal/server/ui/console/CloudFoundryConsole.java:177-220 | a round never adds a stream to the table, never reopens a closed stream and creates no stream |
| ConsoleLemmas.RoundsShrink | org.cloudfoundry.ide.eclipse.server.ui/src/org/cloudfoundry/ide/eclipse/internal/server/ui/console/CloudFoundryConsole.java:169-224 | over any number of rounds the table only shrinks and the closed streams only grow |
| ConsoleLemmas.RoundsBudget | org.cloudfoundry.ide.eclipse.server.ui/src/org/cloudfoundry/ide/eclipse/internal/server/ui/console/CloudFoundryConsole.java:182-212 | over many rounds a stream is still polled if and only if none of its writes failed on an IOException and its total failures keep its count within 5; its count is then its old count plus its failures, successes in between or not; otherwise it is closed |

## Left out

- The Eclipse job machinery (`Job`, `schedule`, `setSystem`, `IProgressMonitor`, `IStatus`). A `schedule` call is recorded as a requested delay in a log. The model does not say when the host runs the job.
- `synchronized` and the host's job manager. Each operation is modelled as one sequential step.
- Console I/O. `MessageConsole.newOutputStream` and `IConsoleContent.getOutputStream` are inputs that say, per content item, whether a stream was created. A created stream is assumed to be a new object. `write` is an input outcome. `close` is a flag, and an IOException thrown by `close` is ignored, as in the code.
- A write that throws an unchecked exception rather than a `CoreException`. It would leave `run` early, and it is not modelled.
- The iteration order of the `LinkedHashMap` and the `HashMap` copy. Each stream is handled independently, so the table is a map and the loops visit its keys in any order.
- `sampleInterval` is the constant 5000, because no code in the class changes it.
- `getConsole` and the `ATTRIBUTE_*` and `CONSOLE_TYPE` constants. They hold no logic.
- `CloudFoundryCloudSpaceWizardpage` is not part of this model. It only builds widgets and delegates page completion to a notifier whose code is not shown.
