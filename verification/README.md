# Agent runs, the Watch frame and generated Kotlin: a verified model

The project models three parts of Optio and proves what they promise.

**Agent runs** (`packages/container-runtime`). An agent is started detached in a run directory; any API
process may attach to its output from a byte offset, deliver stdin lines, kill it, crash, or hand over.

- `RunSpec` is the contract of an attachment (`packages/container-runtime/src/types.ts:51-70`): the bytes from
  an offset on, each once, also over a chain of attachments that take turns. The polling, the process and the
  exec runtime's attachments are each proved against it (`HandoversExactlyOnce` in `PollAttach`, `ProcessFile`
  and `RunOutput`).
- `PollAttach` is the polling attachment of the fake runtime as a state machine in which each file, process or
  clock query is a step of its own, so the agent, another process, moves in between. `PollTick` has the same
  handler as a class, proved to take exactly those steps.
- `RunDirectory` is the run directory over many attempts: names, inodes, descriptors, processes known by pid and
  start time, the start script step by step, supervisors, agents and stragglers that live and die, attachments, pod
  restarts. A flag says whether zombies count as alive, as they do for the fake, which starts the same way.
  `RunSupervisors` proves what every run keeps of supervisors and of a refused start, `RunOutput` whose bytes an
  output holds, `RunLateOpen` what an agent does that opens its output late, `RunStarts` that starts come up, and
  whom a named kill hits, `RunStops` whom the scripts find, stop and are refused for, and how a start ends, `RunBytes`
  what exactly an output holds.
- `RunStdin` is delivery under a lock and the feeder loop; `ProcessStdin` the process runtime's feeder against it.
- `ProcessFile` is the process runtime's output file, which successive children share, as a state machine;
  `ProcessRun` has its run, attachments and child table as classes, whose attachments open and take chunks by the
  same two functions.
- `ExecAttach` is the attachment over an exec, event by event; `AttachScript` the script that reads the exit file
  while the supervisor writes it.
- `HereDoc` is the start script's two here-documents, read back as section 2.7.4 of the POSIX Shell Command
  Language says.
- `LogStream` is the consumer: the byte-exact line splitter, and any number of holders that store lines with a
  compare-and-set on holder and offset. Its main result is the end-to-end promise, each line once and no gap.
  `LogEntries` is the log table behind it, with any number of entries a line.

**The Watch** (`apps/ios/Shared`). `Watch` has the frame recomputed from a snapshot and the frame updated in
place of that, and says how long the two agree; `SnapshotMerge` folds the snapshots of several servers.

**Text.** `KotlinText` and `KotlinNames` are the Kotlin emitter's string literals, entry names and alias recursion;
`LineReaders` are readers that take text line by line or chunk by chunk. `Lines` is the splitting they all share,
`Decimal` the numerals.

## Where the code and its promises part

Each with the exact condition and, where it is about runs, one that gets there.

- **A false `lost`.** The polling attachment reads the clock twice in the tick that first finds the agent dead. An
  agent that recorded its exit code is reported lost iff in some such tick the two readings are further apart than
  the grace period (`PollAttach.FalselyLostIff`, `PollAttach.FalseLost`). One attached to before it wrote its pid
  file is lost at once iff it has no exit file yet (`PollAttach.EarlyAttachLostIff`).
- **A late agent.** The supervisor starts the agent in the background, and the agent opens its output by name. One
  that outlives its supervisor and opens only then shares the file with no other attempt, whatever follows, iff
  what the name leads to is empty and no living agent holds it or has still to open its output, no supervisor has
  still to start its agent, and no start is past moving the output aside (`RunLateOpen.LateOpenApartIff`; both
  halves are reached: `RunLateOpen.LateOpenUnsafe`, `RunLateOpen.LateOpenSafe`). With outputs opened while their
  supervisor lives, attempts never mix (`RunOutput.BytesNeverMix`).
- **A start that stops a stranger.** The pid file leads to supervisors only (`RunStops.AimedAtSupervisors`), but while
  a start waits for one to go it asks for its pid alone. What it then kills, or is refused for, is a live supervisor
  iff that process is no zombie and has the start time the pid file gave; otherwise none is left
  (`RunStops.StopMeetsIff`, `RunStops.StrangerStopped`).
- **A named kill.** The kill script promises that a newer attempt is never hit
  (`packages/container-runtime/src/run-protocol.ts:310-315`). It compares pid numbers, so it hits a newer attempt
  whose supervisor got the same number (`RunStarts.NamedKillHitsIff`, `RunStarts.NamedKillHitsNewer`).
- **Truncation in place.** The process runtime's start empties the output where it is. Whatever follows a start
  until the next one, failed or not, the file holds its child's output only, and every attachment is exact, iff all
  earlier children had ended their stdout (`ProcessFile.StartKeepsApartIff`, `ProcessFile.EarlyStart`). A start whose
  spawn fails leaves the output of the run before it emptied: until the next start each attachment still gets all it
  is owed iff that output was empty, and none gets wrong bytes iff it was empty or the child's stdout had ended
  (`ProcessFile.FailedStartLosesIff`, `ProcessFile.FailedStartLoses`).
- **An exit before the last byte.** A runtime may report `exited` before the last output came. The consumer then
  stores an unfinished line as a row, and the rows are the file's lines iff no such exit came before the last byte
  (`LogStream.EachLineOnceIff`, `LogStream.ExitTearsIff`, `LogStream.ExitTears`).
- **An unfinished initial line.** The process runtime feeds it as a line of its own, while in the file the first
  delivery goes on with it (`ProcessStdin.FeederAgreesIff`).
- **An empty exit file** reads as exit code 1 over exec. The code the supervisor began to record is reported iff
  it was written by then, or is 1 (`AttachScript.ReportedIff`, `AttachScript.KilledReadsAsOne`).
- **The third tap.** A frame carries three items. With more than three waiting, a third handling in a row is accepted
  and leaves the frame wrong (`Watch.SuccessiveHandlings`, `Watch.HandlingsConserveIff`, `Watch.ThirdTapIsWrong`).
- **Merging** is associative for all snapshots; the empty one is a left identity exactly for those with distinct ids
  (`SnapshotMerge.MergeAssociative`, `SnapshotMerge.MergeIdentity`).

## What the model assumes

- Starts in one directory are serialized; a launched supervisor publishes its pid file or dies before the next start
  looks. A run directory belongs to one run.
- No two processes share both pid and start time. A supervisor starts its agent before it writes its pid file.
- The polling attachment's promises are for an agent that wrote its pid file, which a start waits for before it
  reports the run (`packages/container-runtime/src/fake.ts:446-454`).
- A JavaScript handler runs to its end before the next; files are read and appended whole.
- `flock` is there, an exec's stdin arrives in full, and initial stdin of the supervised runtime is empty or ends
  with a newline.
- Times on the Watch are read from one clock; ids are distinct where a lemma says so.

## Model

| member | source | states |
|---|---|---|
| RunSpec.ChainDelivers | packages/container-runtime/src/types.ts:61-62 | a chain of exact attachments, each starting where the one before it stands, is one exact attachment: no byte missing, repeated or out of order |
| PollAttach.NoLostOrTornTail | packages/container-runtime/src/fake.ts:501-536 | under every interleaving the stream is exactly output[from..offset]; `exited` comes with the recorded code and the whole file from `from`; `lost` only of a dead agent, and after polling with every byte delivered |
| PollAttach.TickCatchesUp | packages/container-runtime/src/fake.ts:501-515 | a tick delivers all the file held when it looked, whatever is appended before the bytes are read |
| PollAttach.HandoversExactlyOnce | packages/container-runtime/src/fake.ts:457-543 | however many attachments take turns, each from where the last stood, whatever the agent does and wherever each is left, together they delivered the output from the first start to the last position |
| PollAttach.NeverFalselyLost | packages/container-runtime/src/fake.ts:513-536 | with the clock readings of the noticing tick within the grace, an agent that recorded its code is never reported lost |
| PollAttach.FalselyLostIff | packages/container-runtime/src/fake.ts:526-532 | over all runs, an ended attachment to an agent that recorded its code reported lost iff some tick that first found the agent dead read the clock more than the grace apart |
| PollAttach.FalseLost | packages/container-runtime/src/fake.ts:526-532 | a run from attach, for any code and grace, that ends in a false lost |
| PollAttach.VerdictIs | packages/container-runtime/src/fake.ts:513-543 | over all runs that ended: `detached` iff a close met the attachment between two ticks, else `exited` with the recorded code iff there is one and every noticing tick was within the grace, else `lost` |
| PollAttach.ExitedComes | packages/container-runtime/src/fake.ts:516-525 | once a code is recorded, an attachment that rests or is in its exit check ends with that code after at most seven steps of its own, whatever runs in between, with the whole file delivered |
| PollAttach.LostComes | packages/container-runtime/src/fake.ts:526-532 | a dead agent without a code, found dead longer ago than the grace, is reported lost after at most 14 steps of a resting attachment's own |
| PollAttach.TickEnds | packages/container-runtime/src/fake.ts:513-536 | after at most 16 of its own steps the attachment has rested or ended, so it looks again and again |
| PollAttach.EarlyAttachLostIff | packages/container-runtime/src/fake.ts:475-479 | an attach before the pid file is written is lost at once iff there is no exit file when it looks |
| PollTick.PollAttachment.constructor | packages/container-runtime/src/fake.ts:457-480 | opening is the protocol's pid check, then the entry check, with the agent free in between |
| PollTick.PollAttachment.Pump | packages/container-runtime/src/fake.ts:501-512 | a pump is the protocol's two steps: the size, then the bytes up to it |
| PollTick.PollAttachment.CheckExit | packages/container-runtime/src/fake.ts:516-525 | the exit check pumps again and ends exactly on a readable code, with that code, each query a protocol step |
| PollTick.PollAttachment.Tick | packages/container-runtime/src/fake.ts:513-536 | one timer handler leaves exactly the state the protocol's own steps lead to, whatever the agent does between any two; with a code recorded before it, it ends the attachment with that code and the whole file delivered |
| PollTick.PollAttachment.Close | packages/container-runtime/src/fake.ts:468-473 | closing ends the attachment as detached, and changes nothing once it ended |
| RunSupervisors.OneAgent | packages/container-runtime/src/run-protocol.ts:129-144 | after any run of starts, exits, crashes, kills, restarts and pid reuse at most one published supervisor lives, the pid file names exactly it, and the scripts find it |
| RunSupervisors.RefusedTouchesNothing | packages/container-runtime/src/run-protocol.ts:184-204 | a start that cannot stop the previous supervisor leaves every file under its name and with its contents, but for output added by the agents that hold it and the exit file that supervisor writes itself |
| RunSupervisors.StartedIsOwn | packages/container-runtime/src/run-protocol.ts:257-261 | a start that reports a pid reports its own supervisor's |
| RunOutput.BytesNeverMix | packages/container-runtime/src/run-protocol.ts:206-216 | with outputs opened while their supervisor lives, every output inode holds one attempt's bytes, and every attachment's stream is a segment of one of them |
| RunOutput.OutputOnlyGrows | packages/container-runtime/src/run-protocol.ts:236-245 | and no output inode is ever truncated or rewritten by what follows |
| RunBytes.OutputIsWritten | packages/container-runtime/src/run-protocol.ts:206-216 | an attempt's output file holds byte for byte what its agent and stragglers wrote to it, once and in order, whatever other attempts do |
| RunOutput.AttachGetsAll | packages/container-runtime/src/run-protocol.ts:279-283 | a new attachment gets the file that the output's name leads to, and all of it from the offset asked for |
| RunOutput.ReaderCatchesUp | packages/container-runtime/src/run-protocol.ts:279-283 | an open attachment has, after one read of what is left, all of its file from its start on |
| RunOutput.ExitRecorded | packages/container-runtime/src/run-protocol.ts:166-168 | a supervisor that records its agent's exit leaves an exit file, every name where it was and the outputs as they were |
| RunOutput.NameIsDescriptor | packages/container-runtime/src/fake.ts:420-434 | while a supervisor lives, the output's name leads to the file its agent holds, so appending by name appends there too |
| RunOutput.HandoversExactlyOnce | packages/container-runtime/src/run-protocol.ts:265-287 | attachments to one output file over starts, exits and restarts, each from where the last stands, took its bytes once and in order |
| RunLateOpen.LateOpenApartIff | packages/container-runtime/src/run-protocol.ts:153-168 | in any reachable directory, an agent that opens its output now shares it with no other attempt in any continuation iff that file is empty, no living agent holds it or has still to open its own, no supervisor has still to start its agent, and no start is past moving the output aside |
| RunLateOpen.LateOpenUnsafe | packages/container-runtime/src/run-protocol.ts:158 | reachable directories in which a late agent is not safe: the next attempt's agent has opened the output, or is still to |
| RunLateOpen.LateOpenSafe | packages/container-runtime/src/run-protocol.ts:206-216 | a reachable directory, after a pod restart, in which a late agent is safe |
| RunLateOpen.UnsafeSpoils | packages/container-runtime/src/run-protocol.ts:236-255 | from every unsafe state, a run of living agents and supervisors after which another attempt's byte is in the late agent's file |
| RunStarts.AttemptComesUp | packages/container-runtime/src/run-protocol.ts:229-262 | with no supervisor left, a start can run through to its started marker under any free pid, and then the directory holds the six files it makes and the new pid file, all of them new, an empty output among them, and every earlier file is as it was |
| RunStarts.ReplacesPrevious | packages/container-runtime/src/run-protocol.ts:184-262 | a start over a live supervisor that goes when told to ends with its own supervisor up and found, its own new files in the directory, the old supervisor gone and the old descriptors where they led |
| RunStops.AimedAtSupervisors | packages/container-runtime/src/run-protocol.ts:130-139 | over every run, however pids are reused, what the pid file leads a start or a kill to is a supervisor of this directory |
| RunStops.FoundIff | packages/container-runtime/src/run-protocol.ts:129-140 | over every run a pid is found iff it is that of the supervisor the pid file names, alive or a zombie |
| RunStops.RefusedAfterWaits | packages/container-runtime/src/run-protocol.ts:191-203 | a start that finds a supervisor which goes on answering is refused after two waits of a hundred polls, and not before, with everything as it was |
| RunStops.PassedOver | packages/container-runtime/src/run-protocol.ts:191-203 | a zombie, which the scripts count as gone, is passed over in four steps |
| RunStops.NeverFails | packages/container-runtime/src/run-protocol.ts:256-261 | from the launch on, whatever runs, a start whose supervisor lives waits for that supervisor or has reported its pid |
| RunStops.ReportsPublished | packages/container-runtime/src/run-protocol.ts:257-261 | and its next look after the pid file is there reports that pid |
| RunStops.FailsIff | packages/container-runtime/src/run-protocol.ts:257-258 | a start fails iff its supervisor is gone and left no pid file |
| RunStops.StopMeetsIff | packages/container-runtime/src/run-protocol.ts:191-204 | when the pid still answers, the process that is killed, or that the start is refused for, is a live supervisor iff it is no zombie and has the start time the pid file gave; if not, no supervisor lives |
| RunStops.StrangerStopped | packages/container-runtime/src/run-protocol.ts:195-202 | a run in which the pid comes round again during the wait, and the stranger is killed and the start refused with no supervisor left |
| RunStarts.NamedKillHitsNewer | packages/container-runtime/src/run-protocol.ts:310-315 | a run in which a kill meant for the first attempt hits the second, whose pid came round again |
| RunStdin.ForwardedIsPrefix | packages/container-runtime/src/run-protocol.ts:160-164 | over all interleavings the forwarded lines are a prefix of the file's lines before the first sentinel, and the agent's stdin is closed only at that sentinel with all of them forwarded |
| RunStdin.FeederCatchesUp | packages/container-runtime/src/run-protocol.ts:160-164 | after any deliveries, a feeder that goes on forwards every line before the first sentinel, and closes the agent's stdin iff the sentinel is in |
| RunStdin.AcknowledgedOnce | packages/container-runtime/src/run-protocol.ts:289-308 | every acknowledged line but the sentinel is in that sequence at a place of its own, in lock order |
| RunStdin.DeliveryGoesIn | packages/container-runtime/src/run-protocol.ts:297-308 | a deliverer that finds the lock free and no sentinel is acknowledged, with its line whole at the end of the file |
| RunStdin.LineGoesInIff | packages/container-runtime/src/run-protocol.ts:501-518 | from its arrival on, a line goes in at a free lock iff it has neither a carriage return nor a newline, and one that has is turned away with nothing changed |
| RunStdin.LockComesFree | packages/container-runtime/src/run-protocol.ts:303-306 | whoever holds the lock has a way to its end that frees it, and severed before or after its append it frees it at once |
| RunStdin.SeveredWaiting | packages/container-runtime/src/run-protocol.ts:303-304 | a deliverer severed while it waits never appends |
| RunStdin.ClosedForever | packages/container-runtime/src/run-protocol.ts:292-295 | once the sentinel is in, the file never changes again |
| RunStdin.RefusedThenOn | packages/container-runtime/src/run-protocol.ts:292-305 | from then on no delivery is acknowledged that was not appended before, whoever comes |
| ProcessStdin.FeederAgrees | packages/container-runtime/src/process.ts:170-172 | after any start and deliveries the child got exactly what the supervisor's feeder would forward of the file, and its stdin is ended iff the sentinel is there |
| ProcessStdin.FileIs | packages/container-runtime/src/process.ts:127-127 | the file is the initial stdin as given and behind it the lines delivered before the sentinel came, its own included |
| ProcessStdin.FeederAgreesIff | packages/container-runtime/src/process.ts:245-282 | for any initial stdin, the child got what the file says iff that stdin is whole lines, or holds the sentinel, or nothing was delivered |
| ProcessFile.AlwaysExact | packages/container-runtime/src/process.ts:151-156 | over any run of starts, chunks, exits, attachments and closes in which each start found earlier stdouts ended, the file holds the current child's output, every attachment is exact, the open ones have all of it, and only the current child may still run |
| ProcessFile.OwnIsWritten | packages/container-runtime/src/process.ts:151-156 | a child's output is byte for byte what it wrote while its stdout was open, before its exit or after, whatever else ran |
| ProcessFile.ExitDelivers | packages/container-runtime/src/process.ts:163-168 | an exit ends each open attachment to its child with all the child wrote from its start on |
| ProcessFile.CloseEnds | packages/container-runtime/src/process.ts:235-242 | a closed attachment keeps what it has through everything after |
| ProcessFile.StdoutEnded | packages/container-runtime/src/process.ts:151-156 | a child whose stdout ended writes nothing more |
| ProcessFile.HandoversExactlyOnce | packages/container-runtime/src/process.ts:207-242 | attachments to one child that each started where the last stands took its output once, from the first start to the last position |
| ProcessFile.StartKeepsApartIff | packages/container-runtime/src/process.ts:123-127 | in every continuation of a start up to the next one, failed or not, the file holds its child's output only, and every attachment is exact, iff each earlier child had ended its stdout |
| ProcessFile.LateOutputSpoils | packages/container-runtime/src/process.ts:151-156 | from a start with an earlier child still writing, a run that mixes the file and one that spoils an attachment |
| ProcessFile.EarlyStart | packages/container-runtime/src/process.ts:119-122 | a run in which a start comes while an exited child's stdout is still open |
| ProcessFile.FailedStartLosesIff | packages/container-runtime/src/process.ts:123-136 | in every continuation of a failed start up to the next start, each attachment to the run before gets all it is owed iff that run's output was empty, and none gets wrong bytes iff it was empty or its stdout had ended |
| ProcessFile.FailedStartLoses | packages/container-runtime/src/process.ts:123-136 | runs in which an attachment after a failed start gets nothing of two bytes, and one gets the last two of the four it is owed |
| ProcessRun.ReadFromByte | packages/container-runtime/src/process.ts:311-329 | the read loop gives exactly the file's bytes from `from` to `to`, none when there are none |
| ProcessRun.Attachment.OnData | packages/container-runtime/src/process.ts:210-218 | a chunk is the model's step and keeps an open attachment at everything it was given from `from` on |
| ProcessRun.LiveRun.OnStdout | packages/container-runtime/src/process.ts:151-156 | a chunk, before the exit or after, is appended to the file as it is now and taken by every subscriber; attachments that ended keep output and exit |
| ProcessRun.LiveRun.OnExit | packages/container-runtime/src/process.ts:163-168 | every subscribed attachment ends with the code and all it was given; the others are unchanged |
| ProcessRun.LiveRun.Attach | packages/container-runtime/src/process.ts:207-234 | a new attachment from any offset has what the shared file holds from there up to the child's count, all the child wrote while the file holds only that, and follows, or ends at once with the code |
| ProcessRun.LiveRun.Close | packages/container-runtime/src/process.ts:235-242 | the first close detaches with all it was given delivered; a later one changes nothing |
| ProcessRun.LiveRun.Feed | packages/container-runtime/src/process.ts:267-282 | feeding writes the text's lines before the sentinel, ends stdin at it, and writes nothing after |
| ProcessRun.LiveRun.WriteLines | packages/container-runtime/src/process.ts:274-281 | the loop stops at the first sentinel with the lines before it written |
| ProcessRun.LiveRun.DeliverStdin | packages/container-runtime/src/process.ts:245-250 | a delivery is refused iff the run is over or its stdin closed, and a refused one changes nothing |
| ProcessRun.ProcessRuntime.StartRun | packages/container-runtime/src/process.ts:115-174 | each refusal exactly in its case, leaving table and output as they were; a failed spawn leaves the table but the output emptied; a start adds one child over an emptied output |
| ProcessRun.ProcessRuntime.KillRun | packages/container-runtime/src/process.ts:252-265 | a kill aims at the run's unexited child and no other, with a pid only at that one, and succeeds iff either form of the signal goes through |
| ProcessRun.ProcessRuntime.OneChild | packages/container-runtime/src/process.ts:119-122 | a run id has at most one unexited child |
| ProcessRun.RunDirInside | packages/container-runtime/src/process.ts:299-304 | an accepted run directory is absolute, has no component `..` and nothing a shell would read |
| ProcessRun.RunDirAccepted | packages/container-runtime/src/process.ts:50-50 | every absolute path of plain names is accepted |
| ProcessRun.RunIdIff | packages/container-runtime/src/process.ts:49-49 | a run id is accepted iff it is 1 to 128 letters, digits, `_` and `-`, the first a letter or digit |
| ExecAttach.ExitLineRoundTrip | packages/container-runtime/src/run-protocol.ts:359-367 | the marker line of any code parses to that code |
| ExecAttach.NoMarkerNone | packages/container-runtime/src/run-protocol.ts:359-367 | a line in which neither marker text stands at any position says nothing |
| ExecAttach.ParseIntReads | packages/container-runtime/src/run-protocol.ts:363-364 | the numeral is read with its sign, behind white space, up to the first character that is no digit |
| Decimal.FirstCountsMost | packages/container-runtime/src/run-protocol.ts:364-364 | a numeral is read with its first digit counting most |
| ExecAttach.ChunksIrrelevant | packages/container-runtime/src/run-protocol.ts:454-463 | for every chunking the reader stands at the first marker among the complete lines of all of stderr, with the same unfinished rest |
| ExecAttach.ScanLines | packages/container-runtime/src/run-protocol.ts:456-462 | the scan of a buffer settles on the first marker among its complete lines, unless settled before, and keeps the unfinished line |
| ExecAttach.ExitOfEvents | packages/container-runtime/src/run-protocol.ts:444-498 | for every sequence of events the exit is reported once the output ended or was abandoned and stderr said how, and is the first marker of stderr as a whole, or detached as it was |
| ExecAttach.SeveredIsDetached | packages/container-runtime/src/run-protocol.ts:464-471 | for every sequence of events whose stderr has no line with a marker text in it, the exit is `detached`, `closed` iff a close came before stderr ended, none while stderr goes on, and never `lost` |
| ExecAttach.MarkerDecides | packages/container-runtime/src/run-protocol.ts:454-467 | the first line of stderr with a marker, white space around it or not, complete or last, is what is reported, whatever comes behind it |
| ExecAttach.SettlesOnce | packages/container-runtime/src/run-protocol.ts:446-453 | a value reported stays through every further event |
| ExecAttach.ExecAttachment.OnStderrData | packages/container-runtime/src/run-protocol.ts:454-463 | the handler with its loop takes the model's step for that event |
| ExecAttach.ExecAttachment.OnStderrEnd | packages/container-runtime/src/run-protocol.ts:464-470 | so does the end of stderr: an unterminated marker, else detached, and the promise |
| AttachScript.ReportedIff | packages/container-runtime/src/run-protocol.ts:284-285 | over all interleavings with the supervisor's recording and death, lost is reported iff no code was begun, and the code begun iff it was written by then, or is 1 |
| AttachScript.ExitInTime | packages/container-runtime/src/run-protocol.ts:284-285 | a code recorded within the script's first 20 steps is reported, 23 steps later at the latest |
| AttachScript.LostAfterPolls | packages/container-runtime/src/run-protocol.ts:284-285 | without an exit file it reports lost two steps after its polls |
| AttachScript.ReportsWhenThere | packages/container-runtime/src/run-protocol.ts:284-285 | with an exit file there, three steps report |
| AttachScript.KilledReadsAsOne | packages/container-runtime/src/run-protocol.ts:168 | a supervisor killed while it records any code is reported to have exited with 1 |
| HereDoc.ScriptRoundTrip | packages/container-runtime/src/run-protocol.ts:153-171 | for every accepted agent command, and the supervisor with its lines going on in any way, the shell writes exactly the agent's and the supervisor's text and goes on with the rest of the script |
| HereDoc.DocumentsRoundTrip | packages/container-runtime/src/run-protocol.ts:217-252 | so it does for any second text that has no delimiter line |
| HereDoc.AcceptedIff | packages/container-runtime/src/run-protocol.ts:223-228 | an agent command is refused iff one of the two delimiters stands somewhere in its text |
| HereDoc.AcceptedClear | packages/container-runtime/src/run-protocol.ts:224-228 | an accepted command has no line that ends its document |
| HereDoc.DocumentReadBackIff | packages/container-runtime/src/run-protocol.ts:247-252 | a here-document gives its text back iff its delimiter is none of its lines |
| LogStream.LineSplitter.Push | apps/api/src/services/run-attachment.ts:801-813 | a chunk gives exactly the lines it completes, at their offsets, and keeps the rest |
| LogStream.SplitLines | apps/api/src/services/run-attachment.ts:805-810 | the loop gives every complete line of a buffer with its end offset |
| LogStream.PushIsFileLines | apps/api/src/services/run-attachment.ts:786-791 | pushed chunk by chunk, the lines and offsets are those of the whole file |
| LogStream.LinesTile | apps/api/src/services/run-attachment.ts:794-824 | the lines tile the file: each is the bytes from where the last ended up to a newline or the end, and has none in it |
| LogStream.EndedIsInert | apps/api/src/services/run-attachment.ts:933-968 | a stream that saw its exit, or was stopped, does nothing any more |
| LogStream.EachLineOnceIff | apps/api/src/services/run-attachment.ts:824-834 | over all interleavings of output, claims, chunks, exits, crashes and stale holders, the rows are the file's first lines in order, each once, and the offset is where they end, iff no exit of a holder found an unstored unfinished line that the output then went on behind |
| LogStream.EachLineOnce | apps/api/src/services/run-attachment.ts:824-834 | with exits only behind the last byte: always |
| LogStream.ExitTearsIff | apps/api/src/services/run-attachment.ts:963-968 | when the holder sees `exited` with a tail pending, the rows stay the file's lines in a continuation iff no byte comes behind what it had received |
| LogStream.ExitTears | apps/api/src/services/run-attachment.ts:963-968 | a run, for any cut line and any bytes after it, in which they do not |
| LogStream.EveryLineAtExit | apps/api/src/services/run-attachment.ts:963-968 | when the run's holder sees `exited` with all output received, the rows are all its lines, iff no exit cut one before |
| LogEntries.BatchRows | apps/api/src/services/run-attachment.ts:864-900 | the loop over a batch makes the entries of its new lines, in order and as many as these have, and ends at the last new line's end |
| LogEntries.EntriesOnce | apps/api/src/services/run-log-service.ts:228-275 | for any parser, over every interleaving in which no exit cut a line, the log table holds what it makes of the file's lines up to the offset, each once and in order |
| LogEntries.EntriesInPlace | apps/api/src/services/run-attachment.ts:888-897 | so the table is as long as those lines have entries, entry j of line i stands behind all of the lines before it, and with one entry a line entry i is that of line i |
| LogStream.BatchInv | apps/api/src/services/run-log-service.ts:228-275 | a batch commits the new rows with the offset, or leaves both as they were, and a holder that lost the run stops |
| LineReaders.LineByLineIsWhole | packages/agent-adapters/src/types.ts:41-58 | for a pattern that never looks past a newline, the first match line by line is the whole text's leftmost |
| LineReaders.MatchIsLeftmost | packages/agent-adapters/src/types.ts:41-58 | a match is the one at the first position where the pattern matches, and there is none iff it matches nowhere |
| LineReaders.FirstMatch.PushAll | packages/agent-adapters/src/types.ts:32-39 | feeding a whole output leaves the first line's match that there is |
| LineReaders.FollowLogs | packages/container-runtime/src/docker.ts:102-114 | for every chunking, the lines yielded are those the whole text would have given |
| LineReaders.WholeLogs | packages/container-runtime/src/docker.ts:115-121 | the non-blank lines of the text, in order |
| LineReaders.NonBlankIs | packages/container-runtime/src/docker.ts:107-120 | line by line and in order: a line is yielded iff it has a character that is no white space |
| KotlinText.ChainIsCharacterwise | packages/shared/scripts/gen-kotlin.ts:195-205 | the chain of whole-string replacements is one escape per character |
| KotlinText.LiteralRoundTrip | packages/shared/scripts/gen-kotlin.ts:195-205 | the literal of every UTF-16 text reads back as that text and ends at its own quote, whatever follows |
| KotlinText.BodyIsClean | packages/shared/scripts/gen-kotlin.ts:196-203 | no control character in the body, and every quote or dollar sign behind a backslash |
| KotlinText.PlainStays | packages/shared/scripts/gen-kotlin.ts:195-205 | a text with nothing to escape stands as it is between its quotes |
| KotlinNames.PickName | packages/shared/scripts/gen-kotlin.ts:344-347 | the suffix loop ends, at the first choice if free, else at the least free suffix |
| KotlinNames.StringEnumNames | packages/shared/scripts/gen-kotlin.ts:332-352 | pairwise distinct entry names, none `UNKNOWN`, each the pick after those before it; distinct bases other than `UNKNOWN` keep their names |
| KotlinNames.IntEnumNames | packages/shared/scripts/gen-kotlin.ts:371-379 | pairwise distinct entry names, each the pick after those before it; distinct bases keep their names |
| KotlinNames.PicksKeep | packages/shared/scripts/gen-kotlin.ts:338-348 | a base keeps its name when no case before it got it; `UNKNOWN` becomes `UNKNOWN_VALUE` when that is free |
| KotlinNames.PicksUnique | packages/shared/scripts/gen-kotlin.ts:345-347 | the cases determine the names |
| KotlinNames.NullableIff | packages/shared/scripts/gen-kotlin.ts:254-264 | a type is nullable iff its alias chain reaches an optional alias, on cyclic graphs too |
| Watch.SortIsUnique | apps/ios/Shared/WatchActivity.swift:288-295 | the pending order leaves one sorted list of items with distinct ids |
| Watch.SortNewestSorted | apps/ios/Shared/NeedsYouSnapshot.swift:57-57 | the running list is newest first, the same items, those of one time in their given order |
| Watch.WhoWaits | apps/ios/Shared/NeedsYouSnapshot.swift:56-57 | an item waits as often as it is listed iff no `Later` window of it is open at the snapshot's time; else it runs |
| Watch.PhaseIs | apps/ios/Shared/NeedsYouSnapshot.swift:54-67 | offline iff there are hosts and none is online, else waiting iff some item waits, else working; with the tiles and times of each |
| Watch.WaitingHead | apps/ios/Shared/NeedsYouSnapshot.swift:58-64 | the head is an item that waits, a question if any does, and none of its kind is older |
| Watch.WaitingRows | apps/ios/Shared/NeedsYouSnapshot.swift:61-64 | a waiting frame's rows are the first three, and none left out comes before one of them |
| Watch.WorkingRows | apps/ios/Shared/NeedsYouSnapshot.swift:65-66 | a working frame's rows are the three newest, newest first, and none left out is newer |
| Watch.AllListed | apps/ios/Shared/WatchActivity.swift:102-113 | a recomputed frame lists all its phase is about up to three, else the first two, and says how many it leaves out |
| Watch.HandlesIff | apps/ios/Shared/WatchActivity.swift:146-151 | a tap is accepted iff the frame is waiting and shows the item |
| Watch.FrameCountsAll | apps/ios/Shared/NeedsYouSnapshot.swift:54-67 | a recomputed frame counts every item of the snapshot once |
| Watch.HandlingsConserveIff | apps/ios/Shared/WatchActivity.swift:146-166 | after any accepted taps the frame still counts every item of the snapshot once iff at most three items were waiting or at most two taps were made |
| Watch.WaitingAfter | apps/ios/Shared/NeedsYouSnapshot.swift:49-57 | putting one waiting item off takes exactly it out of the waiting list and adds one to the running |
| Watch.HandleTracks | apps/ios/Shared/WatchActivity.swift:138-166 | one handling of a frame that carries a prefix of the waiting list, against the snapshot with that item put off |
| Watch.IncrementalRefines | apps/ios/Shared/WatchActivity.swift:138-145 | handling an item of a recomputed frame gives the recomputed frame's phase and counts; with another waiting its head and a prefix of its rows, and with two or three waiting the frame itself |
| Watch.SuccessiveHandlings | apps/ios/Shared/WatchActivity.swift:138-166 | after any accepted taps the frame agrees with the recomputed one, in phase and counts and, while items wait, in its head and a prefix of its rows, iff at most three items were waiting or at most two taps were made |
| Watch.ThirdTapIsWrong | apps/ios/Shared/WatchActivity.swift:146-166 | for every snapshot with more than three waiting, three taps the frame accepts, after which it shows nothing waiting, disagrees with the recomputed frame and counts too few items |
| Watch.LastHandledAlone | apps/ios/Shared/WatchActivity.swift:159-164 | with nothing else running, handling the only waiting item gives the recomputed frame itself |
| Watch.ListedCovers | apps/ios/Shared/WatchActivity.swift:102-113 | every waiting frame so reached lists a prefix of the waiting items and says how many it leaves out |
| SnapshotMerge.Merged.MergeIn | apps/ios/Shared/NeedsYouSnapshot.swift:34-44 | merging in place is the merge function on snapshots |
| SnapshotMerge.FilterFresh | apps/ios/Shared/NeedsYouSnapshot.swift:35-40 | the filter with its growing set keeps the items not seen before, and has seen them all after |
| SnapshotMerge.LoadAll | apps/ios/Shared/NeedsYouSnapshot.swift:186-218 | the answers folded in server order, the failed servers named, nothing iff none answered |
| SnapshotMerge.AnswersAre | apps/ios/Shared/NeedsYouSnapshot.swift:204-214 | answer by answer and in order: each gives its snapshot, or when it has none its server's id if that has one |
| SnapshotMerge.MergeAssociative | apps/ios/Shared/NeedsYouSnapshot.swift:27-44 | merging is associative for any three snapshots |
| SnapshotMerge.MergeIdentity | apps/ios/Shared/NeedsYouSnapshot.swift:25-44 | the empty snapshot is a right identity, and a left one up to the time iff ids are distinct |
| SnapshotMerge.LoadedHolds | apps/ios/Shared/NeedsYouSnapshot.swift:27-33 | a fold of servers has distinct ids, their union, each item as its first copy in the list that copy was in, the sums of hosts, and each tile summed over the servers that have tiles, none iff no server has any |
| SnapshotMerge.FoldConserves | apps/ios/Shared/NeedsYouSnapshot.swift:302-309 | from any well-formed start, folding keeps ids distinct, loses and invents none, adds new items behind those there, and sums hosts and, field by field over those that have them, tiles |

## Left out

- PollAttach.NoLostOrTornTail: is for an agent that wrote its pid file (`PollAttach.EarlyAttachLostIff` has the other case), and says nothing of the bytes when the run is found lost on attaching, because the attachment then ends without reading any; a missing output file, which ends it the same way, is not modelled.
- RunSupervisors.OneAgent: counts supervisors that published their pid file; one that publishes after its starter gave up is outside the assumptions above.
- RunSupervisors.RefusedTouchesNothing: allows an output made by a late agent where there was none.
- RunOutput.BytesNeverMix: is for outputs opened while their supervisor lives; `RunLateOpen.LateOpenApartIff` has the others.
- ProcessRun.LiveRun.OnExit: a last chunk that comes after the exit event is appended but not delivered by attachments that ended; attaching again delivers it.
- ExecAttach.ExitLineRoundTrip: numerals that overflow a double, which JavaScript reads as infinity and the code then as 1, are read as whole numbers.
- HereDoc.ScriptRoundTrip: of the supervisor's lines only how each begins is given; what they go on with is any text without a newline.
- LogEntries.EntriesOnce: the parser is any function of a line's bytes; decoding, the blank-line test and the cleaning of an entry are part of it.
- KotlinNames.StringEnumNames: takes the upper-case base of each case as given; the splitting by regular expressions is not modelled.
- Watch.SortIsUnique: ids are ranks in the order of their strings; the running list is sorted stably, which the source's sort does not promise for equal times.
- The half seconds between an attach script's 20 polls: over exec a run may be reported lost whose exit is written later.
- Waits of 5 s and 10 s are polls that may end at any state of the other process.
- The fake's exit file is read by name, so an old attachment may see a later attempt's exit code.
- The fake's kill looks for an exit file first, and its delivery is one step without a lock.
- An attachment of the process runtime to a run it does not know, which reads the finished files.
- Decoding of UTF-8 characters cut by a chunk boundary of stderr or the container log.
- What `match` returns beside the leftmost match: its index within the line.
- Spawning, signals, timers, Kubernetes and Docker calls, WebSockets, the fake's scripted tape: steps of the environment, or not modelled.
- Attach leases and the reconciler: the model has only the holder mark and the offset they guard.
