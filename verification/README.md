# Verified model of the OnStep adapter

This project models the parts of the OnStep mount adapter whose correctness depends on state, on arithmetic
or on the order of events, and proves what they promise. The model is Dafny 4.11; `dafny verify dfyconfig.toml`
checks all of it.

What it covers, one or two files to a part:

- **TCP reassembly** (`Reassembly`, `ReassemblyProofs`, `Importer`): how a capture's segments become byte
  streams. Sequence numbers are modulo 2^32 (section 3.4 of RFC 9293); the proofs read them as offsets in an
  unbounded stream.
- **Logs** (`Consolidation`, `TraceLog`, `Operations` and their `Proofs`): merging repeated entries, recording
  into daily files and splitting them into sessions, and cutting a trace into operations.
- **Motion handles** (`Motion`, `MotionProofs`): one worker per handle, any number of stoppers and starters, as
  interleaved atomic steps.
- **Protocols against a device that may do anything** (`Indi`, `Transport`, `Confirmation`, `Looks`, `Stop`,
  `HomeRouter`, `Focuser`, `Preflights`, `Tracking`, `GuidePlan`, `Guide`, `Axis`). Device, network and clock are an
  arbitrary finite script of moments: each says which vectors arrive, whether the reader breaks, how much time is
  left, whether a stop is requested and whether the next call fails. The end of the script is a time-out. The
  contracts speak of what was tried, sent, received, checked and looked at; a revision counts receptions, so "a
  higher revision" means "received later". They also count mishaps, that is calls on the transport that failed and
  looks at a clock run out, so that each protocol can be held to giving up for a cause: without a mishap, a stop
  request, or an update or look that ends it, it succeeds.
- **Meridian** (`Meridian`): boundaries, classification and the supervisor's deadline.
- **Virtual mount** (`VirtualMount`, `SlewProofs`, `MockServer`, `MountProofs`): commands, ticks, slews, the writes of
  a client, and what a guide chunk of the client does to the mount.
- **Smaller pieces**: LX200 command splitting (`Lx200`, `Lx200Proofs`), coordinate texts (`Coordinates`,
  `Angles`), and the serial mount's tracking guard (`TrackingGuard`).

Where the source updates fields, the model is a class whose methods are proved equal to a function on values, or
to a property of everything that was sent and seen; the lemmas are about those. Hours, degrees and seconds are
exact reals, milliseconds and revisions are integers.

Where the code does not do what one might expect of it, the model follows the code and says exactly when:

- A resend under the same sequence number replaces a pending segment even if it is shorter, and can stall the
  flow (`ForgetsIffLoses`, `ShorterResendStalls`). A second SYN rewinds a flow (`RepeatedSyn`).
- A session's entries come back in order exactly when its UTC days never go backwards (`EntriesComeBackInOrder`,
  `SlippedDayReverses`).
- A stop request can fall between the check and the write of a motion command, and only such a one is followed by a
  write (`WriteAfterStopIsPossible`, `WriteAfterStopIff`). An axis move looks for one before it sets SLEW and not
  again before it sends its target (`AxisMover.Launch`).
- Asking for the HOME authority revokes it when the status shows trouble, is unreadable or shows PARK, and every
  observation asks. So the preflight of a HOME or PARK move may end the authority although the move is refused;
  apart from that a refused or stopped HOME move leaves it, so it may stand although the mount has left HOME
  (`Router.Look`, `PreflightKeepsIff`, `Router.GoHome`).
- HOME and UNPARK take their baseline before the command: HOME's second sample is received after it, the only
  sample of UNPARK or of its TRACK_OFF need not be (`FollowsCommand`, `UnparkConfirmedTooEarly`).
- The status that ends a guide chunk need only be newer than its preflight's, and the okay of the guide vector only
  newer than its entry before the command: both can arrive before the chunk is sent and end it (`OverBy`,
  `OkayedBy`, `ChunkOverBeforeItBegan`), against the promise of a post-command status.
- The preflight of HOME asks for a fresh stationary status but lets an unreadable one pass
  (`UnreadableStatusPasses`).
- The two commands of a verified stop are independent of each other's failures only for the four exceptions that
  are caught; any other exception at the abort leaves TRACK_OFF untried (`SendStop`, `AbortFailureSkipsTrackOff`).
- The guide controller accepts chunk sizes from 20 ms, but below 39 ms some pulses get a chunk shorter than the
  shortest pulse (`ShortChunkIff`, `SafeChunkSizeIff`).
- The meridian supervisor holds a due stop back until its clock shows three seconds, or until three seconds after
  the last one (`YoungClockHoldsBack`, `FirstStopIff`, `StopsWhenDue`).
- A verified disable of tracking succeeds on a controller that falls silent, after a status without tracking or
  without ever returning one (`DisableVerified`, `SilentControllerSucceeds`, `OldStatusSucceeds`).
- An unterminated LX200 tail of more than 256 characters loses bytes (`NothingLostIff`, `LongTailIsCut`).
- A declination of minus zero prints with a plus sign (`DecTextRoundTripIff`).
- The virtual mount can end up parked and tracking (`ParkedMayTrack`), through two kinds of steps only
  (`RestfulStepIff`).

## Model

| member | source | states |
|---|---|---|
| `Reassembly.Flow.TakeNext` | onstep_adapter/capture/pcap.py:176-191 | taking the next payload changes the flow exactly as the reference function on values does, on every branch |
| `Reassembly.Flow.DrainAll` | onstep_adapter/capture/pcap.py:160-169 | the loop empties everything in order; its pending count falls each round |
| `Reassembly.Flow.Feed` | onstep_adapter/capture/pcap.py:152-169 | one segment, SYN or data, has exactly the specified effect on the flow and its counters |
| `ReassemblyProofs.TakeIsInOrder` | onstep_adapter/capture/pcap.py:178-191 | what is taken is the next piece of the stream, although only 32-bit numbers are compared |
| `ReassemblyProofs.TakeKeepsKnown` | onstep_adapter/capture/pcap.py:178-191 | taking one entry neither loses nor invents a byte of the stream |
| `ReassemblyProofs.BehindIsPicked` | onstep_adapter/capture/pcap.py:183-190 | a segment that starts before the expected byte is the first thing taken |
| `ReassemblyProofs.DrainDelivers` | onstep_adapter/capture/pcap.py:160-169 | the drain loop hands on exactly the next bytes of the stream and stops only in front of a gap |
| `ReassemblyProofs.FeedDelivers` | onstep_adapter/capture/pcap.py:155-169 | one segment anywhere in the window leaves the flow settled, with the bytes of the segment and of every entry it did not replace |
| `ReassemblyProofs.ReassemblyIsExact` | onstep_adapter/capture/pcap.py:149-169 | for any arrival order, overlap and repetition, the payloads passed on are the stream from its start to the frontier, and the next number is that frontier modulo 2^32 (section 3.4 of RFC 9293) |
| `ReassemblyProofs.ForgetsIffLoses` | onstep_adapter/capture/pcap.py:159 | a segment makes the flow forget a byte exactly when it resends the start of a longer pending segment whose tail nothing else covers |
| `ReassemblyProofs.LongerResendIsSafe` | onstep_adapter/capture/pcap.py:159 | a resend that is not shorter than what it replaces loses nothing |
| `ReassemblyProofs.KnowsWhatItWasFed` | onstep_adapter/capture/pcap.py:149-169 | a flow knows only bytes it was fed, and all of them if nothing was lost |
| `ReassemblyProofs.ByteStep` | onstep_adapter/capture/pcap.py:155-169 | exactly which bytes a flow knows after one more segment: those it carries and those known before that it does not alone replace |
| `ReassemblyProofs.KnownIff` | onstep_adapter/capture/pcap.py:149-169 | over any run a flow knows a byte exactly when it was fed and not lost to a shorter resend since it was last fed |
| `ReassemblyProofs.ReassemblyIsMaximal` | onstep_adapter/capture/pcap.py:160-169 | if no resend lost bytes, delivery reaches the end of the longest contiguous prefix of everything fed |
| `ReassemblyProofs.MaximalIff` | onstep_adapter/capture/pcap.py:149-169 | delivery reaches the end of the longest contiguous prefix of everything fed exactly when the byte at the frontier is not missing; bytes lost further on or fed again do not matter |
| `ReassemblyProofs.ArrivalOrderDoesNotMatter` | onstep_adapter/capture/pcap.py:149-169 | two arrival orders of the same segments deliver the same bytes and expect the same number |
| `ReassemblyProofs.SynOpens` | onstep_adapter/capture/pcap.py:152-154 | a SYN opens the flow at the stream offset 0 |
| `ReassemblyProofs.MidConnectionOpens` | onstep_adapter/capture/pcap.py:157-158 | a capture that starts mid-connection behaves as if the first segment had been expected |
| `ReassemblyProofs.RepeatedSyn` | onstep_adapter/capture/pcap.py:152-154 | a second opening SYN leaves the flow in step exactly when nothing was delivered since the first (modulo 2^32) |
| `ReassemblyProofs.RepeatedSynReplays` | onstep_adapter/capture/pcap.py:152-154 | a concrete run in which a repeated SYN delivers a segment twice |
| `ReassemblyProofs.ShorterResendStalls` | onstep_adapter/capture/pcap.py:159 | a concrete run in which a shorter resend stops the flow short of bytes it was fed |
| `ReassemblyProofs.BytesAreConserved` | onstep_adapter/capture/pcap.py:155-169 | for any segments at all, bytes delivered, retransmitted, pending and overwritten add up to the bytes fed |
| `Importer.Import.Step` | onstep_adapter/capture/pcap.py:132-171 | one captured packet keeps every flow equal to a run over its own segments, connections numbered apart and the totals right; the records it causes are named by its endpoints: a connect at the first packet between two ends, a close at the client's FIN or RST |
| `Importer.FlowsAreOfTheirEnds` | onstep_adapter/capture/pcap.py:132-159 | what goes to a captured port is the client's, and what comes from one to any other port the server's; exactly the packets between the two ends of a known connection make up its two flows |
| `Importer.KnownIff` | onstep_adapter/capture/pcap.py:143-149 | a connection is known exactly when a packet between its two ends came without RST |
| `Importer.Ends` | onstep_adapter/capture/pcap.py:133-138 | which flow a packet belongs to, by its endpoints alone |
| `Importer.Import.Deliver` | onstep_adapter/capture/pcap.py:155-169 | one segment moves its own flow only and hands its payloads to the writer in order |
| `Importer.Import.Connect` | onstep_adapter/capture/pcap.py:143-147 | a connection is numbered once, at its first packet without RST |
| `Importer.Import.Enroll` | onstep_adapter/capture/pcap.py:143-149 | packets of a connection that never opened are ignored; the connect record names the end that is the client |
| `Importer.Import.CloseFlow` | onstep_adapter/capture/pcap.py:170-171 | a FIN or RST from the client closes its own connection |
| `Consolidation.FindRuns` | onstep_adapter/tools/trace_consolidate.py:97-113 | the first loop finds, for every entry, the head of its run and all members of every run |
| `Consolidation.Consolidate` | onstep_adapter/tools/trace_consolidate.py:93-126 | both loops together produce the specified output |
| `ConsolidationProofs.AsRecorded` | onstep_adapter/tools/trace_consolidate.py:48-90 | which records end every run, and which repeat the head of theirs, by their fields |
| `ConsolidationProofs.RunsAreUnbroken` | onstep_adapter/tools/trace_consolidate.py:101-113 | an entry belongs to a run exactly when everything of its stream in between and itself repeats the head, within the tolerance, and no session, connection, call, motion, decode error or client write came between |
| `ConsolidationProofs.HeadIff` | onstep_adapter/tools/trace_consolidate.py:97-113 | an entry heads a run exactly when it ends none and no earlier run takes it in |
| `ConsolidationProofs.OutputIs` | onstep_adapter/tools/trace_consolidate.py:115-126 | the output, entry by entry: a run of at least two and at least the threshold's entries is one entry with its count, its other members are left out, session records are marked, and everything else stays verbatim |
| `ConsolidationProofs.ClosedRunsStayClosed` | onstep_adapter/tools/trace_consolidate.py:101-113 | a run that is no longer open gains no members |
| `ConsolidationProofs.PrefixIsShown` | onstep_adapter/tools/trace_consolidate.py:115-126 | after any prefix, the output expanded shows everything recorded and beyond it only copies of the open run |
| `ConsolidationProofs.ConsolidationIsLossless` | onstep_adapter/tools/trace_consolidate.py:93-126 | expanding the output gives every stream as many entries as recorded, barriers in place, each entry the same within the tolerance |
| `ConsolidationProofs.ExactWithoutTolerance` | onstep_adapter/tools/trace_consolidate.py:73-78 | with tolerance 0 the expanded contents are exactly the recorded ones |
| `ConsolidationProofs.RepeatCountsSumUp` | onstep_adapter/tools/trace_consolidate.py:115-131 | repeat counts of the output sum to the number of input entries |
| `ConsolidationProofs.OutputKeepsOrder` | onstep_adapter/tools/trace_consolidate.py:115-126 | output entries come from input entries in the input order |
| `ConsolidationProofs.OpenRunsMove` | onstep_adapter/tools/trace_consolidate.py:101-113 | a second pass has open runs exactly where the first had, at the moved heads |
| `ConsolidationProofs.MembersMove` | onstep_adapter/tools/trace_consolidate.py:101-113 | a run of the second pass has exactly as many members as the first pass left of it in the output |
| `ConsolidationProofs.ConsolidationIsIdempotent` | onstep_adapter/tools/trace_consolidate.py:93-126 | consolidating again with the same settings changes nothing, for any tolerance |
| `ConsolidationProofs.MergedSpansItsRun` | onstep_adapter/tools/trace_consolidate.py:129-140 | a run is merged exactly when it has at least two and at least the threshold's entries; the merged entry is its first with the count, the time, clock and, where they drifted, the values of its last, and the duration if both times are known |
| `TraceLog.Recorder.Put` | onstep_adapter/indi_trace.py:172-209 | recording has exactly the specified effect on the recorder and on the files, with a continuation header on a new day |
| `TraceLog.Recorder.Open` | onstep_adapter/indi_trace.py:151-157 | the waiting header is written when the first file is opened |
| `TraceLog.Recorder.Finish` | onstep_adapter/indi_trace.py:235-249 | closing twice is closing once, and a session without records still leaves its header |
| `TraceLog.CloseIsFinal` | onstep_adapter/indi_trace.py:235-249 | a closed recorder writes nothing more, and closing it a second time changes nothing |
| `TraceLog.SplitSessions` | onstep_adapter/tools/trace_compare.py:89-115 | the loop over records computes the specified sessions |
| `TraceLogProofs.SplitIsFaithful` | onstep_adapter/tools/trace_compare.py:89-115 | each session found is the first header of its id followed by exactly the entries of that id, in order |
| `TraceLogProofs.LinesAreNumbered` | onstep_adapter/indi_trace.py:185-205 | the files are what a session wrote, line by line, and its lines are numbered 1, 2, 3 and so on without a gap: header, continuation headers and entries alike |
| `TraceLogProofs.PerformStores` | onstep_adapter/indi_trace.py:172-249 | the same for a whole session, closing included |
| `TraceLogProofs.FilesHoldEntries` | onstep_adapter/indi_trace.py:194-207 | every day file holds this session's entries of its day in order, and every other session's lines as before |
| `TraceLogProofs.OriginalHeaderFirst` | onstep_adapter/indi_trace.py:151-170 | unless an entry predates the first one, the first header in the first file is the original one |
| `TraceLogProofs.PerformKeeps` | onstep_adapter/indi_trace.py:172-209 | a session recorded in day order is kept whole by the files |
| `TraceLogProofs.PerformLeavesOthers` | onstep_adapter/indi_trace.py:172-209 | recording one session changes nothing of any other |
| `TraceLogProofs.SortingIsIdentity` | onstep_adapter/indi_trace.py:199-203 | sorting entries by day returns them unchanged exactly when their days never go backwards |
| `TraceLogProofs.EntriesComeBackInOrder` | onstep_adapter/indi_trace.py:199-203 | joined day files give a session's entries back in order exactly when its UTC days never went backwards |
| `TraceLogProofs.SlippedDayReverses` | onstep_adapter/indi_trace.py:199-203 | a concrete session whose second entry is stamped a day earlier comes back reversed |
| `TraceLogProofs.SessionComesBack` | onstep_adapter/tools/trace_compare.py:89-115 | every session comes back whole: its own header, then all its entries in order |
| `TraceLogProofs.RecordingRoundTrips` | onstep_adapter/tools/trace_compare.py:89-115 | recording and then splitting is the identity on sessions: recorders run one after another come back as one session each and nothing else |
| `Operations.BuildOperations` | onstep_adapter/tools/trace_compare.py:172-278 | the loop computes the specified operations |
| `Operations.SegmentOperations` | onstep_adapter/capture/analysis.py:673-698 | a trace with calls is returned as it is; a capture of several sessions or with merged records is refused; any other is sorted by time and number and becomes the specified segmentation |
| `Operations.RemoveFirstIs` | onstep_adapter/tools/trace_compare.py:213-216 | a return takes the first open call of its number off its thread and leaves the others in order |
| `OperationsProofs.CountStep` | onstep_adapter/tools/trace_compare.py:195-212 | an operation is opened exactly at a top-level call |
| `OperationsProofs.StepIsHeard` | onstep_adapter/tools/trace_compare.py:217-260 | a record tells every operation exactly what concerns it |
| `OperationsProofs.OperationsAreTold` | onstep_adapter/tools/trace_compare.py:172-278 | one operation to each top-level call, its name, call, time, writes, motion states and outcome exactly what the trace tells of it |
| `OperationsProofs.OutcomeIs` | onstep_adapter/tools/trace_compare.py:217-237 | the outcome is named by the last record that settles it: an own return with or without an error while it is the latest, unless its motion is under way and no error came, or the end of that motion; until then it is pending |
| `OperationsProofs.StepKeepsClaim` | onstep_adapter/tools/trace_compare.py:184-187 | a step moves pending tracking time into the current operation's credit or leaves both alone |
| `OperationsProofs.OperationsGetTheirShare` | onstep_adapter/tools/trace_compare.py:184-278 | however calls nest and tracking intervals straddle them, each operation is credited with exactly the tracking time between its call and the next top-level call |
| `OperationsProofs.TrackingTimeIsConserved` | onstep_adapter/tools/trace_compare.py:172-278 | over a time-ordered trace the tracking times of all operations sum to the time tracking was on between the first top-level call and the last record |
| `OperationsProofs.SendsAreConserved` | onstep_adapter/tools/trace_compare.py:238-242 | the operations' writes concatenate to every write after the first top-level call |
| `OperationsProofs.SortIsStable` | onstep_adapter/capture/analysis.py:68 | the sorted capture is in order of time and number, and holds the records of every one time and number as they were |
| `OperationsProofs.SortIsIdentityIff` | onstep_adapter/capture/analysis.py:68 | sorting changes nothing exactly when the records are in order already |
| `OperationsProofs.CapturesSplitByAction` | onstep_adapter/capture/analysis.py:673-698 | a passive capture that is one raw session splits, in the order of its times, into one operation per action write, named after it, and the operations' writes are all writes from the first action on; any other capture is refused |
| `OperationsProofs.SegmentIs` | onstep_adapter/capture/analysis.py:681-697 | every record of a capture is in its place, those received by another connection left out, with a call and its return before each action write, numbered from 1 |
| `OperationsProofs.SegmentRefusesIff` | onstep_adapter/capture/analysis.py:60-68 | refused are exactly captures without a call that hold a condensed record or a second session |
| `OperationsProofs.CaptureTimeIsConserved` | onstep_adapter/capture/analysis.py:673-698 | the tracking time of every capture is conserved, in whatever order it was recorded |
| `OperationsProofs.LateRecordGoesFirst` | onstep_adapter/capture/pcap.py:166-168 | two actions recorded against the order of their times become operations in that of the times |
| `Motion.MotionHandle.RequestStop` | onstep_adapter/indi_motion.py:170-171 | only the stop flag changes |
| `Motion.MotionHandle.RecordStop` | onstep_adapter/indi_motion.py:173-177 | the stop result is noted, and completes a stopped move's error only if that knows none |
| `Motion.MotionHandle.Finish` | onstep_adapter/indi_motion.py:157-161 | publishing completes a stopped move's error with the stop result known by then |
| `MotionProofs.KeepsInv` | onstep_adapter/indi_motion.py:148-177 | every atomic step of a worker, a stopper or a starter keeps the invariants |
| `MotionProofs.OneActiveMotion` | onstep_adapter/indi_client.py:256-276 | in every interleaving at most one handle is not done, and it is the active motion |
| `MotionProofs.NoStartWhileActive` | onstep_adapter/indi_client.py:263-269 | a start is refused for as long as a move runs |
| `MotionProofs.OutcomeIsFixed` | onstep_adapter/indi_motion.py:157-177 | state, result and error are fixed once the move left running; only a stopped move without a stop result may still learn one |
| `MotionProofs.StoppedMeansRequested` | onstep_adapter/indi_motion.py:153-177 | a stopped move had a stop requested, and its error carries no result exactly when none was recorded, else the last recorded before publishing or the first after |
| `MotionProofs.ActiveMotionIsAsked` | onstep_adapter/indi_client.py:363-379 | in every interleaving, a stop that found a move running sends nothing to the mount before that move is over or was asked to stop |
| `MotionProofs.DoneHasAnOutcome` | onstep_adapter/indi_motion.py:214-225 | whoever waits until a move is done finds its final outcome |
| `MotionProofs.WritesFollowAClearCheck` | onstep_adapter/indi_home.py:131-138 | in every interleaving of the worker's steps, each motion command written follows a check that saw no stop request, none having been made before that check; that the moves themselves check first is stated by `HomeRouter.Drive` and `Axis.AxisMover.Launch` |
| `MotionProofs.WriteAfterStopIsPossible` | onstep_adapter/indi_home.py:132-133 | a run in which the stop request falls between the check and the write |
| `MotionProofs.WriteAfterStopIff` | onstep_adapter/indi_home.py:131-138 | a worker that was asked to stop can still write a command in some continuation exactly when the request met it between a clear check and its wait; otherwise no write follows in any continuation |
| `Transport.IndiTransport.Record` | onstep_adapter/indi_transport.py:379-400 | one vector raises the counter by one and keeps the cache equal to the fold of everything received on the connection |
| `Transport.IndiTransport.Connect` | onstep_adapter/indi_transport.py:60-78 | connecting empties the cache, keeps the revision counter and asks for all properties; it fails on a broken reader or when that request cannot be sent, the connection then staying open |
| `Transport.IndiTransport.WaitProperty` | onstep_adapter/indi_transport.py:103-125 | a normal return is the current entry with a revision after the given one; a connection error means a broken or closed connection, a time-out that time ran out without such an entry |
| `Transport.IndiTransport.Usable` | onstep_adapter/indi_transport.py:263-276 | the vector a command is checked against; it is refused only when it does not have the kind, the permission or the elements |
| `Transport.IndiTransport.SetSwitch` | onstep_adapter/indi_transport.py:127-157 | a normal return shows the element on and okay; at most one command was sent, and if one was, the update is newer than the entry before it; with a usable vector cached nothing is sent exactly when it shows the element on already or the write fails |
| `Transport.IndiTransport.Order` | onstep_adapter/indi_transport.py:140-157 | the write fails only on a dead connection or a failing socket |
| `Transport.IndiTransport.RequestSwitch` | onstep_adapter/indi_transport.py:159-186 | a normal return sent exactly one command and saw an okay update newer than the entry before it |
| `Transport.IndiTransport.Issue` | onstep_adapter/indi_transport.py:188-261 | a long-running command is sent once or not at all; a normal return names the reception it was checked against, which left a writable vector of the right kind with the elements named |
| `Transport.IndiTransport.Confirm` | onstep_adapter/indi_transport.py:146-157 | confirmation is an okay update newer than the one before the command; an alert refuses it |
| `Indi.EntryIsLatest` | onstep_adapter/indi_transport.py:379-400 | the cache entry of a property is its latest reception, and its revision counts all receptions up to that one |
| `Indi.NewerMeansReceived` | onstep_adapter/indi_transport.py:103-125 | a newer revision means that a vector of that property arrived in between |
| `Indi.RevisionsNeverFall` | onstep_adapter/indi_transport.py:386-401 | receiving more never lowers a property's revision |
| `Indi.ElementIsLatest` | onstep_adapter/indi_transport.py:386-400 | an element shows the text that the last vector to name it gave it |
| `Indi.ElementIsNamed` | onstep_adapter/indi_transport.py:386-400 | an element no vector has named is not there |
| `Indi.LightIsLatest` | onstep_adapter/indi_transport.py:395 | the light is that of the last vector to bring one |
| `Indi.PermissionIsLatest` | onstep_adapter/indi_transport.py:396 | so is the permission to write |
| `Indi.StartsIdle` | onstep_adapter/indi_transport.py:386-400 | until then a property is idle and read-only; its kind is that of the last vector |
| `Indi.SidesIff` | onstep_adapter/indi_status.py:96-101 | which pier side is reported: east before west |
| `Indi.FaultIff` | onstep_adapter/indi_status.py:94-95 | the fault element counts unless it shows one of its quiet texts |
| `Indi.PlaceIs` | onstep_adapter/indi_status.py:109-123 | where a snapshot says the mount points, and what the hour angle needs |
| `Looks.LookIsShown` | onstep_adapter/indi_status.py:67-157 | a snapshot shows exactly the flags of one received status, the one its revision names |
| `Looks.Look` | onstep_adapter/indi_status.py:67-157 | an observation shows the latest status cached, which was received |
| `Looks.LaterLooks` | onstep_adapter/indi_status.py:67-157 | of looks at newer and newer statuses all but the first show one received after the wait began |
| `Looks.MeridianStatus` | onstep_adapter/indi_client.py:319-322 | the verdict is that on an observation of its own |
| `Confirmation.WaitedIsFresh` | onstep_adapter/indi_transport.py:103-125 | each update waited for is newer than all before and is what the cache held on its reception |
| `Confirmation.LaterIff` | onstep_adapter/indi_transport.py:103-125 | an update was received after some moment exactly when it is newer than what was cached then |
| `Confirmation.LaterUpdates` | onstep_adapter/indi_transport.py:103-125 | of fresh updates all but the first were received after the wait began |
| `Confirmation.MeetsIff` | onstep_adapter/indi_stop.py:71-80 | a status meets a goal exactly when it can be decoded to flags that do, for a stop without an alert |
| `Confirmation.RestingIff` | onstep_adapter/indi_home.py:100-107 | the flags of a mount at rest and of one at PARK |
| `Confirmation.AwayIff` | onstep_adapter/indi_home.py:112-119 | the flags of a mount at HOME and of one that has left PARK |
| `Confirmation.FocusedIff` | onstep_adapter/indi_focuser.py:127 | a focuser is at its target when it shows that very number as okay |
| `Confirmation.StreakPush` | onstep_adapter/indi_stop.py:57-80 | one update extends or resets the run of good ones |
| `Confirmation.StreakConfirms` | onstep_adapter/indi_stop.py:57-85 | ending on two good updates means two distinct receptions after the baseline, the last ones looked at |
| `Stop.SendStop` | onstep_adapter/indi_stop.py:34-50 | ABORT is tried, and TRACK_OFF exactly when ABORT returned or failed with a caught exception; any other failure leaves it untried and ends the stop; nothing fails exactly when both are accepted |
| `Stop.AwaitRest` | onstep_adapter/indi_stop.py:52-80 | ends without error exactly on two status updates in a row that show the mount at rest, all newer than any before, and exactly when no wait failed and the time was enough; a failed one never saw two in a row |
| `Stop.StopMount` | onstep_adapter/indi_stop.py:22-88 | confirmed if and only if no command and no wait failed, and then both commands were sent and afterwards two status updates in a row showed the mount at rest; what is tried when the abort fails is as for `SendStop`; the errors it lists are exactly those of the commands and the wait that failed |
| `Stop.AbortFailureSkipsTrackOff` | onstep_adapter/indi_stop.py:34-50 | a run in which an uncaught failure of the abort leaves TRACK_OFF untried |
| `Stop.EmergencyStop` | onstep_adapter/indi_client.py:363-379 | refused exactly when the connection is not open, else a verified stop, confirmed exactly when nothing failed; never more than one |
| `HomeRouter.PreflightIff` | onstep_adapter/indi_home.py:79-83 | exactly which cached statuses let HOME, PARK and UNPARK begin |
| `HomeRouter.UnreadableStatusPasses` | onstep_adapter/indi_home.py:150-158 | a live status whose report cannot be read lets a HOME move begin |
| `HomeRouter.PreflightKeepsIff` | onstep_adapter/indi_home.py:150-158 | a passing preflight of HOME keeps the authority exactly when the status can be read; while the authority stands only an old status, slewing or tracking refuses, so any other refusal revokes it |
| `HomeRouter.Judge` | onstep_adapter/indi_home.py:242-252 | exactly which update gives a move up |
| `HomeRouter.JudgeIff` | onstep_adapter/indi_home.py:242-252 | an undecodable report is a ValueError, any other fault a RuntimeError |
| `HomeRouter.NextStatus` | onstep_adapter/indi_home.py:224-241 | one turn of the wait: it fails exactly on a stop request, at the time limit or on a failed wait, and an empty slice of a move that can be stopped is no failure |
| `HomeRouter.WaitStatus` | onstep_adapter/indi_home.py:213-254 | a normal return saw the needed updates in a row, all newer than the baseline, all but the first received during the wait, and no update with a fault; the wait is given up only for a stop request, a failed call, the time limit or an update with a fault, and never after the updates needed |
| `HomeRouter.Drive` | onstep_adapter/indi_home.py:131-138 | the HOME or PARK command is tried exactly when a look at the stop request, made with nothing tried since, saw none; a normal return sent it and saw two good updates, the last received after it; it fails for the causes of `WaitStatus` or of the write only |
| `HomeRouter.ArrivalIs` | onstep_adapter/indi_home.py:93-122 | a confirmed arrival, spelled out: HOME GO or PARK PARK and nothing else sent, and two updates of a fault-free mount at rest in that place, flag by flag |
| `HomeRouter.MoveToPosition` | onstep_adapter/indi_home.py:124-148 | a confirmed move sent one command and saw two good updates, the last received after it; any other end has a cause: a stop request, a failed call, the time limit or an update with a fault; a caught failure stops the mount once; a requested stop does not, and one seen before the command leaves everything untried |
| `HomeRouter.FollowsCommand` | onstep_adapter/indi_home.py:171-201 | the one good update that confirms a command was received after it exactly when it is not the status cached as the command went out; so it was if no status arrived between the baseline and the command, or if the status cached then did not show the goal |
| `HomeRouter.CommandAndWait` | onstep_adapter/indi_home.py:171-201 | one command at most, and one good update newer than the baseline, standing to the command as `FollowsCommand` says; it fails only for a failed call, the time limit or an update with a fault |
| `HomeRouter.UnparkConfirmedTooEarly` | onstep_adapter/indi_home.py:170-181 | a run in which the update that confirms UNPARK was received before UNPARK was sent |
| `HomeRouter.Router.Look` | onstep_adapter/indi_client.py:115-135 | an observation asks for the HOME authority too: afterwards that stands exactly when it stood before, the connection is up and the cached status shows no trouble; a failing one leaves it alone |
| `HomeRouter.Router.GoHome` | onstep_adapter/indi_home.py:69-84 | nothing is commanded without a passing preflight and a clear check, and nothing is refused but on a look that does not pass; any other end short of HOME has a cause: a stop request seen, a failed call, the time limit or an update with a fault; after a refused or stopped move the HOME authority stands exactly when it stood before and survived the preflight's own question; any other end sets it to whether HOME was confirmed; no end short of HOME had seen two good updates in a row |
| `HomeRouter.Router.MoveToHome` | onstep_adapter/indi_home.py:109-122 | the authority follows the confirmation; an exception leaves it alone |
| `HomeRouter.Router.ParkMount` | onstep_adapter/indi_home.py:86-107 | nothing is commanded without a passing preflight and a clear check, and nothing is refused but on a look that does not pass; any other end short of PARK has one of the causes of `GoHome`; a refused move leaves the authority exactly as the preflight's question left it; once a PARK move may begin it is gone; an already parked mount gets no command; no end short of PARK had seen two good updates in a row |
| `HomeRouter.Router.UnparkMount` | onstep_adapter/indi_home.py:160-211 | nothing is commanded unless a look showed the mount parked, ready and not slewing, and nothing is refused unless one did not; confirmed only on an update off PARK and not tracking, newer than the baseline of the last command; any other end has a failed call, the time limit or an update with a fault for its cause; never commands HOME; a caught failure stops the mount once |
| `HomeRouter.Router.LeavePark` | onstep_adapter/indi_home.py:170-203 | ends normally only on an update off PARK and not tracking that stands to the last command as `FollowsCommand` says; UNPARK is the first command, TRACK_OFF the only other |
| `HomeRouter.Router.ParkToHome` | onstep_adapter/indi_home.py:51-67 | HOME is commanded only after UNPARK, and the authority afterwards is exactly whether HOME was confirmed; a refusal or a failure has the causes of the two moves |
| `HomeRouter.Router.AuthorityStands` | onstep_adapter/indi_client.py:115-135 | the authority stands exactly when it stood before, the connection is up and the cached status can be read and shows no trouble and no PARK; otherwise it is revoked for good |
| `HomeRouter.HomeReached` | onstep_adapter/indi_home.py:109-122 | a confirmed arrival is later than every PARK or UNPARK ever sent |
| `HomeRouter.HomeSurvives` | onstep_adapter/indi_home.py:109-122 | the authority keeps resting on a HOME arrival after which no PARK or UNPARK was sent |
| `Preflights.FitIff` | onstep_adapter/indi_guiding.py:238-247 | exactly which cached status shows a fit, unparked mount |
| `Preflights.KnowingIff` | onstep_adapter/indi_guiding.py:258-263 | exactly which cached coordinates, pier side and session state give full authority |
| `Focuser.ReadyIff` | onstep_adapter/indi_focuser.py:42-76 | exactly which connection, position and maximum let the focuser move |
| `Focuser.FocuserDriver.GetStatus` | onstep_adapter/indi_focuser.py:42-76 | the status is that of three entries cached during the call; ready only within both limits, the driver's being one that was received |
| `Focuser.FocuserDriver.MoveAbsolute` | onstep_adapter/indi_focuser.py:78-135 | by the status read first: not ready is refused, a target outside the limits an error, the position it has reached at once, and any other target is commanded; a move that had to travel is reached only on two updates in a row at the target, none of them an alert, the last received after the command; it is given up only for a failed call, the time limit, a cancellation, an unusable update or a limit in the way; every caught failure asks for a stop |
| `Focuser.FocuserDriver.Travel` | onstep_adapter/indi_focuser.py:99-129 | one command, and the confirmation by fresh updates, the last received after it |
| `Focuser.FocuserDriver.AwaitTarget` | onstep_adapter/indi_focuser.py:104-128 | the confirmation loop: two updates in a row at the target and okay, the last received during the wait, no alert, and both limits consistent throughout; nothing else ends it but a failed call, the time limit, a cancellation, an unusable update or a limit in the way; a failed one never saw two such updates in a row that the limits allowed |
| `Focuser.FocuserDriver.StopUnlocked` | onstep_adapter/indi_focuser.py:141-166 | true only after three updates showed one position, the last two okay and received after the command; false or failing only for a failed call, the time limit or an unusable update, and never after three such updates |
| `Tracking.PermittedIff` | onstep_adapter/indi_tracking.py:41-66 | exactly which cached status, coordinates and verdict pass the preflight under either policy |
| `Tracking.EnableTracking` | onstep_adapter/indi_tracking.py:26-121 | by a look and a verdict on a look of its own: refused exactly when they do not pass, nothing to do when already tracking, else commanded; confirmed only on two looks in a row at newer and newer statuses that track, the last received after the command, no fresh look at a limit, parked or, under the strict policy, at HOME or at a forbidden phase, each with a verdict on the look that followed it; given up only for a failed call, the time limit or such a look; a caught failure after the command was accepted stops the mount once and then tries nothing but the abort and TRACK_OFF; a failed one never saw two fresh looks in a row that track |
| `Tracking.AwaitTracking` | onstep_adapter/indi_tracking.py:85-110 | the confirmation loop: every fresh look safe and the verdict on the look after it allowed, all but the first received during the wait; given up only for a failed call, the time limit or a look that is not |
| `GuidePlan.PlanChunks` | onstep_adapter/indi_guiding.py:287-295 | the loop computes the plan |
| `GuidePlan.PlanAddsUp` | onstep_adapter/indi_guiding.py:287-295 | the chunks add up to the pulse, each is positive and at most the chunk size, and there are as few as possible |
| `GuidePlan.ShortChunkIff` | onstep_adapter/indi_guiding.py:289-293 | some chunk falls below 20 ms exactly when a rest below 20 ms meets a chunk size that cannot absorb it |
| `GuidePlan.SafeChunkSizeIff` | onstep_adapter/indi_guiding.py:18-20 | 39 ms is the smallest chunk size for which no allowed pulse gets a chunk below 20 ms |
| `Guide.PermittedIff` | onstep_adapter/indi_guiding.py:233-268 | exactly which cached status, coordinates and verdict pass the preflight under either policy |
| `Guide.PulseIsNeverExceeded` | onstep_adapter/indi_guiding.py:309-351 | whatever a run has sent never asks for more than the pulse, and asks for all of it exactly when every chunk was sent |
| `Guide.ChunksGoTheirWay` | onstep_adapter/indi_guiding.py:22-27 | every chunk goes out under the name of its direction, with the milliseconds of the plan |
| `Guide.OverBy` | onstep_adapter/indi_guiding.py:398-415 | the look that ends a chunk was received after the chunk exactly when it does not show the status cached as the chunk went out; so it was if no status arrived between the preflight's look and the command, or if the status cached then showed guiding |
| `Guide.OkayedBy` | onstep_adapter/indi_guiding.py:321-331 | the okay that calls a chunk over is newer than the entry the command was checked against; it was received after the chunk exactly when it is not the guide vector cached as the chunk went out, and so it was if that is still the entry checked |
| `Guide.GuideController.Check` | onstep_adapter/indi_guiding.py:233-268 | a preflight is one look, and a meridian verdict on a look of its own |
| `Guide.GuideController.WaitPulseCompletion` | onstep_adapter/indi_guiding.py:378-396 | returns only on an okay or idle update newer than the entry before the command; fails only for an alert newer than that, a failed call or the time limit, and never after an okay or idle update; all updates before the last were busy |
| `Guide.GuideController.WaitGuideIdle` | onstep_adapter/indi_guiding.py:398-419 | returns only a status without guiding that is newer than the preflight's; every look on the way passes the preflight, and the last is the one returned; it fails only for a look that does not pass, which is reported, a failed call or the time limit; the status returned is the first of its kind, and a failed wait looked at none |
| `Guide.GuideController.OneChunk` | onstep_adapter/indi_guiding.py:321-344 | one chunk is sent at most once; it ends only when called over and seen over, both standing to the command as `OkayedBy` and `OverBy` say |
| `Guide.GuideController.Turn` | onstep_adapter/indi_guiding.py:309-341 | one chunk: refused by its own preflight or sent, called over and seen over, the looks of both in their order |
| `Guide.ChunkOverBeforeItBegan` | onstep_adapter/indi_guiding.py:321-344 | a run in which a chunk counts as over on a status and an okay received before it was sent |
| `Guide.GuideController.RunChunks` | onstep_adapter/indi_guiding.py:309-351 | the durations sent are the first of the plan, each after its own passing preflight and after the chunk before it was called over and seen over, in the sense of `OkayedBy` and `OverBy`, and the looks of all these follow one another; done only when one more preflight passed behind them; it ends early only for a look that does not pass, an alert, a failed call or the time limit |
| `Guide.GuideController.Pulse` | onstep_adapter/indi_guiding.py:270-376 | refused with an error exactly outside 20 to 5000 ms; complete only when the whole plan was sent, called over and seen over and one more preflight passed, with tracking preserved; given up only for the lock, a look that does not pass, an alert, a failed call or the time limit; a caught failure stops the mount once if a chunk went out, even if every chunk sent was seen over; a refusal between chunks does not; the tracking reported otherwise is that of the refusing look, else of the last one known; the lock is left as it was |
| `Angles.ModIff` | onstep_adapter/indi_axis_motion.py:114-117 | what differs by whole turns is the remainder exactly when it lies in the range |
| `Angles.AimedOffsetIff` | onstep_adapter/indi_axis_motion.py:114-117 | aiming an offset and measuring it back agree at every right ascension exactly up to half a turn |
| `Axis.TargetIsRequested` | onstep_adapter/indi_axis_motion.py:186-190 | every valid request aims at exactly the requested axis angle |
| `Axis.ValidRequestIff` | onstep_adapter/indi_axis_motion.py:129-161 | exactly which requests are accepted |
| `Axis.ReachableIff` | onstep_adapter/indi_axis_motion.py:186-199 | exactly which targets are within the declination bounds and above the lowest altitude |
| `Axis.TolerancesAre` | onstep_adapter/indi_axis_motion.py:200-209 | the tolerance is a tenth of the request between ten arcseconds and three arcminutes, the guard band 0.25 to 0.35 degrees |
| `Axis.TurnedIs` | onstep_adapter/indi_axis_motion.py:114-117 | how far the axis has turned: the declination gained, or fifteen degrees to the hour westward the short way round |
| `Axis.InBandIff` | onstep_adapter/indi_axis_motion.py:246-247 | the band a move stays in, for either direction |
| `Axis.CheckedIff` | onstep_adapter/indi_axis_motion.py:81-112 | exactly which cached status, coordinates and pier side pass the check, before a move and on the way |
| `Axis.AxisMover.Preflight` | onstep_adapter/indi_axis_motion.py:182-199 | a move begins exactly on a checked look with its target within the bounds, unless the observation fails |
| `Axis.AxisMover.Sample` | onstep_adapter/indi_axis_motion.py:224-234 | a look counts only when checked and on the starting pier side, and anything else that ends the turn is a stop request, the time limit or a failed observation |
| `Axis.AxisMover.Travel` | onstep_adapter/indi_axis_motion.py:218-264 | ends at the first look without slewing from the first new coordinates on that showed the target within tolerance (and, in right ascension, the declination unchanged within 0.05 degrees), having stayed within the guard band; given up only for a stop request, the time limit, a failed observation, a look that fails its check or new coordinates outside the band; a failed one never saw the slew over at the target |
| `Axis.AxisMover.Settle` | onstep_adapter/indi_axis_motion.py:272-289 | ends exactly at the first two looks in a row at newer and newer statuses that neither track nor slew, the last received during the wait; a failed one never saw two |
| `Axis.AxisMover.Conclude` | onstep_adapter/indi_axis_motion.py:265-302 | TRACK_OFF, the confirmed stop and the measurement; a move that ends outside the tolerance fails |
| `Axis.AxisMover.Launch` | onstep_adapter/indi_axis_motion.py:210-216 | SLEW, then one target, and whether the target was attempted; there is one look at the stop request, before SLEW, and a request seen then leaves everything untried; the target is sent only against a writable vector that showed both coordinates |
| `Axis.AxisMover.Follow` | onstep_adapter/indi_axis_motion.py:217-302 | TRACK_OFF is tried only after arrival, however the pursuit ends; a normal return ends on a status received after it, with the measured angle within tolerance |
| `Axis.AxisMover.Pursue` | onstep_adapter/indi_axis_motion.py:208-302 | from its starting point: SLEW and the target after one clear check, TRACK_OFF only after arrival; a failed one fell short of arriving or, after TRACK_OFF, of coming to rest at its target |
| `Axis.AxisMover.Move` | onstep_adapter/indi_axis_motion.py:163-310 | a normal return sent exactly SLEW (unless already set), one target and TRACK_OFF, with every look on one pier side, and ended at rest within three arcminutes and a tenth of the request (or ten arcseconds); however it ends, no target is attempted but the one computed from a look that passed the preflight, nothing is tried before a clear check, and no check lies between SLEW and the target; an accepted move fails only for a stop request, a failed call, the time limit, or what a look showed: a refusal before, a loss or an excursion on the way, a wrong end; any other end after the attempt stops the mount exactly once unless a stop was requested; the lock is left as it was; one that fails after the target was attempted had at no time both arrived and come to rest within the tolerance |
| `Meridian.DerivedIsSound` | onstep_adapter/meridian_policy.py:50-76 | an accepted policy has its boundaries in order below both guards and its times add up |
| `Meridian.DerivableIff` | onstep_adapter/meridian_policy.py:57-66 | derived boundaries exist exactly when the guard leaves time for lead, flip and reserve |
| `Meridian.DerivesIff` | onstep_adapter/meridian_policy.py:24-76 | exactly which inputs give a policy, whether the boundaries are requested or derived, and which |
| `Meridian.PhaseIff` | onstep_adapter/indi_meridian.py:29-75 | each phase, exactly |
| `Meridian.VerdictIs` | onstep_adapter/indi_meridian.py:53-79 | a flip is required from its boundary on, on pier side east; the times reported lead to the boundaries at the sidereal rate |
| `Meridian.StopRequiredIff` | onstep_adapter/indi_meridian.py:29-79 | a stop is asked for exactly on a moving mount at a live firmware limit, or at the hard stop on pier side east with full authority |
| `Meridian.NoAuthorityNoStop` | onstep_adapter/indi_meridian.py:43-52 | missing authority alone never asks for a stop or a flip |
| `Meridian.PhasesAdvance` | onstep_adapter/indi_meridian.py:56-75 | while the hour angle grows the phases never go back |
| `Meridian.ExposureFits` | onstep_adapter/meridian_policy.py:63-66 | an exposure of the maximum length begun before the flip boundary leaves flip and reserve before the hard stop |
| `Meridian.LatestFlipStartFits` | onstep_adapter/indi_meridian.py:53-55 | a flip begun by the latest start ends with its reserve by the hard stop |
| `Meridian.Supervisor.TickOnce` | onstep_adapter/indi_meridian.py:106-116 | one tick reports transitions and stops exactly as specified |
| `Meridian.StopsAreApart` | onstep_adapter/indi_meridian.py:113-115 | two stops are at least three seconds apart whatever the samples show |
| `Meridian.FirstStopIff` | onstep_adapter/indi_meridian.py:106-116 | in any run the first stop comes at the first tick that asks for one three seconds or more after the stop before the run |
| `Meridian.StopsInTime` | onstep_adapter/indi_meridian.py:106-116 | with ticks at most a period apart no stop comes before the first tick at or past the hard stop, which lies less than one period's turn beyond it, hence before the firmware guard for a short enough period; a stop comes at that tick exactly when three seconds have passed since the last one |
| `Meridian.StopsWhenDue` | onstep_adapter/indi_meridian.py:106-116 | wherever a tracked run begins and however recent the last stop, the first stop comes at the first tick past both the hard stop and the three seconds, less than one period's turn after both unless that is the first tick of all |
| `Meridian.YoungClockHoldsBack` | onstep_adapter/indi_meridian.py:102-115 | a clock that has run for less than three seconds holds every stop back |
| `VirtualMount.MountDriver.SetTracking` | onstep_mock/mount.py:189-201 | exactly the specified state, or a refusal that changes nothing |
| `VirtualMount.MountDriver.Unpark` | onstep_mock/mount.py:203-212 | exactly the specified state, or a refusal that changes nothing |
| `VirtualMount.MountDriver.StartGoto` | onstep_mock/mount.py:214-230 | exactly the specified state, or a refusal that changes nothing |
| `VirtualMount.MountDriver.StartManual` | onstep_mock/mount.py:232-245 | exactly the specified state, or a refusal that changes nothing |
| `VirtualMount.MountDriver.Guide` | onstep_mock/mount.py:247-254 | exactly the specified state, or a refusal that changes nothing |
| `VirtualMount.MountDriver.Abort` | onstep_mock/mount.py:256-263 | exactly the specified state |
| `VirtualMount.MountDriver.SetFault` | onstep_mock/mount.py:265-269 | exactly the specified state |
| `VirtualMount.MountDriver.Tick` | onstep_mock/mount.py:272-289 | exactly the specified state, and whether an edge occurred |
| `VirtualMount.MountDriver.StepGoto` | onstep_mock/mount.py:301-323 | exactly the specified state, and whether the slew ended |
| `VirtualMount.Wrap` | onstep_mock/mount.py:86-88 | an hour angle in [-12, 12) |
| `SlewProofs.HaStepLeaves` | onstep_mock/mount.py:304-307 | a step shortens the hour angle left by exactly that step, the short way round, towards a goal that may move along |
| `SlewProofs.StepShortensBoth` | onstep_mock/mount.py:301-308 | each axis error falls by min(step, error), and neither axis overshoots |
| `SlewProofs.SlewEndsIff` | onstep_mock/mount.py:272-323 | an undisturbed slew to HOME or PARK has ended exactly when the ticks together turned the axes as far as the larger error up to the tolerance; it then rests exactly on the stored pose |
| `SlewProofs.SlewTakesCeiling` | onstep_mock/mount.py:272-323 | with equal ticks the slew takes the larger error over one step, rounded up |
| `SlewProofs.SkyStepShortens` | onstep_mock/mount.py:298-308 | towards a drifting target a step is gained at its own goal, and no more than the drift is lost again at the next, whichever way round |
| `SlewProofs.SkySlewArrives` | onstep_mock/mount.py:272-323 | a slew to the sky has caught its target once its ticks, of whatever length, have turned the axes as far as the larger error and the drift between them, up to the tolerance |
| `SlewProofs.SkySlewTakesAtMost` | onstep_mock/mount.py:272-323 | with equal ticks whose step is longer than the drift it takes at most the larger error over what a tick gains, rounded up |
| `MockServer.Device.ApplyWrite` | onstep_mock/server.py:358-471 | a write has exactly the specified effect on mount, buttons and focuser, or is refused |
| `MockServer.Device.ApplyPress` | onstep_mock/server.py:424-443 | a press has exactly the specified effect |
| `MockServer.RefusedChangesNothing` | onstep_mock/server.py:358-471 | a refused write leaves the mount, its buttons and the focuser as they were |
| `MockServer.WriteKeeps` | onstep_mock/server.py:358-471 | every write keeps the invariants |
| `MockServer.TickKeeps` | onstep_mock/mount.py:272-323 | every tick keeps the invariants |
| `MockServer.RunKeeps` | onstep_mock/server.py:197-240 | after any writes, ticks, faults and setups: slewing iff a target is set, parked implies idle, at home implies idle and unparked, tracking iff its start is known, a fault implies not tracking and at rest or stopping, pose in range, motion as the buttons show |
| `MockServer.FreshIsFine` | onstep_mock/mount.py:128-134 | a new mount meets the invariants |
| `MockServer.RestfulStepIff` | onstep_mock/server.py:197-240 | the only steps after which a mount may track while parked or on its way to PARK are tracking switched on during a slew to PARK and a setup that parks a tracking mount without its tracking |
| `MockServer.RestfulRunIff` | onstep_mock/server.py:197-240 | over any run a mount stays so exactly when neither of the two occurs |
| `MockServer.FreshRunIff` | onstep_mock/server.py:197-240 | the same for any run of a new mount |
| `MockServer.ParkedMayTrack` | onstep_mock/mount.py:189-201 | a run that ends parked and tracking |
| `MountProofs.RefusedIff` | onstep_mock/server.py:358-471 | exactly which writes are refused, vector by vector |
| `MountProofs.RejectionIsUsedUp` | onstep_mock/server.py:363-364 | an injected rejection refuses one write of its vector |
| `MountProofs.GotoDoes` | onstep_mock/server.py:374-385 | a goto aims at its declination and its right ascension brought into the day, and slews without tracking |
| `MountProofs.StoredDoes` | onstep_mock/server.py:446-458 | HOME and PARK slew to their stored poses; a parked mount stays |
| `MountProofs.TrackingDoes` | onstep_mock/server.py:446-460 | tracking starts and ends with its time noted, and leaving PARK resumes it where the setup says so |
| `MountProofs.GuideDoes` | onstep_mock/server.py:386-395 | a pulse moves its own axis at half the sidereal rate until its time is up |
| `MountProofs.PressDoes` | onstep_mock/server.py:424-443 | the buttons of an axis move it by hand and stop it |
| `MountProofs.AbortDoes` | onstep_mock/server.py:411-419 | an abort releases the buttons, ends a pulse and lets the mount settle |
| `MountProofs.OthersDo` | onstep_mock/server.py:396-406 | the focuser target and the slew rate are set, and the remaining writes change nothing |
| `MountProofs.FaultDoes` | onstep_mock/mount.py:265-269 | a fault aborts and ends tracking |
| `MountProofs.PlacedDoes` | onstep_mock/server.py:198-223 | a test setup places the mount as it says |
| `MountProofs.CreatedIs` | onstep_mock/mount.py:127-134 | a new mount rests where it was put, or at PARK |
| `MountProofs.RatesAre` | onstep_mock/mount.py:22-25 | the ten manual rates |
| `MountProofs.TickTurns` | onstep_mock/mount.py:272-289 | a tick turns the mount by tracking, pulse and buttons together, whole turns aside, and ends a stop that has settled |
| `MountProofs.GoalIs` | onstep_mock/mount.py:291-299 | a slew goes to a stored pose or to where the sky has taken its target |
| `MountProofs.ArrivalDoes` | onstep_mock/mount.py:309-323 | an arrival leaves the mount parked, at HOME or tracking |
| `MountProofs.SettlesIff` | onstep_mock/mount.py:282-284 | a mount that is stopping rests exactly from the first tick at its time on, where it stood |
| `MountProofs.PulseTurns` | onstep_mock/mount.py:276-281 | a resting mount turns by a pulse's rates for as long as it is in force |
| `MountProofs.ChunkMovesItsWay` | onstep_adapter/indi_guiding.py:22-27 | a chunk the client sends for north raises the mount's declination, south lowers it, west and east turn the hour angle up and down, by half the sidereal rate for as long as it is in force |
| `Lx200.Find` | onstep_adapter/capture/stream.py:218 | the first end mark, or none |
| `Lx200.MarksAre` | onstep_adapter/capture/stream.py:213-218 | the control character that is a command of its own, and the end mark |
| `Lx200.CaptureWriter.Data` | onstep_adapter/capture/stream.py:207-228 | one chunk has exactly the specified effect on its connection's buffer, the records and the list of forbidden commands |
| `Lx200Proofs.DrainMore` | onstep_adapter/capture/stream.py:212-227 | draining early changes nothing: the rest carries on where it was left |
| `Lx200Proofs.DrainSpells` | onstep_adapter/capture/stream.py:212-227 | commands and rest spell the buffer, and each command holds exactly one end mark, at its end |
| `Lx200Proofs.ChunksDoNotMatter` | onstep_adapter/capture/stream.py:207-228 | if no unterminated tail exceeds 256 characters, any division into chunks gives the commands, labels and buffer of the whole stream |
| `Lx200Proofs.SameStreamSameCommands` | onstep_adapter/capture/stream.py:207-228 | two divisions of one stream agree |
| `Lx200Proofs.NothingLostIff` | onstep_adapter/capture/stream.py:228 | commands and buffer spell the whole input exactly when no unterminated tail grew longer than 256 characters |
| `Lx200Proofs.LongTailIsCut` | onstep_adapter/capture/stream.py:228 | every command of 257 characters that arrives before its end mark is recorded without its first character |
| `Lx200Proofs.CommandIsLabelled` | onstep_adapter/capture/stream.py:45-66 | a command that begins at a command boundary is recorded with its label, by its first three characters, or with none, even after blanks |
| `Lx200Proofs.BlankIff` | onstep_adapter/capture/stream.py:223 | which characters are stripped before the label is looked up |
| `Lx200Proofs.ConnectionsDoNotMix` | onstep_adapter/capture/stream.py:207-228 | each connection gets the commands of its own chunks, however connections interleave |
| `Lx200Proofs.ForbiddenIsComplete` | onstep_adapter/capture/stream.py:223-226 | the list of forbidden commands is exactly the flagged records in order |
| `Coordinates.UnitsFit` | onstep_adapter/mount.py:131-147 | minutes and seconds stay below 60 and cut off less than one second |
| `Coordinates.RoundEvenIff` | onstep_adapter/mount.py:209 | rounding to the nearest minute, halves to the even one |
| `Coordinates.SiteUnitsFit` | onstep_adapter/mount.py:205-212 | minutes stay below 60 with the carry, within half an arcminute |
| `Coordinates.TripleParses` | onstep_adapter/mount.py:150-152 | a printed triple reads back as its fields |
| `Coordinates.RaRoundTrip` | onstep_adapter/mount.py:131-152 | a printed right ascension reads back less than a second below the value modulo 24 |
| `Coordinates.RaTextRoundTrip` | onstep_adapter/mount.py:131-152 | printing a parsed canonical right ascension returns it |
| `Coordinates.DecRoundTrip` | onstep_adapter/mount.py:140-160 | a printed declination reads back within a second, on the zero side |
| `Coordinates.DecTextRoundTripIff` | onstep_adapter/mount.py:140-160 | printing a parsed canonical declination returns it, but for a negative zero |
| `Coordinates.SiteRoundTrip` | onstep_adapter/mount.py:163-213 | printed site degrees read back within half an arcminute |
| `TrackingGuard.StateIff` | onstep_adapter/mount.py:3340-3349 | which state a status means |
| `TrackingGuard.OnStepMount.GetState` | onstep_adapter/mount.py:3361-3373 | TRACKING only when tracking was requested, the guard was held back or a disable gave up; at most one disable runs inside another; reading the state never changes what was requested and writes TRACK_OFF at most twice |
| `TrackingGuard.OnStepMount.DisableUnrequested` | onstep_adapter/mount.py:3351-3359 | the guard is held back while it acts and free afterwards, also after an exception; it gives up only after writing TRACK_OFF twice, and never writes it more often |
| `TrackingGuard.OnStepMount.DisableVerified` | onstep_adapter/mount.py:3809-3902 | success shows a status without tracking exactly when the controller ever returned a status, and one of this call when this call got any; otherwise it rests on what was known before; the request for tracking ends exactly on success, and it gives up only after all attempts wrote their command |
| `TrackingGuard.OnStepMount.PollUntilStill` | onstep_adapter/mount.py:3856-3894 | ends early only on such a status |
| `TrackingGuard.SilentControllerSucceeds` | onstep_adapter/mount.py:3856-3894 | a run that succeeds although no status was ever returned |
| `TrackingGuard.OldStatusSucceeds` | onstep_adapter/mount.py:3856-3894 | a run that succeeds although no status followed the command |

## Left out

- ReassemblyProofs.ReassemblyIsExact: assumes that every segment lies within 2^31 of the next expected byte and that no SYN follows the first data; what a repeated SYN does is stated by RepeatedSyn and RepeatedSynReplays.
- ConsolidationProofs.ConsolidationIsLossless: assumes records that carry no repeat counts yet; idempotence covers those that do.
- TraceLogProofs.RecordingRoundTrips: covers recorders that run one after another; two recorders writing one file at once interleave records that carry no session id.
- OperationsProofs.TrackingTimeIsConserved: is about the unrounded times; the final rounding to milliseconds is not modelled.
- MotionProofs.KeepsInv: the progress report (stage, fraction, elapsed time) and the trace record at the end of a move are not part of the state.
- Guide.GuideController.Pulse: the nominal waiting time of a chunk is not modelled, nor is the order in which warnings are listed.
- HomeRouter.Router.Look: only the router's own observations are tied to its HOME authority; those of the other protocols ask for it too and may revoke it, and the authority a snapshot itself reports is an arbitrary choice of the script.
- Axis.AxisMover.Move: the altitude of the target is an arbitrary function of hour angle and declination, and the reported progress fraction is left out.
- Meridian.StopsInTime: says nothing of ticks that raise an exception.
- Coordinates.RaRoundTrip: numbers in texts are plain digits; fractions, exponents and surrounding blanks inside a field, which Python also reads, are not modelled.
- Floating-point rounding everywhere; the trigonometry behind altitude and azimuth; sidereal time from wall clocks, which is an input here.
- Sockets, XML, JSON, UTF-8 and files; frame and IP header decoding of captures; write failures of the recorder; traces that are not daily files.
- The text of compact status reports: a report is its flags, or cannot be read.
- Whether a cached vector is older than the first one seen or than three seconds is an arbitrary choice of the script.
- Confirmed text and number writes of the transport, and time and site synchronisation with its session baseline.
- Coordinate, pier and duration fields of an operation, and the choice of a capture's main connection.
- Guide corrections from image calibration, the horizon profile, guide and focuser progress of the simulated device, and the published states of its vectors.
- Two threads inside one mover, guide controller or focuser: their locks are modelled as a flag that refuses or is left as it was.
- The remaining serial mount, replay, calibration and validation tools, and command-line programs.
