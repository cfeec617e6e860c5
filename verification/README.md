# xmAppCamera: verified model

xmAppCamera captures video from V4L2 cameras and network streams, shows it, records it, exports it
over RTSP, tunes camera controls and qualifies cameras against a fixed set of checks. This project
models its five cores in Dafny and proves what each of them is for.

- **Qualification statistics.** `Fnv1a`, `Statistics`, `FrameSampling`, `TapHistory`, `FrameTaps`,
  `SampleCoverage`, `SnapshotLaws`, `SoakChecks`, `TimestampChecks`, `SoakLaws`. `FrameTap` is a class with the source's fields and a ghost history
  of accepted frames; its invariant says what each accumulator means as a function of that history.
  The judges are methods over its snapshots. The end-to-end results are about cameras: a regular one
  passes the soak, a pass certifies delivery, an alternating one passes exactly while its jitter is
  below a fifth of the nominal period, and the online statistics equal the two-pass ones. The samples
  cover whole rows of every format, and every counter counts frames one by one.
- **Frame tee and session manager.** `TeeProtocol`, `SessionPrograms`, `ProcessEnds`, `SinkFeeds`,
  `TeeSafety`, `TeeProgress`, `SessionOutcomes`, `TeeLeaks`, `AppControllers`, `FanoutSinks`. Every operation of the session manager is a program
  of atomic actions; producer threads may step between any two, and recorder threads may fail. Safety
  is proved over every run, the class `AppController` is proved to perform exactly those programs,
  and exact conditions say when an operation ends the process and when a registered sink is fed. The
  render thread never deadlocks with the producers, and nothing is left without an owner.
- **Recorder.** `I420Packing`, `Recorders`, `FileSinks`. A protocol of producer, writer and owner
  threads, with the class `FileSink` proved to take only its steps; and the packing loops.
- **Zero-copy slots and recovery.** `SlotLeases`, `SlotOwnership`, `HealthyDriver`, `Recovery`. Devices, pools,
  leases and reference counts as a transition system with two variants of the lease, and the
  recovery loop as a method against an arbitrary outside world.
- **Controls.** `Controls` (introspection walk), `ExposureSweep`, `ControlSets`, `ControlChecks`,
  `EffectChecks`, `RestoreOrder`. The
  three checks that disturb a camera are methods over a driver that may fail, adjust values and let
  them drift.
- **Representation changes.** `ColorConversion`, `Numerals`, `CameraConfigs`.

`Arithmetic`, `PixelFormats` and `VideoFrames` hold shared definitions. `dafny verify dfyconfig.toml`
checks the whole project.

## Conventions

- `double` is `real`; a standard deviation is compared through its square, the variance.
- Threads are interleaved atomic steps; a critical section is one step.
- Clocks, drivers, files and pipelines are parameters: each call's outcome is an arbitrary function
  of the round, tick or call.
- Memory behind a frame's pointers is a byte sequence; `RowsFit` is the caller's promise that the
  visible rows lie inside it.

## Findings

Places where the code and its own comments or promises part, each stated as a lemma.

- `FrameLease` (src/pipeline/v4l2_source.cpp:435-440) has a user-written destructor and is built as a
  temporary that is copied into the shared lease. The temporary's destructor hands the slot back
  before the frame is emitted, while the comment at lines 431-432 promises one hand-back, on last
  release. Memory stays mapped either way (`FramesStayBacked` holds for both variants), but only the
  intended lease never hands back a live frame's slot. As written, a stretch of a run that starts
  without frames meets the promise exactly when no buffer is passed on without a decoder
  (`LiteralKeepsSlotsIffDecoded`); since the branch is fixed from start to stop, that is decided by
  `decoder_` when the loop starts (`LiteralStreamKeepsSlotsIff`). Two live frames can share a slot
  (`LiteralFramesAlias`).
- When the recorder's pipeline cannot be built, the writer clears `running_`, a later `Stop` returns
  without joining, and destroying the recorder then destroys a joinable thread, which ends the
  process. `StopRecording` does exactly that, so every stop, teardown, restart or re-record of such a
  session ends the application (`FailedPipelineEndsProcess`). For a started recorder this happens
  exactly if `running()` was false just before `Stop` (`RunningDecides`), and an operation of the
  session manager ends the process exactly if it resets such a recorder
  (`OperationEndsProcessIff`).
- Restarting a session in place leaves an outside sink, such as the qualification tap, in the fanout,
  but the new source tees to nothing. A sink that stays registered is fed after an operation exactly
  if the operation attaches some sink to the session's source, or the session was fed before and was
  not restarted (`SinkIsFedIff`).
- A perfect camera does not always pass the soak. Up to a period of 23/14 s it passes whatever the
  length of the run (`PerfectCameraPasses`); beyond, the period and the number of frames decide, by an
  exact condition on the window counts (`PerfectCameraPassesIff`). At 1.65 s a run of 100 frames
  fails (`SlowPerfectCameraFails`).
- `ControlSet::Set` reports success even when the introspection after it was cut short, and the checks
  that tune controls then do not always leave the camera as they found it. On a driver that takes the
  restore writes, and for controls that hold what their width allows, every register is back exactly if
  each one that was moved had been read and is listed as settable when its restore is due: the target
  in the list at hand, the auto control in the list after the target's restore (`RestoreReturnsIff`;
  the guard is the one of `Set`, which `Find` shows beforehand).
  Each check carries this condition for the state in which it starts restoring. Complete walks are
  sufficient (`RestoreReturns`), one cut walk can be enough to fail: on a camera with auto exposure and
  an honest driver, where only the walk after the target's write lists nothing, the lock check passes,
  both restore writes are refused, and the camera stays in manual mode (`CutWalkStrandsExposure`).
- After a recovery the controls are rebuilt on the session's original node (src/app/app_controller.cpp:78),
  while the comment at line 188 allows for a new one. They talk to the camera that is captured exactly
  if the original node leads to it (`ControlsFollowIff`); when the camera comes back in its port under
  another number, the controls can drive another camera (`RecoveryByPortLosesControls`).
- The reader's comment calls pixel format names case-insensitive (src/export/config_reader.cpp:19-21),
  but the code reads exactly the names as written (`PixelFormatFromStringIff`, `LowerCaseIsUnknown`).
- The checksum is described as FNV-1a (src/qualify/frame_tap.cpp:29), but its offset basis is the
  standard's with the last digit missing: it differs from the standard hash on every input, and finds
  changed frames just as well (`NeverTheStandardHash`, `OneByteChangesHash`).
- A control id of more than 32 bits in a configuration file is not refused but cut
  (`HexIdKeptIff`), and a negative one is not refused either (`NegativeIdWraps`).

## Model

| member | source | states |
|---|---|---|
| `Fnv1a.StepInjective` | src/qualify/frame_tap.cpp:29-46 | Equal hashes after one step mean equal states exactly when the bytes are equal: the odd prime is invertible modulo 2^64 |
| `Fnv1a.FoldInjectiveInState` | src/qualify/frame_tap.cpp:41-48 | Different states stay different over any common suffix of bytes |
| `Fnv1a.OneByteChangesHash` | src/qualify/frame_tap.cpp:29-51 | For any basis, two equally long byte strings that differ in one place never collide |
| `Fnv1a.FoldConcat` | src/qualify/frame_tap.cpp:82-84 | Threading the checksum through the planes is hashing their concatenation |
| `Fnv1a.XorBit` | src/qualify/frame_tap.cpp:46 | A bit of the exclusive or is set exactly where the two words differ |
| `Fnv1a.NeverTheStandardHash` | src/qualify/frame_tap.cpp:30 | The offset basis lacks the last digit of the standard one, so the checksum differs from the standard hash on every input |
| `FrameSampling.GridSampleAt` | src/qualify/frame_tap.cpp:41-47 | Sample (r, c) of a plane is its byte at row 8r, column 8c, in bounds |
| `FrameSampling.PlaneMean` | src/qualify/frame_tap.cpp:36-51 | The scan returns the mean of exactly the sampled bytes and folds exactly those into the checksum; null and empty planes give 0 |
| `FrameSampling.OneSampleChangesChecksum` | src/qualify/frame_tap.cpp:77-95 | Frames of equal geometry that differ in exactly one sampled byte have different checksums |
| `SampleCoverage.AcceptedIff` | src/qualify/frame_tap.cpp:75 | Just frames with data, a positive size and a known, uncompressed format are looked at |
| `SampleCoverage.YSampleAt` | src/qualify/frame_tap.cpp:77-95 | For every uncompressed format sample (r, c) of plane 0 is byte (8r, 8c), for every 8c below the true row length of 1, 2, 3 or 4 bytes a pixel, and there are no others |
| `SampleCoverage.ChromaSampleAt` | src/qualify/frame_tap.cpp:80-84 | Chroma is sampled of I420 frames with both planes, on half the width and height, rounded down |
| `SampleCoverage.NoChromaOtherwise` | src/qualify/frame_tap.cpp:85-95 | Of all other frames only plane 0 is sampled |
| `SampleCoverage.EvenPictureLevels` | src/qualify/frame_tap.cpp:123-126 | A picture of one level is counted as black exactly below 8 and as white exactly above 247 |
| `Statistics.RunningMean` | src/qualify/frame_tap.cpp:98-101 | The running-mean update keeps the exact arithmetic mean |
| `Statistics.ShiftCentre` | src/qualify/frame_tap.cpp:132-134 | How a sum of squared deviations changes when its centre moves |
| `Statistics.Welford` | src/qualify/frame_tap.cpp:128-134 | One Welford step keeps mean and m2 equal to the two-pass mean and sum of squared deviations |
| `Statistics.ConstantVariance` | src/qualify/frame_tap.cpp:168-177 | A constant series has variance zero |
| `TapHistory.BucketIndex` | src/qualify/frame_tap.cpp:149-152 | The computed bucket is the one and only 10 s window that contains the offset |
| `TapHistory.BucketMembership` | include/xmcam/qualify/frame_tap.hpp:47-48 | A window is counted as non-empty exactly when some timestamp lies in it |
| `TapHistory.RepeatIsStuck` | src/qualify/frame_tap.cpp:119-122 | A frame that repeats its predecessor on every sampled byte raises the stuck count by one |
| `TapHistory.ChangeIsNotStuck` | src/qualify/frame_tap.cpp:119-122 | A frame that differs from its predecessor in one sampled byte leaves the stuck count |
| `SnapshotLaws.CountersCount` | include/xmcam/qualify/frame_tap.hpp:30-50 | Black, white and stuck frames and the frames of each ten seconds are the numbers of the frames with that property |
| `SnapshotLaws.DayOfBuckets` | src/qualify/frame_tap.cpp:148-157 | Every frame of the first 24 hours is in a bucket, and there are at most 8640 of them |
| `SnapshotLaws.KeptTimestamps` | src/qualify/frame_tap.cpp:105 | The timestamps of the first 4096 frames are kept, and no other |
| `SnapshotLaws.GapOfOneNumber` | src/qualify/frame_tap.cpp:109-117 | A driver number that leaps ahead adds the numbers between to the gaps, one that repeats or falls back adds none |
| `SnapshotLaws.RingShowsLast256` | src/qualify/frame_tap.cpp:179-187 | The ring shows timestamp and luma of the last 256 frames, oldest first |
| `FrameTaps.FrameTap.Reset` | src/qualify/frame_tap.cpp:55-70 | Every accumulator describes the empty history |
| `FrameTaps.FrameTap.OnFrame` | src/qualify/frame_tap.cpp:72-166 | An accepted frame is appended to the history and every accumulator again describes it; invalid and compressed frames change nothing |
| `FrameTaps.FrameTap.Accumulate` | src/qualify/frame_tap.cpp:97-166 | The critical section keeps the whole invariant for the extended history |
| `FrameTaps.FrameTap.CountFrame` | src/qualify/frame_tap.cpp:98-105 | Plane means, count, geometry and the first 4096 timestamps of the extended history |
| `FrameTaps.FrameTap.CountGaps` | src/qualify/frame_tap.cpp:109-117 | Gaps equal the numbers skipped between consecutive non-zero driver numbers |
| `FrameTaps.FrameTap.CountLevels` | src/qualify/frame_tap.cpp:120-126 | Stuck, black and white counts of the extended history |
| `FrameTaps.FrameTap.CountInterval` | src/qualify/frame_tap.cpp:129-146 | Welford state and extremes of all successive differences |
| `FrameTaps.FrameTap.CountBucket` | src/qualify/frame_tap.cpp:149-157 | Bucket b counts exactly the frames of the b-th 10 s window, for b < 8640 |
| `FrameTaps.FrameTap.RememberMean` | src/qualify/frame_tap.cpp:160-165 | The ring keeps the last 256 samples through any number of wraps |
| `FrameTaps.FrameTap.Take` | src/qualify/frame_tap.cpp:168-177 | The snapshot says of the history exactly what its field comments promise |
| `FrameTaps.FrameTap.RecentMeans` | src/qualify/frame_tap.cpp:179-187 | The last min(n, 256) samples, oldest first |
| `SoakChecks.CheckSoak` | src/qualify/qual_checks.cpp:623-721 | Pass exactly by the unordered conjunction of the clauses; otherwise the reason is exactly the first clause that fails in the order of the source, the sag its first bucket, and too few frames a skip; `SoakLaws.SoakInNumbers` says what the clauses are in numbers |
| `SoakChecks.FirstFailingIsUnique` | src/qualify/qual_checks.cpp:666-715 | A snapshot has only one first failing clause, so the contract decides the reason |
| `SoakLaws.SoakInNumbers` | src/qualify/qual_checks.cpp:623-721 | A pass in plain numbers: 100 frames, at most one gap in 1000, no stuck, black or white frame, every full window within 15% of the mean, variance * fps^2 below 40000 if there is a nominal rate, growth below 10240 KB |
| `SoakLaws.JitterDecides` | src/qualify/qual_checks.cpp:686-696 | When every other clause is clean the reason is none or Jitter, exactly by variance * fps^2 < 40000 |
| `SoakLaws.AlternatingCameraPassesIff` | src/qualify/qual_checks.cpp:686-696 | A camera whose intervals swing about their period passes, clean otherwise, exactly while the stddev of its intervals is below a fifth of the nominal period, for every number of frames |
| `SoakLaws.SwingBelowFifthPasses` | src/qualify/qual_checks.cpp:686-696 | So every swing below 20% of the nominal period passes, and with an even number of intervals no other |
| `SoakChecks.GapsTelescope` | src/qualify/frame_tap.cpp:107-117 | For increasing driver numbers, gaps + frames = last - first + 1 |
| `SoakChecks.PassDelivers` | src/qualify/qual_checks.cpp:667-675 | A pass certifies that at least 1000 of every 1001 numbered frames were delivered |
| `SoakChecks.PerfectCamerasExist` | src/qualify/frame_tap.cpp:72-166 | Frame sequences of perfect cameras exist, of every length, period, starting time and driver number |
| `SoakChecks.PerfectGaps` | src/qualify/frame_tap.cpp:107-117 | Consecutive 32-bit driver numbers leave no gap, even across the wrap through 0 |
| `SoakChecks.FirstFrameStep` | src/qualify/frame_tap.cpp:149-157 | A full 10 s window of a periodic camera holds m frames with (m - 1) periods < 10 s < (m + 1) periods |
| `SoakChecks.PerfectFullBucket` | src/qualify/frame_tap.cpp:148-157 | The exact count of every full bucket of a periodic run |
| `SoakChecks.LastBucket` | src/qualify/frame_tap.cpp:148-157 | How many buckets a periodic run fills, the cap of 8640 included |
| `SoakChecks.FullWindowsUpTo10s` | src/qualify/frame_tap.cpp:148-157 | For periods up to 10 s the full windows number min((n - 1) P / 10 s, 8639) |
| `SoakChecks.NoSagIffEven` | src/qualify/qual_checks.cpp:698-707 | The 15% clause in whole numbers: every count c of k windows with total F satisfies 17 F <= 20 k c <= 23 F |
| `SoakChecks.PerfectNoSag` | src/qualify/qual_checks.cpp:698-707 | On a perfect run the bucket clause holds exactly when the windows, which period and frame count decide, are even in that sense |
| `SoakChecks.ShortPeriodIsEven` | src/qualify/qual_checks.cpp:698-707 | Up to a period of 23/14 s the windows are even, however many there are |
| `SoakChecks.PerfectCameraPassesIff` | src/qualify/qual_checks.cpp:623-721 | A perfect camera passes exactly with 100 frames, memory in bounds and even windows |
| `SoakChecks.PerfectCameraPasses` | src/qualify/qual_checks.cpp:623-721 | Every perfect camera with a period up to 23/14 s passes: any length from 100 frames, any start, any nominal rate |
| `SoakChecks.Soak` | src/qualify/qual_checks.cpp:623-721 | End to end through Reset, OnFrame, Take and CheckSoak: on the frames of a perfect camera the verdict is Pass exactly under that condition, so always up to 23/14 s |
| `SoakChecks.SlowPerfectCameraFails` | src/qualify/qual_checks.cpp:698-707 | An instance beyond 23/14 s: 100 perfect frames at 1.65 s fail |
| `TimestampChecks.CheckTimestampStability` | src/qualify/qual_checks.cpp:389-457 | The metrics are the exact statistics after the five warm-up differences, and the verdict is exactly the clause order's |
| `SoakLaws.StabilityInNumbers` | src/qualify/qual_checks.cpp:389-457 | The verdict in plain numbers: 30 timestamps, all but the first six frames judged, strictly rising, variance * fps^2 below 40000, largest interval below 3000 / fps ms, in this order |
| `TimestampChecks.Deltas` | src/qualify/qual_checks.cpp:408-416 | The differences after the warm-up, and whether each of them is positive |
| `TimestampChecks.OnlineAgreesWithTwoPass` | src/qualify/qual_checks.cpp:407-428 | A tap fed the judged timestamps reports the same mean, variance, minimum and maximum as the two-pass judge |
| `TeeProtocol.ApplyKeepsLinks` | include/xmcam/pipeline/video_source.hpp:62-73 | No allowed action leaves a pointer to a dead sink, fanout or source |
| `SessionPrograms.StopSlotCompletes` | src/app/app_controller.cpp:294-300 | Detach, stop, reset of a recorder or RTSP sink keeps the session invariant and removes just that sink; the reset ends the process exactly for a recorder whose pipeline failed |
| `SessionPrograms.StopSourceCompletes` | src/app/app_controller.cpp:61-66 | Clearing the tee, stopping, joining and dropping the source keeps the session invariant |
| `SessionPrograms.TeardownCompletes` | src/app/app_controller.cpp:56-71 | Teardown leaves the session with neither source nor sinks and everything else as it was; it ends the process exactly if the session's recorder failed |
| `SessionPrograms.FindSessionMeaning` | src/app/app_controller.cpp:29-33 | The lookup finds the first session with the key, or none |
| `SessionPrograms.StartCompletes` | src/app/app_controller.cpp:41-54 | Restart in place or creation: the session's identity, position and new source, with every other record untouched |
| `SessionPrograms.StopSessionCompletes` | src/app/app_controller.cpp:165-175 | Stopping a session keeps the invariant of the rest |
| `SessionPrograms.StartExportCompletes` | src/app/app_controller.cpp:209-221 | Starting an export replaces what ran in its slot, and a sink that did not start leaves nothing attached |
| `SessionPrograms.StopAllCompletes` | src/app/app_controller.cpp:177-180 | Tearing everything down keeps the invariant |
| `SessionPrograms.OperationCompletes` | src/app/app_controller.cpp:41-71 | Every operation, called as its callers may, performs only allowed actions and re-establishes the session invariant |
| `ProcessEnds.OperationEndsProcessIff` | src/app/app_controller.cpp:294-300 | An operation ends the process exactly if it resets a recorder whose pipeline could not be built |
| `ProcessEnds.StartExportEnds` | src/app/app_controller.cpp:212-219 | Recording again ends the process exactly if the session is running and its recorder failed |
| `ProcessEnds.TeardownAllEnds` | src/app/app_controller.cpp:177-180 | Tearing all sessions down ends the process exactly if some recorder failed |
| `SinkFeeds.SinkIsFedIff` | src/app/app_controller.cpp:197-206 | For every operation: a sink registered before and after is fed exactly if the operation attaches a sink to that session's source, or the session was fed and not restarted |
| `SinkFeeds.StartFeeds` | src/app/app_controller.cpp:41-54 | A start silences the session with its key and no other |
| `SinkFeeds.StopSessionSources` | src/app/app_controller.cpp:165-175 | Stopping a session takes away just its source and its fanout |
| `SinkFeeds.StartExportSources` | src/app/app_controller.cpp:209-221 | An export that starts sets the tee of its session's source, and nothing else changes any tee |
| `SessionOutcomes.OperationOutcome` | src/app/app_controller.cpp:41-221 | For every operation: exactly the session records, the selection and the outside sinks that it leaves; a failed start does not select, stopping a session deselects just that one |
| `SessionOutcomes.RegisteredAfterIff` | src/app/app_controller.cpp:197-207 | For every operation that keeps the session: an outside sink is registered with it afterwards exactly if it was attached there, or was registered and not detached |
| `TeeLeaks.OperationLeavesNoOrphans` | src/app/app_controller.cpp:56-71 | No operation leaves a live source, fanout or sink that neither a session nor an outside party owns |
| `TeeLeaks.TeeNeverLeaks` | src/app/app_controller.cpp:56-71 | So in every run, whenever the render thread is between operations |
| `SessionPrograms.RestartKeepsIdentity` | src/app/app_controller.cpp:41-54 | Ids and keys survive restart in place; no recorder or RTSP sink is carried over |
| `SessionPrograms.RestartSilencesOutsideSinks` | src/app/app_controller.cpp:197-206 | The restart case spelled out: the outside sink is still registered and the new source tees to nothing |
| `TeeSafety.StepKeepsInv` | include/xmcam/pipeline/video_source.hpp:68-70 | Every render action and every producer step keeps the joint invariant |
| `TeeSafety.TeeIsSafe` | include/xmcam/core/fanout_sink.hpp:23-45 | In every state of every interleaving no producer calls a destroyed sink, fanout or source, between operations the session invariant holds, and the process ends only at the reset of a failed recorder |
| `TeeSafety.DetachIsNeeded` | src/app/app_controller.cpp:294-300 | A run of the producer after which destroying a still attached sink would leave a dangling call |
| `TeeSafety.JoinIsNeeded` | src/app/app_controller.cpp:61-66 | Dropping the source of a running thread, or erasing its session, would leave the thread a dangling use |
| `TeeProgress.RenderNeverStuck` | include/xmcam/core/fanout_sink.hpp:21-45 | In every state of every run the producers alone can reach a state in which the render thread takes its next action: no detach, attach or stop deadlocks |
| `TeeProgress.FinishThread` | src/app/app_controller.cpp:61-66 | A producer in any state can finish its frame, give back the lock and end |
| `TeeProgress.CallsAreInBounds` | include/xmcam/core/fanout_sink.hpp:42-45 | In every state of every run the next sink that a producer calls, if any, is one that is registered and alive |
| `TeeProgress.FailureThenStopEnds` | src/app/app_controller.cpp:294-300 | From every state between operations with a recorder that was not stopped: its pipeline may fail, and StopRecording then ends the process at its third action |
| `AppControllers.AppController.constructor` | include/xmcam/app/app_controller.hpp:82 | Starts with no session |
| `AppControllers.AppController.AttachFrameSink` | src/app/app_controller.cpp:197-202 | Refuses a session without a source; otherwise performs the attach program |
| `AppControllers.AppController.DetachFrameSink` | src/app/app_controller.cpp:204-206 | Performs the detach program |
| `AppControllers.AppController.StopExport` | src/app/app_controller.cpp:328-338 | Performs detach, stop, reset and clears just that slot, or ends the process exactly when that program does |
| `AppControllers.AppController.ShutDownSource` | src/app/app_controller.cpp:61-66 | Performs the four steps that end a source, in order |
| `AppControllers.AppController.TeardownSession` | src/app/app_controller.cpp:56-71 | Performs the teardown program and strips just that session, or ends the process exactly when that program does |
| `AppControllers.AppController.Start` | src/app/app_controller.cpp:85-119 | Performs the start program for opening and failing sources alike |
| `AppControllers.AppController.StartExport` | src/app/app_controller.cpp:209-221 | Performs the export program for sinks that start and sinks that do not |
| `AppControllers.AppController.StopSession` | src/app/app_controller.cpp:165-175 | Performs the stop program; deselects a stopped selection |
| `AppControllers.AppController.StopAll` | src/app/app_controller.cpp:177-180 | Performs every teardown and leaves no session |
| `FanoutSinks.WithoutDistinct` | include/xmcam/core/fanout_sink.hpp:28-32 | Removal keeps a duplicate-free list, and changes nothing for an absent sink |
| `FanoutSinks.AddThenRemove` | include/xmcam/core/fanout_sink.hpp:23-32 | Attaching a new sink and detaching it restores the list and its order |
| `FanoutSinks.FanoutSink.Contains` | include/xmcam/core/fanout_sink.hpp:33-36 | Membership, both ways |
| `FanoutSinks.FanoutSink.Add` | include/xmcam/core/fanout_sink.hpp:23-27 | Registers once, never twice |
| `FanoutSinks.FanoutSink.Remove` | include/xmcam/core/fanout_sink.hpp:28-32 | Unregisters the sink and keeps the others in order |
| `FanoutSinks.FanoutSink.OnFrame` | include/xmcam/core/fanout_sink.hpp:42-45 | Every registered sink gets the frame exactly once, in order |
| `I420Packing.RowsAt` | src/export/file_sink.cpp:141-151 | Byte (r, c) of a plane lands at r * cols + c, for any stride |
| `I420Packing.SameRowsIffSameVisible` | src/export/file_sink.cpp:133-151 | Two planes pack to the same bytes exactly when they agree on every visible byte: padding never leaks, nothing is lost |
| `I420Packing.TightLayout` | src/export/file_sink.cpp:136-151 | The three planes can be cut back out of the buffer and fill it, odd sizes included |
| `I420Packing.TightSize` | src/export/file_sink.cpp:136-139 | width * height bytes of luma and twice the half sizes, rounded up, of chroma |
| `I420Packing.PackingIsFaithful` | src/export/file_sink.cpp:133-151 | Two frames of one size pack alike exactly when they show the same picture |
| `I420Packing.CopyPlane` | src/export/file_sink.cpp:141-143 | One plane's loop writes exactly its rows and nothing else |
| `I420Packing.PackForFile` | src/export/file_sink.cpp:136-151 | The recorder's buffer is the tight picture |
| `I420Packing.PackForRtsp` | src/export/rtsp_sink.cpp:144-159 | The RTSP sink writes every byte of its buffer, and the same bytes as the recorder |
| `Recorders.StepKeepsInv` | src/export/file_sink.cpp:108-225 | Every step of producer, writer and owner keeps the accounts and the thread states |
| `Recorders.Conservation` | src/export/file_sink.cpp:153-196 | In every state of every run accepted = dropped + queued + in hand + written + refused, and at most 16 are queued |
| `Recorders.FifoOrder` | src/export/file_sink.cpp:153-196 | While the pipeline refuses nothing, file + hand + queue is exactly what was enqueued, in order |
| `Recorders.WhatIsQueued` | src/export/file_sink.cpp:108-139 | Passthrough queues the bitstream of compressed frames with a payload, the other formats the tight picture of I420 frames; nothing else is queued |
| `Recorders.DropsOnlyWhenFull` | src/export/file_sink.cpp:153-160 | Along every run a frame is dropped only when exactly 16 are queued, and queued last otherwise |
| `Recorders.StopDrains` | src/app/app_controller.cpp:294-300 | After detach and a normal writer exit nothing is queued, nothing can be added, and all accepted frames are accounted for |
| `Recorders.StopJoinsIffRunning` | src/export/file_sink.cpp:217-225 | A returned Stop joined the writer exactly when it found the recorder running |
| `Recorders.OnlyStopJoins` | src/export/file_sink.cpp:217-225 | Only a Stop that found the recorder running joins the writer, and what it saw stands until the next start or the destructor |
| `Recorders.SharedEpochAligns` | src/export/file_sink.cpp:183-190 | Across recorders with one epoch, file times differ by exactly the capture times' difference, whatever was dropped |
| `Recorders.TimelineZeroIsEpoch` | src/export/file_sink.cpp:183-188 | In every file of every run: no time without an epoch; with one, epoch + time is the capture time, or the time is 0 for a frame captured before the epoch |
| `Recorders.OneFrameRecorded` | src/export/file_sink.cpp:165-200 | A recording as it should be: the frame is in the file, the writer joined, and the recorder goes without harm |
| `Recorders.ReturnedStopEndsProcessIff` | src/export/file_sink.cpp:217-223 | After a returned Stop, destroying or restarting the recorder ends the process exactly if its writer left for want of a pipeline, that is, if it was started and Stop did not see it running |
| `Recorders.RunningDecides` | src/app/app_controller.cpp:294-300 | For a started recorder, Stop and destroy end the process exactly if running() was false just before Stop |
| `Recorders.FailedPipelineEndsProcess` | src/export/file_sink.cpp:175-178 | The managed run from a fresh recorder through the failing pipeline, detach, Stop and destroy to the end of the process |
| `Recorders.StopWithoutDetachCanStrand` | src/export/file_sink.cpp:108-161 | Why the detach comes first: without it an accepted frame can be neither written nor counted as dropped |
| `FileSinks.FileSink.Start` | src/export/file_sink.cpp:25-46 | A running recorder is left alone; an unjoined thread ends the process; otherwise statistics, format and epoch are reset |
| `FileSinks.FileSink.Destroy` | src/export/file_sink.cpp:23 | The destructor is a protocol step: harmless with a joined thread, the end of the process otherwise |
| `FileSinks.FileSink.Prepare` | src/export/file_sink.cpp:108-151 | The unlocked half of OnFrame: which frames are ignored and what is queued for the others |
| `FileSinks.FileSink.Enqueue` | src/export/file_sink.cpp:153-160 | The locked half: enqueue, or drop and count when 16 are queued |
| `FileSinks.FileSink.Take` | src/export/file_sink.cpp:166-173 | The writer's critical section is a protocol step: the oldest frame, or the normal exit |
| `FileSinks.FileSink.Write` | src/export/file_sink.cpp:175-195 | Building, pushing and time-stamping is a protocol step, and so is the failing pipeline |
| `FileSinks.FileSink.Stop` | src/export/file_sink.cpp:217-222 | The exchange is a protocol step and says whether the caller joins |
| `SlotLeases.CountedIsBacked` | include/xmcam/pipeline/v4l2_source.hpp:29-32 | Correct reference counts imply that every live frame's pool is mapped and its descriptor open |
| `SlotLeases.StepKeepsCounts` | src/pipeline/v4l2_source.cpp:273-307 | Every step of capture, release, stop, close and recovery keeps every reference count exact |
| `SlotLeases.FramesStayBacked` | src/pipeline/v4l2_source.cpp:83-104 | Unmap safety over every run, any number of recoveries and stops, for both lease variants |
| `SlotLeases.NothingLeaks` | src/pipeline/v4l2_source.cpp:83-95 | Conversely, a pool with no owner left is unmapped, and a descriptor with none is closed |
| `SlotOwnership.StepKeepsOwners` | src/pipeline/v4l2_source.cpp:360-461 | Every step keeps one owner per slot |
| `SlotOwnership.EverySlotHasOneOwner` | src/pipeline/v4l2_source.cpp:431-440 | Intended lease: in every state of every run each slot is in exactly one of queue, failed hand-backs, capture loop and one live lease, and is handed back once per dequeue |
| `HealthyDriver.EverySlotIsInUse` | src/pipeline/v4l2_source.cpp:430-440 | Intended lease, a driver that takes what it is given: in every state of every run each slot is in exactly one of kernel queue, capture loop and one live frame; none is ever lost |
| `HealthyDriver.NothingIsLost` | src/pipeline/v4l2_source.cpp:96-105 | On such a run no hand-back fails: the descriptor is open as long as its pool has an owner |
| `HealthyDriver.LastReleaseRequeues` | src/pipeline/v4l2_source.cpp:438 | The last release of a frame puts its slot back into the queue |
| `HealthyDriver.RefusedReleaseLoses` | src/pipeline/v4l2_source.cpp:96-105 | A last release whose hand-back the driver refuses takes the slot out of use: it is not dequeued again |
| `HealthyDriver.FrameLivesWhileCopied` | src/pipeline/v4l2_source.cpp:431-440 | Both variants: a frame has as many copies as were made and not released, keeps its slot, and goes exactly with the last of them |
| `HealthyDriver.LostWhileRecovering` | src/pipeline/v4l2_source.cpp:466-515 | From a start until the next stop the statistics say lost exactly while the loop is recovering |
| `HealthyDriver.CapturesFromOpenDevice` | src/pipeline/v4l2_source.cpp:309-340 | While the loop captures, the source has an open device and a mapped pool |
| `HealthyDriver.PoolsHaveTwoSlots` | src/pipeline/v4l2_source.cpp:280 | Every pool has at least two slots |
| `HealthyDriver.DecodedFrame` | src/pipeline/v4l2_source.cpp:395-428 | A run of the decoder branch: the slot is back at once and no frame is out |
| `HealthyDriver.RawFrame` | src/pipeline/v4l2_source.cpp:430-460 | A run of the raw branch with two copies of one frame |
| `HealthyDriver.RecoveryWhileFrameIsOut` | src/pipeline/v4l2_source.cpp:465-523 | A run in which the device is lost and found while a frame is out: its memory stays mapped until its release, which touches the old pool only |
| `HealthyDriver.StopAndClose` | src/pipeline/v4l2_source.cpp:84-94 | A run in which stop and close with no frame out leave every pool unmapped and every descriptor closed |
| `SlotOwnership.IntendedFramesAreExclusive` | src/pipeline/v4l2_source.cpp:431-432 | Intended lease: no two live frames share a slot |
| `SlotOwnership.IntendedFramesKeepSlots` | src/pipeline/v4l2_source.cpp:431-432 | Intended lease: a live frame's slot has not been handed back, successfully or not |
| `SlotOwnership.LiteralWrapLosesTheSlot` | src/pipeline/v4l2_source.cpp:435-440 | Literal lease: wrapping a raw frame hands its slot back at once |
| `SlotOwnership.OnlyRawDeliveryWraps` | src/pipeline/v4l2_source.cpp:374-440 | A lease is made exactly when the loop passes on a buffer without a decoder |
| `SlotOwnership.LiteralKeepsSlotsIffDecoded` | src/pipeline/v4l2_source.cpp:374-440 | Literal lease: from a state without frames no live frame's slot is handed back, exactly when no buffer is passed on without a decoder |
| `SlotOwnership.DecoderIsFixed` | src/pipeline/v4l2_source.cpp:309-337 | From start to stop the branch is fixed, through any number of recoveries |
| `SlotOwnership.LiteralStreamKeepsSlotsIff` | src/pipeline/v4l2_source.cpp:374-440 | So the promise is decided by the decoder when the loop starts |
| `SlotOwnership.LiteralFramesAlias` | src/pipeline/v4l2_source.cpp:435-440 | A literal run with two live frames on one slot |
| `SlotOwnership.OldPoolsOnlySeeTheirOwnFrames` | src/pipeline/v4l2_source.cpp:470-473 | A pool that was let go of is never current again and only the last release of its own frames still touches it |
| `SlotOwnership.GenerationCountsRecoveries` | src/pipeline/v4l2_source.cpp:510-515 | The published generation grows by exactly the number of recoveries; whoever saw the device lost and then back saw it grow |
| `Recovery.WaitsAreBounded` | src/pipeline/v4l2_source.cpp:484-487 | From the fifth round on the wait is two seconds, with the exact total |
| `Recovery.CaptureSource.TryCandidates` | src/pipeline/v4l2_source.cpp:489-520 | One round adopts its first viable path, or leaves the source without device and pool |
| `Recovery.CaptureSource.RecoverDevice` | src/pipeline/v4l2_source.cpp:465-523 | Succeeds exactly if some path is viable before the stop; adopts the first viable one of the first such round, which opens, negotiates, has buffers and is never another card when one is known; raises the generation by one and publishes it |
| `Recovery.RecoversInTime` | src/pipeline/v4l2_source.cpp:489-520 | A camera that can be had in some round before the stop is had in that round at the latest |
| `Recovery.PortWins` | src/pipeline/v4l2_source.cpp:475-482 | A viable by-path link is adopted whatever else answers |
| `Recovery.MaintainRecovery` | src/app/app_controller.cpp:182-195 | Exactly the sessions whose generation changed get their controls rebuilt, once, on the camera that the session's own key leads to, with the epoch raised for capture devices |
| `Recovery.RebuildControls` | src/app/app_controller.cpp:73-83 | Controls are dropped for other sources, and else opened anew on the key; a key that does not open leaves none |
| `Recovery.MaintainedOnce` | src/app/app_controller.cpp:186-187 | A second look changes nothing, whatever happens on the bus |
| `Recovery.ControlsFollowIff` | src/app/app_controller.cpp:78-81 | After a recovery the controls talk to the captured camera exactly if the original node leads to it, always if the node was adopted; there are none exactly if the node does not open |
| `Recovery.RecoveryByPortLosesControls` | src/app/app_controller.cpp:188-190 | A recovery by port on a new node: the source captures one camera, the controls drive another |
| `Controls.PopulateMenu` | src/control/control_introspector.cpp:67-86 | The loop lists the items of every known index in range |
| `Controls.MenuListsValidIndices` | src/control/control_introspector.cpp:65-86 | A menu of either kind lists exactly the valid indices in range, ascending: item k is that of the k-th valid index |
| `Controls.MenuShowsItems` | src/control/control_introspector.cpp:120-123 | Only types 3 and 9 have menus: index and name in the one, the number as value and text in the other |
| `Controls.KindOfType` | src/control/control_introspector.cpp:42-63 | Every kind comes from exactly one of the kernel's type numbers, all others are unknown |
| `Controls.ShownIff` | src/control/control_introspector.cpp:105 | The list leaves out class markers, rows without an id, and compound controls of an older kernel |
| `Controls.Int32IsLowWord` | src/control/control_set.cpp:73 | The value read is the one signed 32-bit number that differs from the register by a multiple of 2^32 |
| `Controls.WalkStep` | src/control/control_introspector.cpp:94-126 | Appending the least greater row keeps the list complete up to the cursor |
| `Controls.WalkControls` | src/control/control_introspector.cpp:90-128 | The walk ends on any finite table in any order and lists exactly the non-class controls, ascending, each once |
| `Controls.Enumerate` | src/control/control_introspector.cpp:132-154 | With the fallback the list is exactly what the kernel can show, old or new |
| `ExposureSweep.PointsRise` | src/qualify/qual_checks.cpp:187-189 | The log-spaced points rise from the low to exactly the high end |
| `ExposureSweep.ClampNeverFires` | src/qualify/qual_checks.cpp:189-192 | Rounded and snapped points are in range and on the grid, in order, so the clamp changes nothing |
| `ExposureSweep.DeriveSweepValues` | src/qualify/qual_checks.cpp:180-196 | One rounded, snapped value per point without repetitions: empty exactly if no part of the range is useful; else strictly ascending, in range, on the grid, from the snapped low to the snapped high end |
| `ExposureSweep.FirstValuesAreSwept` | src/qualify/qual_checks.cpp:187-194 | After every point the values are ascending, in range and on the grid, and end at that point |
| `ExposureSweep.SweepEndsInNumbers` | src/qualify/qual_checks.cpp:183-193 | Without a step the sweep goes from the larger of the minimum and a 512th of the maximum to a quarter of the maximum, rounded |
| `ExposureSweep.RoundThenSnap` | src/qualify/qual_checks.cpp:189-191 | Rounding moves a value by at most a half, snapping down by less than a step, onto the grid |
| `ExposureSweep.PointsAreGeometric` | src/qualify/qual_checks.cpp:187-189 | The inner points are the geometric means between the ends |
| `ExposureSweep.PointsAreSwept` | src/qualify/qual_checks.cpp:187-194 | Every one of the four points is in the list, and nothing else is |
| `ControlSets.ControlSet.Find` | src/control/control_set.cpp:39-49 | The first cached descriptor with the id |
| `ControlSets.ControlSet.Get` | src/control/control_set.cpp:51-74 | Reads change no register; narrow controls are read as 32 bits |
| `ControlSets.ControlSet.Set` | src/control/control_set.cpp:76-127 | The refusals in their order, the 32-bit truncation, and the list that the introspection after the write returned, cut short or not |
| `ControlSets.ControlSet.Refresh` | src/control/control_set.cpp:28-37 | Replaces the cached list by the device's, or refuses a closed device |
| `ControlSets.RefusedUnlessSettable` | src/control/control_set.cpp:78-90 | Set reaches the driver exactly for a known, writable, active, enabled control of an open device |
| `ControlSets.RefusedByFlags` | include/xmcam/control/control_info.hpp:55-61 | The refusals by the driver's flag bits 0x01, 0x04 and 0x10 |
| `ControlSets.OnlyType5IsWide` | src/control/control_set.cpp:19-22 | Of all controls a driver can describe just those of type 5 are written with more than 32 bits |
| `ControlSets.SetAutoRestorable` | src/qualify/qual_checks.cpp:314-330 | Switching to manual keeps the originals restorable, whatever the driver answers |
| `ControlSets.SetTargetRestorable` | src/qualify/qual_checks.cpp:332-339 | So does writing the target, and a write that succeeded leaves the target writable |
| `ControlSets.PauseRestorable` | src/qualify/qual_checks.cpp:341-348 | So does any drift of a writable target |
| `ControlSets.HonestWrite` | src/control/control_set.cpp:80-110 | On an honest driver an original written back arrives exactly if the control is settable by the cached list |
| `ControlSets.TargetComesBackIff` | src/qualify/qual_checks.cpp:300-305 | After the target's restore its register is the original exactly if it was not moved or could be read and is settable |
| `ControlSets.RestoreReturnsIff` | src/qualify/qual_checks.cpp:297-312 | Restoring target, then auto, on an honest driver brings back every register if and only if each one that was moved was read and is settable by the list at hand when its turn comes, with or without an auto control and however the walks were cut |
| `ControlSets.RestoreReturns` | src/qualify/qual_checks.cpp:297-312 | From any restorable state, if the walks after the restore writes are complete, every register is back |
| `ControlChecks.ReadOriginals` | src/qualify/qual_checks.cpp:290-295 | Yields exactly what the reads in that order give, and moves only the clock |
| `ControlChecks.RestoreOriginals` | src/qualify/qual_checks.cpp:297-312 | From the state it starts in: the exact new state; registers as found if no walk was cut short; and, on a driver that takes the writes, as found if and only if the guards let the writes through |
| `ControlChecks.ReachedBySet` | src/qualify/qual_checks.cpp:314-339 | Whatever the driver does, a write to target or auto touches no other register and keeps the width a control is listed with |
| `ControlChecks.CheckControlLock` | src/qualify/qual_checks.cpp:268-387 | Each verdict is given exactly when its step is the first that fails or the hold decides; the state in which restoring starts and the end state are exact; registers as found under complete walks, and if and only if the restore guards let the writes through |
| `ControlChecks.LockVerdictIsUnique` | src/qualify/qual_checks.cpp:268-387 | The conditions of the verdicts exclude each other, so the contract decides the verdict |
| `ControlChecks.HoldTarget` | src/qualify/qual_checks.cpp:341-382 | The verdict is that of the first sample that cannot be read or differs, else held or volatile, with the samples as the camera gives them |
| `ControlChecks.SamplesFillHold` | src/qualify/qual_checks.cpp:342 | One sample for every full 100 ms of the hold, and at least one |
| `ControlChecks.FlagsDecide` | include/xmcam/control/control_info.hpp:55-59 | INACTIVE and VOLATILE are the driver's bits 0x10 and 0x80 |
| `EffectChecks.CheckControlEffect` | src/qualify/qual_checks.cpp:513-621 | Each verdict is given exactly when its step is the first that fails: a failed write names the first sweep value that is refused, all earlier ones accepted; a pass means an ascending sweep whose window means never drop by more than one level and rise enough; states and restoring as in the lock check |
| `EffectChecks.EffectVerdictIsUnique` | src/qualify/qual_checks.cpp:513-621 | So do those of the sweep |
| `EffectChecks.SweepTarget` | src/qualify/qual_checks.cpp:578-596 | Writes the values in order up to the first that is refused, with one fresh window after each accepted one |
| `EffectChecks.JudgeEffect` | src/qualify/qual_checks.cpp:599-620 | Names the first step that drops, else compares the total rise |
| `EffectChecks.EffectInNumbers` | src/qualify/qual_checks.cpp:599-620 | In numbers: no step down by more than one level and a rise of at least the minimum, or the first larger step down, or too small a rise |
| `EffectChecks.CheckWriteEffectLatency` | src/qualify/qual_checks.cpp:902-1028 | Each verdict is given exactly when its step is the first that fails: low write, baseline, high write, or the polls; the answer is the first response of the first poll that has one, with the frames up to it; states and restoring as in the lock check |
| `EffectChecks.LatencyVerdictIsUnique` | src/qualify/qual_checks.cpp:902-1028 | And those of the latency check |
| `EffectChecks.LatencyInNumbers` | src/qualify/qual_checks.cpp:976-1009 | From the verdict alone: the response is the very first sample after the write, over all polls, that is brighter than the baseline by more than 10 levels and more than a quarter; no response means that there is none |
| `EffectChecks.AwaitResponse` | src/qualify/qual_checks.cpp:996-1009 | No response exactly after every poll before the deadline was silent, else the first poll that was not |
| `EffectChecks.ResponseIsCounted` | src/qualify/qual_checks.cpp:1017-1019 | The responding frame is among the frames counted |
| `RestoreOrder.ReverseRestoreIff` | src/qualify/qual_checks.cpp:297-312 | The reverse order restores exactly when the target was undisturbed or stays writable in auto mode |
| `RestoreOrder.ReverseOrderLosesExposure` | src/qualify/qual_checks.cpp:551-552 | On a camera with auto exposure the checks' order restores and the reverse order loses the exposure |
| `RestoreOrder.OnlyOneWalkIsCut` | src/control/control_set.cpp:28-37 | That driver takes every write as it is and all its walks but one are complete; the camera meets every hypothesis of the restore condition |
| `RestoreOrder.CutWrite` | src/control/control_set.cpp:76-127 | The lock check's own reads, switch and write, where the walk after the write lists nothing, end in manual mode with the value written and no list |
| `RestoreOrder.CutWalkStrandsExposure` | src/qualify/qual_checks.cpp:268-387 | The concrete run: for every hold time and value the lock check passes, both restore writes are refused as unknown controls, and the registers stay changed |
| `ColorConversion.CpuMatchesShader` | src/ui/yuv_converter.cpp:37-43 | For all 2^24 pixels the CPU path is within two levels of the shader, never above it in red and blue; one level would not do |
| `ColorConversion.BlackAndWhite` | src/ui/frame_texture.cpp:18-27 | Reference black and white are exact |
| `ColorConversion.PicturesAreOpaque` | src/ui/frame_texture.cpp:26 | No pixel of either kind of picture is transparent |
| `ColorConversion.Yuv2Rgb` | src/ui/frame_texture.cpp:18-27 | Writes one pixel of the image and no other byte before it |
| `ColorConversion.YuyvImageAt` | src/ui/frame_texture.cpp:31-40 | Pixel (x, y) of a YUYV image uses its own luma and its pair's chroma |
| `ColorConversion.ReadPair` | src/ui/frame_texture.cpp:34-38 | The moving pointers read the pair's four bytes, in bounds, odd widths included |
| `ColorConversion.ConvertYuyvToRgba` | src/ui/frame_texture.cpp:29-42 | The output is exactly the image, for every size and sufficient stride |
| `ColorConversion.Nv12ImageAt` | src/ui/frame_texture.cpp:46-54 | Pixel (x, y) of an NV12 image uses the chroma pair at (x / 2, y / 2) |
| `ColorConversion.ConvertNv12ToRgba` | src/ui/frame_texture.cpp:44-59 | The output is exactly the image, for every size and sufficient strides |
| `ColorConversion.FitsIffLastByteIsThere` | src/ui/frame_texture.cpp:29-59 | The memory that a frame must have is just what is read, up to the last byte that the last pixel reads |
| `Numerals.HexValue` | src/export/config_writer.cpp:21-25 | Reading back k hex digits gives the number they print |
| `Numerals.DecimalReads` | src/export/config_reader.cpp:43-45 | Printed decimals are never mistaken for octal or hex |
| `Numerals.SignedDecimalReads` | src/export/config_reader.cpp:51-54 | Every integer of the range survives its decimal text |
| `Numerals.ControlIdRoundTrip` | src/export/config_reader.cpp:36-48 | Every 32-bit id survives the written hex form and the plain decimal form |
| `Numerals.HexIdKeptIff` | src/export/config_reader.cpp:44-47 | Of all 64-bit ids in hex exactly those below 2^32 are read as themselves |
| `Numerals.LeadingZeroIsOctal` | src/export/config_reader.cpp:43-44 | An id with a leading 0 is read in base eight |
| `Numerals.NegativeIdWraps` | src/export/config_reader.cpp:44-46 | A negative id is not refused: it is read as its complement to 2^32 |
| `Numerals.SpaceAround` | src/export/config_reader.cpp:44-45 | White space before a number is skipped, behind it nothing may follow |
| `Numerals.ScalarExamples` | src/export/config_reader.cpp:36-48 | Both cases of hex digits and prefix; 08, 0x, a lone sign and the empty text are refused |
| `CameraConfigs.Write` | src/export/config_writer.cpp:29-84 | Builds the document of the configuration |
| `CameraConfigs.ParseRoot` | src/export/config_reader.cpp:66-129 | Fills the configuration from any document, with the defaults for what is missing or unfit |
| `CameraConfigs.PixelFormatRoundTrip` | src/core/pixel_format.cpp:37-51 | Every pixel format name is read back as its format |
| `CameraConfigs.PixelFormatFromStringIff` | src/export/config_reader.cpp:22-34 | A text is read as a format exactly if it is that format's written name, and as unknown exactly if it is none of them |
| `CameraConfigs.LowerCaseIsUnknown` | src/export/config_reader.cpp:19-21 | The lower-case spelling of a name is not read |
| `CameraConfigs.ControlsSurvive` | src/export/config_reader.cpp:113-125 | Every list of control values survives writing and parsing, in order |
| `CameraConfigs.WriteThenParse` | src/export/config_reader.cpp:66-129 | parse(write(cfg)) is the canonical form, for every configuration |
| `CameraConfigs.CanonicalIdempotent` | src/export/config_writer.cpp:36-60 | Canonicalising twice is canonicalising once |
| `CameraConfigs.CanonicalWritesTheSame` | src/export/config_writer.cpp:29-84 | The canonical form writes the same document |
| `CameraConfigs.RewriteReproduces` | src/export/config_writer.cpp:29-84 | Parsing a written document and writing it again reproduces it |
| `CameraConfigs.ExactRoundTripIff` | src/export/config_writer.cpp:36-66 | Exactly the configurations with no field of the other source kind come back unchanged |
| `CameraConfigs.UnknownKeysIgnored` | docs/design/config-schema.md:55 | An unknown root key changes nothing, wherever it stands |
| `CameraConfigs.NothingGivenIsDefault` | src/export/config_reader.cpp:66-129 | A document that says nothing, at the top or in its sections, gives version 1 and a V4L2 source without device, format or controls; a root that is not a map is refused |
| `CameraConfigs.UnfitFormatIsZero` | src/export/config_reader.cpp:98-111 | A size or rate that is missing or no number is 0, a missing fourcc leaves the format |
| `CameraConfigs.WholeRateIsRead` | src/export/config_reader.cpp:98-111 | A whole number is taken as a rate, too |
| `CameraConfigs.OddItemsAreSkipped` | src/export/config_reader.cpp:113-125 | An item of the control list that is not a map is skipped, wherever it stands |
| `CameraConfigs.UnfitControlIsZero` | src/export/config_reader.cpp:113-125 | A control entry without a readable id, value or name keeps 0 or the empty name |
| `CameraConfigs.WordsAreValues` | src/export/config_reader.cpp:50-64 | Every word for yes is 1 and every word for no is 0, in the three spellings |
| `CameraConfigs.OtherValues` | src/export/config_reader.cpp:50-64 | Any other text is a value exactly if it is a 64-bit number |

## Left out

- Locks of `FrameTap`, `FanoutSink` and `FileSink` inside one method: a critical section is one atomic step, and the unlocked half of `OnFrame` works on its own frame.
- Floating-point rounding, the square root of the standard deviation and overflow of counters: reals, variances and unbounded counts.
- Formatting of metrics and detail texts in check results, and the checks for serials, USB links, enumeration, fingerprints and open/close cycles: string building, host I/O or one comparison.
- `SoakChecks.PerfectCameraPassesIff`: a perfect run has exactly equal timestamp differences; how much jitter the other clauses tolerate is not stated.
- `TeeProgress.RenderNeverStuck`: the producers can always get out of the way; that the scheduler lets them is not modelled.
- Liveness of `FileSink::Stop`: it flips the flag without the mutex, so a missed wake-up of the writer is neither excluded nor modelled; `Recorders` claims safety only.
- GStreamer pipelines: building, pushing and finalizing are answers of the environment, and end-of-stream handling is not modelled.
- `I420Packing.PackForRtsp`: packs a valid frame; caps negotiation, the feed flag and the client connection are not part of this model.
- `StartRecordingGroup` and `StopRecordingGroup`: successive single operations with one epoch; the manifest file is not modelled.
- Labels, statistics, controls, configuration and the two build options in a session record: they carry no ownership of sinks or threads.
- The recorder inside the tee protocol: there a sink is an object that is alive or not, and a recorder is failed or not; its own protocol is `Recorders`, where failed means that the writer left on its own.
- `quickviz::DataStream`: a holder that may copy or drop a frame at any time.
- `AppControllers.AppController.Start`: opening and starting the new source is one outcome, so a source that opened but did not start is destroyed at once, as in the source.
- The driver's view of two pools on one descriptor (stop and start without close while frames are out): each pool has its own queue here, as it does after a recovery.
- Format negotiation, `QueryCaps` and the decoder branch's frames in `SlotLeases`: opening the decoder is a step, and the branch is one step that hands the slot back.
- `Recovery.CaptureSource.RecoverDevice`: the round at which `Stop` is seen is a parameter, so a wait that never ends is not a run.
- Compound control payloads and string values: the walk lists such controls, reading and writing them is not modelled.
- `EffectChecks.CheckControlEffect`: the mean luma of each sampling window is a parameter; what it means for the frames of the window is `FrameTaps.FrameTap.Take`.
- `Recovery.MaintainRecovery`: which camera a path leads to at one moment is a parameter; opening and introspecting it is one outcome.
- `ExposureSweep.DeriveSweepValues`: the power function is a ratio whose cube is high / low.
- YAML text: the document is a tree, strings survive quoting, and a floating-point scalar carries its value; a decimal fraction in a hand-written integer field is not read.
- Embedded NUL characters and locale in number parsing.
- ImGui panels, OpenGL resources, docking and the preview grid: user interface.
