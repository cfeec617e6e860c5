/** The file recorder as a protocol between a producer thread, a writer thread and the thread
    that starts and stops it. Safety only: a missed wake-up of the writer is not excluded. */
module Recorders {
  import opened PixelFormats
  import opened VideoFrames
  import opened I420Packing

  datatype FileFormat = H264Mkv | PassthroughMkv | Ffv1Mkv | Y4m

  /** A queued frame: tight I420, or a compressed bitstream. */
  datatype Packed = Packed(fmt: PixelFormat, width: int, height: int, ptsNs: int, data: seq<Byte>)

  const MAX_QUEUE: nat := 16

  /** The memory a producer promises: the payload of a compressed frame, the planes of a raw one. */
  predicate Deliverable(f: VideoFrame) {
    f.Valid() ==>
      && (IsCompressed(f.format) ==> f.dataSize <= |f.data.value|)
      && (f.format.I420? ==> Packable(f))
  }

  /** What OnFrame queues for a frame; None if the recorder's format ignores it. */
  function Pack(format: FileFormat, f: VideoFrame): Option<Packed>
    requires Deliverable(f)
  {
    if !f.Valid() then None
    else if format.PassthroughMkv? then
      if !IsCompressed(f.format) || f.dataSize == 0 then None
      else Some(Packed(f.format, f.width, f.height, f.ptsNs, f.data.value[..f.dataSize]))
    else if !f.format.I420? then None
    else Some(Packed(f.format, f.width, f.height, f.ptsNs, Tight(f)))
  }

  /** Time stamp in the file: capture time relative to the shared epoch, or None when the
      element stamps by arrival. */
  function FileTime(epochNs: int, p: Packed): Option<int> {
    if epochNs == 0 then None
    else Some(if p.ptsNs > epochNs then p.ptsNs - epochNs else 0)
  }

  /** What became of a frame the writer took: in the file, or refused by the pipeline. */
  datatype Processed = Written(p: Packed, time: Option<int>) | Lost(p: Packed)

  datatype Writer = NotStarted | Waiting | Holding(p: Packed) | Exited(drained: bool) | Joined(drained: bool)

  /** The thread that owns the recorder: not stopping, inside Stop's join, returned from Stop,
      which did or did not find the recorder running, or past the destructor. */
  datatype Owner = Recording | Joining | Stopped(sawRunning: bool) | Destroyed

  datatype Recorder = Recorder(
    format: FileFormat, epochNs: int,
    running: bool, queue: seq<Packed>, built: bool,
    framesWritten: nat, framesDropped: nat,
    writer: Writer, owner: Owner,
    attached: bool, pending: Option<Packed>,
    accepted: nat, enqueued: seq<Packed>, processed: seq<Processed>,
    aborted: bool)

  const NEW_RECORDER :=
    Recorder(H264Mkv, 0, false, [], false, 0, 0, NotStarted, Recording, false, None, 0, [], [], false)

  // ---- steps -------------------------------------------------------------------------

  /** Assigning to a thread that was neither joined nor empty ends the process. */
  predicate ThreadFree(r: Recorder) {
    r.writer.NotStarted? || r.writer.Joined?
  }

  function Start(r: Recorder, format: FileFormat, epochNs: int): Recorder {
    if r.running then r
    else if !ThreadFree(r) then r.(aborted := true)
    else r.(format := format, epochNs := epochNs, framesWritten := 0, framesDropped := 0,
            running := true, writer := Waiting, owner := Recording,
            accepted := |r.queue|, enqueued := r.queue, processed := [])
  }

  predicate StartStep(r: Recorder, r': Recorder, format: FileFormat, epochNs: int) {
    !r.owner.Joining? && !r.owner.Destroyed? && r' == Start(r, format, epochNs)
  }

  /** The destructor. Its own Stop does nothing on a recorder that is not running; then the thread
      member goes, and one that was never joined ends the process. */
  function Destroy(r: Recorder): Recorder {
    if ThreadFree(r) then r.(owner := Destroyed) else r.(aborted := true)
  }

  /** A running recorder passes through Stop first. */
  predicate DestroyStep(r: Recorder, r': Recorder) {
    !r.running && !r.owner.Joining? && !r.owner.Destroyed? && r' == Destroy(r)
  }

  /** OnFrame up to the lock: the running check and the packing. */
  predicate BeginOnFrame(r: Recorder, r': Recorder, f: VideoFrame) {
    && r.attached && r.pending.None? && Deliverable(f)
    && r' == if r.running && Pack(r.format, f).Some? then r.(pending := Pack(r.format, f)) else r
  }

  /** OnFrame under the lock: drop when the queue is full, enqueue otherwise. */
  predicate FinishOnFrame(r: Recorder, r': Recorder) {
    && r.pending.Some?
    && r' == if |r.queue| >= MAX_QUEUE
             then r.(pending := None, accepted := r.accepted + 1, framesDropped := r.framesDropped + 1)
             else r.(pending := None, accepted := r.accepted + 1,
                     queue := r.queue + [r.pending.value], enqueued := r.enqueued + [r.pending.value])
  }

  predicate WriterTakes(r: Recorder, r': Recorder) {
    && r.writer.Waiting? && |r.queue| > 0
    && r' == r.(writer := Holding(r.queue[0]), queue := r.queue[1..])
  }

  /** The normal exit: nothing queued and no longer running. The file is finalized. */
  predicate WriterDrained(r: Recorder, r': Recorder) {
    && r.writer.Waiting? && |r.queue| == 0 && !r.running
    && r' == r.(writer := Exited(true), built := false)
  }

  /** The pipeline cannot be built from the first frame: stop running and leave. */
  predicate PipelineFails(r: Recorder, r': Recorder) {
    && r.writer.Holding? && !r.built
    && r' == r.(running := false, writer := Exited(false), processed := r.processed + [Lost(r.writer.p)])
  }

  /** Build the pipeline if need be and push the frame; `ok` is the pipeline's answer. */
  predicate WriterPushes(r: Recorder, r': Recorder, ok: bool) {
    && r.writer.Holding?
    && r' == if ok
             then r.(built := true, writer := Waiting, framesWritten := r.framesWritten + 1,
                     processed := r.processed + [Written(r.writer.p, FileTime(r.epochNs, r.writer.p))])
             else r.(built := true, writer := Waiting, processed := r.processed + [Lost(r.writer.p)])
  }

  predicate AttachStep(r: Recorder, r': Recorder) {
    r' == r.(attached := true)
  }

  /** Remove waits for the fanout's mutex, so no OnFrame is in progress afterwards. */
  predicate DetachStep(r: Recorder, r': Recorder) {
    r.pending.None? && r' == r.(attached := false)
  }

  predicate StopBegins(r: Recorder, r': Recorder) {
    && !r.owner.Joining? && !r.owner.Destroyed?
    && r' == if r.running then r.(running := false, owner := Joining)
             else if r.owner.Recording? then r.(owner := Stopped(false))
             else r
  }

  predicate StopJoins(r: Recorder, r': Recorder) {
    && r.owner.Joining? && r.writer.Exited?
    && r' == r.(writer := Joined(r.writer.drained), owner := Stopped(true))
  }

  ghost predicate Step(r: Recorder, r': Recorder) {
    || (exists format, epochNs :: StartStep(r, r', format, epochNs))
    || (exists f :: BeginOnFrame(r, r', f))
    || FinishOnFrame(r, r')
    || WriterTakes(r, r') || WriterDrained(r, r') || PipelineFails(r, r')
    || (exists ok :: WriterPushes(r, r', ok))
    || AttachStep(r, r') || DetachStep(r, r')
    || StopBegins(r, r') || StopJoins(r, r') || DestroyStep(r, r')
  }

  /** What the session manager adds: attach only while recording, detach before stopping. */
  ghost predicate ManagedStep(r: Recorder, r': Recorder) {
    && Step(r, r')
    && (!r.attached && r'.attached ==> r.owner.Recording?)
    && (r.owner.Recording? && !r'.owner.Recording? ==> !r.attached && r.pending.None?)
  }

  ghost predicate IsRun(run: seq<Recorder>) {
    && |run| > 0 && run[0] == NEW_RECORDER
    && forall i :: 0 <= i < |run| - 1 ==> Step(run[i], run[i + 1])
  }

  ghost predicate IsManagedRun(run: seq<Recorder>) {
    && |run| > 0 && run[0] == NEW_RECORDER
    && forall i :: 0 <= i < |run| - 1 ==> ManagedStep(run[i], run[i + 1])
  }

  // ---- accounting -----------------------------------------------------------------------

  function Packets(done: seq<Processed>): (s: seq<Packed>)
    ensures |s| == |done| && forall i :: 0 <= i < |s| ==> s[i] == done[i].p
  {
    if |done| == 0 then [] else Packets(done[..|done| - 1]) + [done[|done| - 1].p]
  }

  /** The frames in the file, in file order. */
  function InFile(done: seq<Processed>): seq<Packed> {
    if |done| == 0 then []
    else
      var rest, last := InFile(done[..|done| - 1]), done[|done| - 1];
      if last.Written? then rest + [last.p] else rest
  }

  function InHand(r: Recorder): seq<Packed> {
    if r.writer.Holding? then [r.writer.p] else []
  }

  /** Frames the pipeline refused. */
  function LostCount(r: Recorder): nat
    requires Accounts(r)
  {
    |r.processed| - |InFile(r.processed)|
  }

  ghost predicate Accounts(r: Recorder) {
    && |r.queue| <= MAX_QUEUE
    && r.accepted == r.framesDropped + |r.enqueued|
    && r.enqueued == Packets(r.processed) + InHand(r) + r.queue
    && r.framesWritten == |InFile(r.processed)| <= |r.processed|
    && forall i :: 0 <= i < |r.processed| && r.processed[i].Written? ==>
         r.processed[i].time == FileTime(r.epochNs, r.processed[i].p)
  }

  ghost predicate ThreadsOk(r: Recorder) {
    && (r.running ==> r.writer.Waiting? || r.writer.Holding?)
    && (r.writer.Exited? ==> !r.running)
    && match r.owner
       case Recording => r.running || r.writer.NotStarted? || r.writer == Exited(false)
       case Joining => !r.running && !ThreadFree(r)
       case Stopped(saw) =>
         !r.running && (if saw then r.writer.Joined? else r.writer.NotStarted? || r.writer == Exited(false))
       case Destroyed => !r.running && ThreadFree(r)
  }

  ghost predicate Inv(r: Recorder) {
    r.aborted || (Accounts(r) && ThreadsOk(r))
  }

  lemma ProcessedAppend(done: seq<Processed>, last: Processed)
    ensures Packets(done + [last]) == Packets(done) + [last.p]
    ensures InFile(done + [last]) == InFile(done) + (if last.Written? then [last.p] else [])
  {
    assert (done + [last])[..|done|] == done;
  }

  lemma WriterKeepsAccounts(r: Recorder, r': Recorder)
    requires Accounts(r)
    requires WriterTakes(r, r') || WriterDrained(r, r') || PipelineFails(r, r')
      || WriterPushes(r, r', true) || WriterPushes(r, r', false)
    ensures Accounts(r')
  {
    hide Packets, InFile;
    if r.writer.Holding? {
      ProcessedAppend(r.processed, Written(r.writer.p, FileTime(r.epochNs, r.writer.p)));
      ProcessedAppend(r.processed, Lost(r.writer.p));
      assert Packets(r.processed) + [r.writer.p] + r.queue == Packets(r.processed) + [r.writer.p] + [] + r.queue;
    }
  }

  lemma NothingProcessed(r: Recorder)
    requires |r.processed| == 0
    ensures |Packets(r.processed)| == 0 && |InFile(r.processed)| == 0
  {
  }

  lemma StartKeepsInv(r: Recorder, format: FileFormat, epochNs: int)
    requires Inv(r) && !r.aborted
    ensures Inv(Start(r, format, epochNs))
  {
    if !r.running && ThreadFree(r) {
      NothingProcessed(Start(r, format, epochNs));
    }
  }

  lemma ProducerKeepsAccounts(r: Recorder, r': Recorder)
    requires Accounts(r)
    requires FinishOnFrame(r, r') || exists f :: BeginOnFrame(r, r', f)
    ensures Accounts(r')
  {
    hide Packets, InFile, Pack;
    if FinishOnFrame(r, r') && |r.queue| < MAX_QUEUE {
      var done, p := Packets(r.processed) + InHand(r), [r.pending.value];
      assert (done + r.queue) + p == done + (r.queue + p);
    }
  }

  lemma ControlKeepsAccounts(r: Recorder, r': Recorder)
    requires Accounts(r)
    requires AttachStep(r, r') || DetachStep(r, r') || StopBegins(r, r') || StopJoins(r, r')
      || (DestroyStep(r, r') && !r'.aborted)
    ensures Accounts(r')
  {
    hide Packets, InFile, FileTime, ThreadFree;
    assert r'.enqueued == r.enqueued && r'.queue == r.queue && r'.processed == r.processed;
    assert InHand(r') == InHand(r);
  }

  lemma WriterKeepsThreads(r: Recorder, r': Recorder, ok: bool)
    requires ThreadsOk(r)
    requires WriterTakes(r, r') || WriterDrained(r, r') || PipelineFails(r, r') || WriterPushes(r, r', ok)
    ensures ThreadsOk(r') && (r.owner == r'.owner) && (r'.writer.NotStarted? <==> r.writer.NotStarted?)
  {
    hide FileTime;
  }

  lemma ProducerKeepsThreads(r: Recorder, r': Recorder)
    requires ThreadsOk(r)
    requires FinishOnFrame(r, r') || exists f :: BeginOnFrame(r, r', f)
    ensures ThreadsOk(r') && r'.owner == r.owner && r'.writer == r.writer
  {
    hide Pack, Deliverable;
  }

  lemma OwnerKeepsThreads(r: Recorder, r': Recorder)
    requires ThreadsOk(r) && !r'.aborted
    requires
      || AttachStep(r, r') || DetachStep(r, r') || StopBegins(r, r') || StopJoins(r, r') || DestroyStep(r, r')
      || exists format, epochNs :: StartStep(r, r', format, epochNs)
    ensures ThreadsOk(r')
    ensures r.owner.Joining? ==>
      && (r'.owner.Joining? || r'.owner == Stopped(true))
      && (r'.writer.NotStarted? <==> r.writer.NotStarted?)
  {
  }

  /** Thread states stay consistent; and while Stop joins, it goes on joining or returns having
      joined. */
  lemma StepKeepsThreads(r: Recorder, r': Recorder)
    requires ThreadsOk(r) && Step(r, r') && !r'.aborted
    ensures ThreadsOk(r')
    ensures r.owner.Joining? ==>
      && (r'.owner.Joining? || r'.owner == Stopped(true))
      && (r'.writer.NotStarted? <==> r.writer.NotStarted?)
  {
    hide ThreadsOk, WriterTakes, WriterDrained, PipelineFails, WriterPushes, BeginOnFrame, FinishOnFrame, AttachStep,
      DetachStep, StopBegins, StopJoins, DestroyStep, StartStep;
    if FinishOnFrame(r, r') || exists f :: BeginOnFrame(r, r', f) {
      ProducerKeepsThreads(r, r');
    } else if WriterTakes(r, r') || WriterDrained(r, r') || PipelineFails(r, r') {
      WriterKeepsThreads(r, r', true);
    } else if ok :| WriterPushes(r, r', ok) {
      WriterKeepsThreads(r, r', ok);
    } else {
      OwnerKeepsThreads(r, r');
    }
  }

  lemma StepKeepsInv(r: Recorder, r': Recorder)
    requires Inv(r) && Step(r, r')
    ensures Inv(r')
  {
    hide Accounts, ThreadsOk, Pack;
    if r.aborted {
      AbortedStays(r, r');
    } else if format, epochNs :| StartStep(r, r', format, epochNs) {
      StartKeepsInv(r, format, epochNs);
    } else if !r'.aborted {
      StepKeepsThreads(r, r');
      if FinishOnFrame(r, r') || exists f :: BeginOnFrame(r, r', f) {
        ProducerKeepsAccounts(r, r');
      } else if AttachStep(r, r') || DetachStep(r, r') || StopBegins(r, r') || StopJoins(r, r') || DestroyStep(r, r') {
        ControlKeepsAccounts(r, r');
      } else {
        WriterKeepsAccounts(r, r');
      }
    }
  }

  lemma InitialInv(r: Recorder)
    requires r == NEW_RECORDER
    ensures Inv(r)
  {
    NothingProcessed(r);
  }

  lemma {:induction false} RunInv(run: seq<Recorder>, n: nat)
    requires IsRun(run) && n < |run|
    ensures Inv(run[n])
  {
    hide Inv, Step;
    if n == 0 {
      InitialInv(run[0]);
    } else {
      RunInv(run, n - 1);
      StepKeepsInv(run[n - 1], run[n]);
    }
  }

  /** Conservation: every accepted frame is dropped, queued, in the writer's hand, in the
      file, or refused by the pipeline; and the queue is bounded. */
  lemma Conservation(run: seq<Recorder>, n: nat)
    requires IsRun(run) && n < |run| && !run[n].aborted
    ensures Accounts(run[n])
    ensures var r := run[n];
      && r.accepted == r.framesDropped + |r.queue| + |InHand(r)| + r.framesWritten + LostCount(r)
      && |r.queue| <= MAX_QUEUE
  {
    RunInv(run, n);
  }

  lemma {:induction false} NoLossMeansInFile(done: seq<Processed>)
    requires forall i :: 0 <= i < |done| ==> done[i].Written?
    ensures InFile(done) == Packets(done)
  {
    if |done| > 0 {
      NoLossMeansInFile(done[..|done| - 1]);
    }
  }

  /** Order: while the pipeline has refused nothing, the file, the frame in hand and the queue
      are together exactly what was enqueued, in order. */
  lemma FifoOrder(run: seq<Recorder>, n: nat)
    requires IsRun(run) && n < |run| && !run[n].aborted
    requires forall i :: 0 <= i < |run[n].processed| ==> run[n].processed[i].Written?
    ensures InFile(run[n].processed) + InHand(run[n]) + run[n].queue == run[n].enqueued
  {
    RunInv(run, n);
    NoLossMeansInFile(run[n].processed);
  }

  // ---- stopping -------------------------------------------------------------------------

  /** Attached only while recording, and drained once the writer left normally. */
  ghost predicate Detached(r: Recorder) {
    && (!r.attached ==> r.pending.None?)
    && (!r.owner.Recording? ==> !r.attached)
    && (r.writer == Exited(true) || r.writer == Joined(true) ==> |r.queue| == 0 && !r.owner.Recording?)
  }

  ghost predicate ManagedInv(r: Recorder) {
    Inv(r) && (!r.aborted ==> Detached(r))
  }

  lemma WriterKeepsDetached(r: Recorder, r': Recorder, ok: bool)
    requires Detached(r) && ThreadsOk(r)
    requires WriterTakes(r, r') || WriterDrained(r, r') || PipelineFails(r, r') || WriterPushes(r, r', ok)
    ensures Detached(r')
  {
    hide FileTime;
  }

  lemma ProducerKeepsDetached(r: Recorder, r': Recorder)
    requires Detached(r) && ThreadsOk(r)
    requires FinishOnFrame(r, r') || exists f :: BeginOnFrame(r, r', f)
    ensures Detached(r')
  {
    hide Pack, Deliverable;
  }

  lemma OwnerKeepsDetached(r: Recorder, r': Recorder)
    requires Detached(r) && ThreadsOk(r) && !r'.aborted
    requires !r.attached && r'.attached ==> r.owner.Recording?
    requires r.owner.Recording? && !r'.owner.Recording? ==> !r.attached && r.pending.None?
    requires
      || AttachStep(r, r') || DetachStep(r, r') || StopBegins(r, r') || StopJoins(r, r') || DestroyStep(r, r')
      || exists format, epochNs :: StartStep(r, r', format, epochNs)
    ensures Detached(r')
  {
  }

  lemma ManagedStepKeepsInv(r: Recorder, r': Recorder)
    requires ManagedInv(r) && ManagedStep(r, r')
    ensures ManagedInv(r')
  {
    hide Accounts, ThreadsOk, Detached, WriterTakes, WriterDrained, PipelineFails, WriterPushes, BeginOnFrame,
      FinishOnFrame, AttachStep, DetachStep, StopBegins, StopJoins, DestroyStep, StartStep;
    StepKeepsInv(r, r');
    if !r.aborted && !r'.aborted {
      if FinishOnFrame(r, r') || exists f :: BeginOnFrame(r, r', f) {
        ProducerKeepsDetached(r, r');
      } else if WriterTakes(r, r') || WriterDrained(r, r') || PipelineFails(r, r') {
        WriterKeepsDetached(r, r', true);
      } else if ok :| WriterPushes(r, r', ok) {
        WriterKeepsDetached(r, r', ok);
      } else {
        OwnerKeepsDetached(r, r');
      }
    } else if r.aborted {
      AbortedStays(r, r');
    }
  }

  lemma AbortedStays(r: Recorder, r': Recorder)
    requires Step(r, r') && r.aborted
    ensures r'.aborted
  {
    hide Pack, FileTime;
  }

  lemma {:induction false} ManagedRunInv(run: seq<Recorder>, n: nat)
    requires IsManagedRun(run) && n < |run|
    ensures ManagedInv(run[n])
  {
    hide Inv, ManagedStep;
    if n == 0 {
      InitialInv(run[0]);
    } else {
      ManagedRunInv(run, n - 1);
      ManagedStepKeepsInv(run[n - 1], run[n]);
    }
  }

  /** Drain on stop: once a managed recorder's writer has left normally, nothing is queued or
      in hand, no producer will add to it, and written + dropped (+ refused) is all there was. */
  lemma StopDrains(run: seq<Recorder>, n: nat)
    requires IsManagedRun(run) && n < |run| && !run[n].aborted
    requires run[n].writer == Exited(true) || run[n].writer == Joined(true)
    ensures Accounts(run[n])
    ensures var r := run[n];
      && |r.queue| == 0 && !r.attached && r.pending.None?
      && r.accepted == r.framesDropped + r.framesWritten + LostCount(r)
      && Packets(r.processed) == r.enqueued
  {
    ManagedRunInv(run, n);
  }

  /** When Stop has returned, the writer thread was joined exactly when Stop found the recorder
      running; otherwise the recorder was never started or its pipeline failed first, and in
      that case the thread is left behind. */
  lemma StopJoinsIffRunning(run: seq<Recorder>, n: nat)
    requires IsRun(run) && n < |run| && !run[n].aborted && run[n].owner.Stopped?
    ensures run[n].writer.Joined? <==> run[n].owner.sawRunning
    ensures !run[n].owner.sawRunning ==> run[n].writer.NotStarted? || run[n].writer == Exited(false)
  {
    RunInv(run, n);
  }

  /** Nobody but a Stop that found the recorder running joins the writer; and what Stop saw stands until
      the recorder is started again or destroyed, for good. */
  lemma OnlyStopJoins(run: seq<Recorder>, n: nat)
    requires IsRun(run) && n + 1 < |run| && !run[n].aborted && !run[n + 1].aborted
    ensures !run[n].writer.Joined? && run[n + 1].writer.Joined? ==>
      run[n].owner.Joining? && run[n].writer.Exited? && run[n + 1].owner == Stopped(true)
    ensures run[n].owner.Stopped? ==>
      run[n + 1].owner == run[n].owner || run[n + 1].owner.Recording? || run[n + 1].owner.Destroyed?
    ensures run[n].owner.Destroyed? ==> run[n + 1].owner.Destroyed? && run[n + 1].writer == run[n].writer
  {
    RunInv(run, n);
    var r, r' := run[n], run[n + 1];
    assert Step(r, r');
    hide IsRun, Accounts, Step;
    OwnerMoves(r, r');
  }

  lemma OwnerMoves(r: Recorder, r': Recorder)
    requires ThreadsOk(r) && Step(r, r') && !r'.aborted
    ensures !r.writer.Joined? && r'.writer.Joined? ==> r.owner.Joining? && r.writer.Exited? && r'.owner == Stopped(true)
    ensures r.owner.Stopped? ==> r'.owner == r.owner || r'.owner.Recording? || r'.owner.Destroyed?
    ensures r.owner.Destroyed? ==> r'.owner.Destroyed? && r'.writer == r.writer
  {
    hide Pack, Deliverable, FileTime;
  }

  /** Exactly when the recorder cannot be let go of after Stop: its writer left because no pipeline
      could be built. Destroying it, as the session manager does, or starting it again then ends the
      process; in every other case both are safe. */
  lemma ReturnedStopEndsProcessIff(run: seq<Recorder>, n: nat, format: FileFormat, epochNs: int)
    requires IsRun(run) && n < |run| && !run[n].aborted && run[n].owner.Stopped?
    ensures Destroy(run[n]).aborted <==> run[n].writer == Exited(false)
    ensures Destroy(run[n]).aborted <==> !run[n].owner.sawRunning && !run[n].writer.NotStarted?
    ensures Start(run[n], format, epochNs).aborted <==> Destroy(run[n]).aborted
  {
    RunInv(run, n);
  }

  lemma {:induction false} StopRemembers(run: seq<Recorder>, n: nat, m: nat)
    requires IsRun(run) && n < m < |run| && !run[m].aborted
    requires run[n].owner.Recording? && StopBegins(run[n], run[n + 1])
    requires forall k :: n < k < m ==> run[k].owner.Joining? && !run[k].aborted
    ensures run[m].owner.Joining? || run[m].owner == Stopped(run[n].running)
    ensures run[m].writer.NotStarted? <==> run[n].writer.NotStarted?
    decreases m
  {
    hide Step;
    if m > n + 1 {
      StopRemembers(run, n, m - 1);
      assert run[n].running;
      RunInv(run, m - 1);
      StepKeepsThreads(run[m - 1], run[m]);
    }
  }

  /** What a caller can look at: for a recorder that was started, stopping and then destroying it
      ends the process exactly if running() was false just before Stop. */
  lemma RunningDecides(run: seq<Recorder>, n: nat, m: nat)
    requires IsRun(run) && n < m < |run| && !run[m].aborted
    requires run[n].owner.Recording? && !run[n].writer.NotStarted? && StopBegins(run[n], run[n + 1])
    requires run[m].owner.Stopped? && forall k :: n < k < m ==> run[k].owner.Joining? && !run[k].aborted
    ensures Destroy(run[m]).aborted <==> !run[n].running
  {
    hide IsRun;
    StopRemembers(run, n, m);
    ReturnedStopEndsProcessIff(run, m, H264Mkv, 0);
  }

  // ---- what is recorded --------------------------------------------------------------------

  /** A passthrough recorder takes the bitstream of compressed frames, the others the tight picture of
      I420 frames; nothing else is queued. */
  lemma WhatIsQueued(format: FileFormat, f: VideoFrame)
    requires Deliverable(f)
    ensures Pack(format, f).Some? <==>
      && f.data.Some? && f.width > 0 && f.height > 0
      && if format.PassthroughMkv? then (f.format == Mjpeg || f.format == H264) && f.dataSize > 0 else f.format == I420
    ensures Pack(format, f).Some? ==>
      var p := Pack(format, f).value;
      && p.fmt == f.format && p.width == f.width && p.height == f.height && p.ptsNs == f.ptsNs
      && if format.PassthroughMkv? then |p.data| == f.dataSize && p.data <= f.data.value
         else |p.data| == f.width * f.height + 2 * ((f.width + 1) / 2 * ((f.height + 1) / 2)) && p.data == Tight(f)
  {
    hide Tight;
    if Pack(format, f).Some? && !format.PassthroughMkv? {
      TightSize(f);
    }
  }

  /** Along every run a frame is dropped only when exactly 16 are queued; with room it is queued, behind
      the others. */
  lemma DropsOnlyWhenFull(run: seq<Recorder>, n: nat)
    requires IsRun(run) && n + 1 < |run| && !run[n].aborted && FinishOnFrame(run[n], run[n + 1])
    ensures var r, r' := run[n], run[n + 1];
      if |r.queue| < 16 then r'.queue == r.queue + [r.pending.value] && r'.framesDropped == r.framesDropped
      else |r.queue| == 16 && r'.queue == r.queue && r'.framesDropped == r.framesDropped + 1
  {
    RunInv(run, n);
  }

  // ---- capture-time alignment ------------------------------------------------------------

  /** In every file of every run: without an epoch no frame has a time of its own; with one, a frame
      captured at or after the epoch stands as far into the file as it was captured after the epoch,
      and an earlier frame at the start. */
  lemma TimelineZeroIsEpoch(run: seq<Recorder>, n: nat, i: nat)
    requires IsRun(run) && n < |run| && !run[n].aborted
    requires i < |run[n].processed| && run[n].processed[i].Written?
    ensures var epoch, frame, time := run[n].epochNs, run[n].processed[i].p, run[n].processed[i].time;
      && (epoch == 0 <==> time.None?)
      && (epoch != 0 && frame.ptsNs >= epoch ==> epoch + time.value == frame.ptsNs)
      && (epoch != 0 && frame.ptsNs < epoch ==> time.value == 0)
  {
    RunInv(run, n);
  }

  /** Two recorders that share an epoch: frames captured at or after it differ in file time by
      exactly their difference in capture time, whatever either recorder dropped. */
  lemma SharedEpochAligns(run: seq<Recorder>, n: nat, i: nat, other: seq<Recorder>, m: nat, j: nat)
    requires IsRun(run) && n < |run| && !run[n].aborted
    requires IsRun(other) && m < |other| && !other[m].aborted
    requires run[n].epochNs == other[m].epochNs != 0
    requires i < |run[n].processed| && run[n].processed[i].Written?
    requires j < |other[m].processed| && other[m].processed[j].Written?
    requires run[n].processed[i].p.ptsNs >= run[n].epochNs
    requires other[m].processed[j].p.ptsNs >= run[n].epochNs
    ensures run[n].processed[i].time.Some? && other[m].processed[j].time.Some?
    ensures run[n].processed[i].time.value - other[m].processed[j].time.value
            == run[n].processed[i].p.ptsNs - other[m].processed[j].p.ptsNs
  {
    RunInv(run, n);
    RunInv(other, m);
  }

  // ---- what can go wrong -----------------------------------------------------------------

  lemma ExtendManaged(run: seq<Recorder>, r: Recorder)
    requires IsManagedRun(run) && ManagedStep(run[|run| - 1], r)
    ensures IsManagedRun(run + [r])
  {
    hide ManagedStep;
  }

  lemma FirstFramePending(f: VideoFrame, format: FileFormat, epochNs: int) returns (run: seq<Recorder>)
    requires Deliverable(f) && Pack(format, f).Some?
    ensures IsManagedRun(run) && |run| > 0
    ensures run[|run| - 1] == Start(NEW_RECORDER, format, epochNs).(attached := true, pending := Pack(format, f))
  {
    hide Pack, Deliverable;
    var r1 := Start(NEW_RECORDER, format, epochNs);
    assert StartStep(NEW_RECORDER, r1, format, epochNs);
    var r2 := r1.(attached := true);
    assert AttachStep(r1, r2);
    var r3 := r2.(pending := Pack(format, f));
    assert BeginOnFrame(r2, r3, f);
    run := [NEW_RECORDER];
    ExtendManaged(run, r1);
    ExtendManaged(run + [r1], r2);
    ExtendManaged(run + [r1] + [r2], r3);
    run := run + [r1] + [r2] + [r3];
  }

  /** The session manager's own way there: the first frame cannot be given a pipeline, and later
      StopRecording detaches, stops and destroys the recorder. */
  lemma FailedPipelineEndsProcess(f: VideoFrame, format: FileFormat, epochNs: int) returns (run: seq<Recorder>)
    requires Deliverable(f) && Pack(format, f).Some?
    ensures IsManagedRun(run) && run[|run| - 1].aborted
  {
    var start := FirstFramePending(f, format, epochNs);
    var p, r0 := Pack(format, f).value, start[|start| - 1];
    var r1 := r0.(pending := None, accepted := 1, queue := [p], enqueued := [p]);
    var r2 := r1.(writer := Holding(p), queue := r1.queue[1..]);
    var r3 := r2.(running := false, writer := Exited(false), processed := [Lost(p)]);
    var r4 := r3.(attached := false);
    var r5 := r4.(owner := Stopped(false));
    assert r0.queue + [p] == [p];
    assert FinishOnFrame(r0, r1) && WriterTakes(r1, r2) && PipelineFails(r2, r3);
    assert DetachStep(r3, r4) && StopBegins(r4, r5) && DestroyStep(r5, Destroy(r5));
    hide Pack, Deliverable, IsManagedRun;
    ExtendManaged(start, r1);
    ExtendManaged(start + [r1], r2);
    ExtendManaged(start + [r1] + [r2], r3);
    ExtendManaged(start + [r1] + [r2] + [r3], r4);
    ExtendManaged(start + [r1] + [r2] + [r3] + [r4], r5);
    ExtendManaged(start + [r1] + [r2] + [r3] + [r4] + [r5], Destroy(r5));
    run := start + [r1] + [r2] + [r3] + [r4] + [r5] + [Destroy(r5)];
  }

  lemma ExtendTwice(run: seq<Recorder>, a: Recorder, b: Recorder) returns (longer: seq<Recorder>)
    requires IsManagedRun(run) && ManagedStep(run[|run| - 1], a) && ManagedStep(a, b)
    ensures IsManagedRun(longer) && |longer| > 0 && longer[|longer| - 1] == b
  {
    assert |run| > 0;
    hide IsManagedRun, ManagedStep;
    ExtendManaged(run, a);
    ExtendManaged(run + [a], b);
    longer := run + [a] + [b];
  }

  /** The writer takes the first frame and pushes it into the new file. */
  lemma FirstFrameWritten(r0: Recorder) returns (r1: Recorder, r2: Recorder, r3: Recorder)
    requires r0.running && r0.attached && r0.pending.Some? && |r0.queue| == 0 && r0.writer.Waiting? && !r0.aborted
    requires r0.owner.Recording?
    ensures ManagedStep(r0, r1) && ManagedStep(r1, r2) && ManagedStep(r2, r3)
    ensures r3 == r0.(pending := None, accepted := r0.accepted + 1, enqueued := r0.enqueued + [r0.pending.value],
                      built := true, framesWritten := r0.framesWritten + 1,
                      processed := r0.processed + [Written(r0.pending.value, FileTime(r0.epochNs, r0.pending.value))])
  {
    var p := r0.pending.value;
    r1 := r0.(pending := None, accepted := r0.accepted + 1, queue := r0.queue + [p], enqueued := r0.enqueued + [p]);
    r2 := r1.(writer := Holding(p), queue := r1.queue[1..]);
    r3 := r2.(built := true, writer := Waiting, framesWritten := r2.framesWritten + 1,
              processed := r2.processed + [Written(p, FileTime(r2.epochNs, p))]);
    assert FinishOnFrame(r0, r1) && WriterTakes(r1, r2) && WriterPushes(r2, r3, true);
    assert r1.queue[1..] == r0.queue;
  }

  /** Detach, Stop and destroy of a recorder with nothing left to write. */
  lemma StopsAndGoes(r3: Recorder) returns (r4: Recorder, r5: Recorder, r6: Recorder, r7: Recorder, r8: Recorder)
    requires r3.running && r3.pending.None? && |r3.queue| == 0 && r3.writer.Waiting? && !r3.aborted
    requires r3.owner.Recording?
    ensures ManagedStep(r3, r4) && ManagedStep(r4, r5) && ManagedStep(r5, r6)
    ensures ManagedStep(r6, r7) && ManagedStep(r7, r8)
    ensures r8 == r3.(attached := false, running := false, writer := Joined(true), owner := Destroyed, built := false)
  {
    r4 := r3.(attached := false);
    r5 := r4.(running := false, owner := Joining);
    r6 := r5.(writer := Exited(true), built := false);
    r7 := r6.(writer := Joined(true), owner := Stopped(true));
    r8 := r7.(owner := Destroyed);
    assert DetachStep(r3, r4) && StopBegins(r4, r5) && WriterDrained(r5, r6);
    assert StopJoins(r6, r7) && DestroyStep(r7, r8);
  }

  /** A recording as it should be: the frame is in the file under its time, the writer is joined and the
      recorder goes without harm. */
  lemma OneFrameRecorded(f: VideoFrame, format: FileFormat, epochNs: int) returns (run: seq<Recorder>)
    requires Deliverable(f) && Pack(format, f).Some?
    ensures IsManagedRun(run) && |run| > 0
    ensures var r := run[|run| - 1];
      && !r.aborted && r.owner.Destroyed? && r.writer == Joined(true) && r.framesWritten == 1 && r.framesDropped == 0
      && |r.processed| == 1 && r.processed[0].Written? && r.processed[0].p == Pack(format, f).value
  {
    run := FirstFramePending(f, format, epochNs);
    hide Pack, Deliverable, IsManagedRun, ManagedStep, FileTime;
    var r1, r2, r3 := FirstFrameWritten(run[|run| - 1]);
    var r4, r5, r6, r7, r8 := StopsAndGoes(r3);
    run := ExtendTwice(run, r1, r2);
    run := ExtendTwice(run, r3, r4);
    run := ExtendTwice(run, r5, r6);
    run := ExtendTwice(run, r7, r8);
  }

  /** Without the detach, a frame that passed the running check can be enqueued after the writer
      has left: it is accepted, and never written or counted as dropped. */
  lemma StopWithoutDetachCanStrand(p: Packed, format: FileFormat)
    ensures var r0 := Start(NEW_RECORDER, format, 0).(attached := true, pending := Some(p));
      var r1 := r0.(running := false, owner := Joining);
      var r2 := r1.(writer := Exited(true), built := false);
      var r3 := r2.(writer := Joined(true), owner := Stopped(true));
      var r4 := r3.(pending := None, accepted := 1, queue := [p], enqueued := [p]);
      && StopBegins(r0, r1) && WriterDrained(r1, r2) && StopJoins(r2, r3) && FinishOnFrame(r3, r4)
      && r4.accepted == 1 && r4.framesWritten == 0 && r4.framesDropped == 0
  {
  }
}
