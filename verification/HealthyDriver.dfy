/** What slot ownership comes to when the driver does its part, and how long a frame lives. */
module HealthyDriver {
  import opened VideoFrames
  import opened SlotLeases
  import opened SlotOwnership

  // ---- no slot is ever lost ------------------------------------------------------------------------

  /** A step of the intended lease in which the driver takes whatever it is given: every slot of a new
      pool, and every slot that is handed back. */
  ghost predicate HealthyStep(s: Source, s': Source) {
    || OpenDevice(s, s') || ResetDev(s, s') || ResetPool(s, s')
    || (exists n :: SetupPool(s, s', n, Range(n)))
    || OpenDecoder(s, s') || CloseDecoder(s, s') || StartLoop(s, s') || ExitLoop(s, s')
    || (exists i :: Dequeue(s, s', i))
    || Wrap(s, s', Intended, true)
    || DecodeAndRequeue(s, s', true)
    || (exists l :: CopyFrame(s, s', l))
    || (exists l :: DropFrame(s, s', l, true))
    || LoseDevice(s, s') || Recovered(s, s')
  }

  ghost predicate IsHealthyRun(run: seq<Source>) {
    && |run| > 0 && run[0] == NEW_SOURCE
    && forall i :: 0 <= i < |run| - 1 ==> HealthyStep(run[i], run[i + 1])
  }

  lemma HealthyIsStep(s: Source, s': Source)
    requires HealthyStep(s, s')
    ensures Step(s, s', Intended)
  {
    hide OpenDevice, ResetDev, ResetPool, SetupPool, OpenDecoder, CloseDecoder, StartLoop, ExitLoop, Dequeue, Wrap,
      DecodeAndRequeue, CopyFrame, DropFrame, LoseDevice, Recovered, Range;
  }

  lemma HealthyRunIsRun(run: seq<Source>)
    requires IsHealthyRun(run)
    ensures IsRun(run, Intended)
  {
    hide HealthyStep, Step;
    forall i | 0 <= i < |run| - 1
      ensures Step(run[i], run[i + 1], Intended)
    {
      HealthyIsStep(run[i], run[i + 1]);
    }
  }

  predicate NoneLost(s: Source) {
    forall p :: p in s.pools ==> s.pools[p].lost == {}
  }

  /** A hand-back that the driver takes loses nothing: the descriptor is open as long as the pool has
      an owner. */
  lemma RequeueLosesNothing(s: Source, p: nat, i: nat)
    requires NoneLost(s) && p in s.pools && i < |s.pools[p].requeues| && s.pools[p].dev in s.devs
    requires s.devs[s.pools[p].dev].open
    ensures NoneLost(Requeue(s, p, i, true))
  {
  }

  lemma OwnedPoolIsOpen(s: Source, p: nat)
    requires Counted(s) && p in s.pools && s.pools[p].refs > 0
    ensures s.pools[p].dev in s.devs && s.devs[s.pools[p].dev].open
  {
    assert PoolLinked(s, p) && PoolCounted(s, p, None);
    assert DevCounted(s, s.pools[p].dev) && p in PoolsOn(s, s.pools[p].dev);
  }

  lemma DecodeLosesNothing(s: Source, s': Source)
    requires Counted(s) && NoneLost(s) && DecodeAndRequeue(s, s', true)
    ensures NoneLost(s')
  {
    var p, i := s.loop.pool, s.loop.index;
    assert s.poolRef == Some(p) && PoolCounted(s, p, None);
    OwnedPoolIsOpen(s, p);
    RequeueLosesNothing(s, p, i);
  }

  lemma DropLosesNothing(s: Source, s': Source, l: nat)
    requires Counted(s) && NoneLost(s) && DropFrame(s, s', l, true)
    ensures NoneLost(s')
  {
    var lease := s.leases[l];
    if lease.copies == 1 {
      OwnedPoolIsOpen(s, lease.pool);
      var gone := LeaseGone(s, l);
      assert NoneLost(gone);
      RequeueLosesNothing(gone, lease.pool, lease.index);
      hide Requeue;
      ReleaseLosesNothing(Requeue(gone, lease.pool, lease.index, true), lease.pool);
    }
  }

  lemma ReleaseLosesNothing(s: Source, p: nat)
    requires NoneLost(s) && CanRelease(s, p)
    ensures NoneLost(ReleasePool(s, p))
  {
  }

  lemma QuietLosesNothing(s: Source, s': Source)
    requires NoneLost(s)
    requires
      || OpenDevice(s, s') || ResetDev(s, s') || OpenDecoder(s, s')
      || CloseDecoder(s, s') || StartLoop(s, s') || ExitLoop(s, s')
      || LoseDevice(s, s') || Recovered(s, s') || (exists l :: CopyFrame(s, s', l))
    ensures NoneLost(s')
  {
    assert s'.pools == s.pools;
  }

  lemma LoopLosesNothing(s: Source, s': Source)
    requires NoneLost(s) && (Wrap(s, s', Intended, true) || exists i :: Dequeue(s, s', i))
    ensures NoneLost(s')
  {
  }

  lemma SetupLosesNothing(s: Source, s': Source, n: nat)
    requires NoneLost(s) && SetupPool(s, s', n, Range(n))
    ensures NoneLost(s')
  {
    assert Range(n) - Range(n) == {};
    hide Range;
  }

  lemma HealthyStepLosesNothing(s: Source, s': Source)
    requires Counted(s) && NoneLost(s) && HealthyStep(s, s')
    ensures NoneLost(s')
  {
    hide NoneLost, Counted, OpenDevice, ResetDev, ResetPool, SetupPool, OpenDecoder, CloseDecoder, StartLoop, ExitLoop,
      Dequeue, Wrap, DecodeAndRequeue, CopyFrame, DropFrame, LoseDevice, Recovered, Range;
    if DecodeAndRequeue(s, s', true) {
      DecodeLosesNothing(s, s');
    } else if l :| DropFrame(s, s', l, true) {
      DropLosesNothing(s, s', l);
    } else if ResetPool(s, s') {
      ResetLosesNothing(s, s');
    } else if n :| SetupPool(s, s', n, Range(n)) {
      SetupLosesNothing(s, s', n);
    } else if Wrap(s, s', Intended, true) || exists i :: Dequeue(s, s', i) {
      LoopLosesNothing(s, s');
    } else {
      QuietLosesNothing(s, s');
    }
  }

  lemma ResetLosesNothing(s: Source, s': Source)
    requires NoneLost(s) && ResetPool(s, s')
    ensures NoneLost(s')
  {
    hide ReleasePool;
    ReleaseLosesNothing(s, s.poolRef.value);
  }

  lemma {:induction false} NothingIsLost(run: seq<Source>, n: nat)
    requires IsHealthyRun(run) && n < |run|
    ensures NoneLost(run[n])
  {
    hide HealthyStep, NoneLost, Counted;
    if n == 0 {
      NothingToLose(run[0]);
    } else {
      NothingIsLost(run, n - 1);
      HealthyRunIsRun(run);
      RunCounts(run, Intended, n - 1);
      HealthyStepLosesNothing(run[n - 1], run[n]);
    }
  }

  lemma NothingToLose(s: Source)
    requires s == NEW_SOURCE
    ensures NoneLost(s)
  {
  }

  /** The property as the code promises it. While the driver takes what it is given, in every state of
      every run each slot is in the kernel's queue, in the capture loop's hand or in one live frame, and
      in just one of them: no slot is ever out of use, through any number of recoveries and stops. */
  lemma EverySlotIsInUse(run: seq<Source>, n: nat, p: nat, i: nat)
    requires IsHealthyRun(run) && n < |run| && p in run[n].pools && i < run[n].pools[p].slots
    ensures One(i in run[n].pools[p].queued) + One(InHand(run[n], p, i)) + |Holders(run[n], p, i)| == 1
  {
    HealthyRunIsRun(run);
    NothingIsLost(run, n);
    hide IsHealthyRun, IsRun, Holders;
    EverySlotHasOneOwner(run, n);
    assert OneOwner(run[n], p, i);
  }

  lemma DropRemovesOwnLease(s: Source, s': Source, l: nat, ok: bool)
    requires DropFrame(s, s', l, ok)
    ensures s'.loop == s.loop && s'.pools.Keys == s.pools.Keys
    ensures if s.leases[l].copies == 1 then s'.leases == s.leases - {l}
            else s'.leases == s.leases[l := s.leases[l].(copies := s.leases[l].copies - 1)]
  {
  }

  lemma WrapAddsLease(s: Source, s': Source, v: Variant, ok: bool)
    requires Wrap(s, s', v, ok)
    ensures s'.leases == s.leases[s.next := Lease(s.loop.pool, s.loop.index, 1)]
  {
  }

  /** Steps that leave every lease as it is. */
  lemma OthersKeepLeases(s: Source, s': Source)
    requires
      || OpenDevice(s, s') || ResetDev(s, s') || OpenDecoder(s, s')
      || CloseDecoder(s, s') || StartLoop(s, s') || ExitLoop(s, s') || LoseDevice(s, s') || Recovered(s, s')
      || (exists i :: Dequeue(s, s', i)) || (exists n, taken :: SetupPool(s, s', n, taken))
    ensures s'.leases == s.leases
  {
    hide Range;
  }

  /** Every step adds a lease with a fresh name, changes one lease's copies, or leaves the leases. */
  lemma StepOnLeases(s: Source, s': Source, v: Variant)
    requires Step(s, s', v)
    ensures
      || s'.leases == s.leases
      || (exists ok :: Wrap(s, s', v, ok))
      || (exists l :: CopyFrame(s, s', l))
      || (exists l, ok :: DropFrame(s, s', l, ok))
  {
    hide Wrap, DecodeAndRequeue, DropFrame, ResetPool, CopyFrame, SetupPool, Dequeue, OpenDevice, ResetDev;
    if ok :| DecodeAndRequeue(s, s', ok) {
      DecodeMakesNoLease(s, s', ok);
    } else if ResetPool(s, s') {
      ResetPoolMakesNoLease(s, s');
    } else if !(exists ok :: Wrap(s, s', v, ok)) && !(exists l :: CopyFrame(s, s', l))
      && !(exists l, ok :: DropFrame(s, s', l, ok)) {
      OthersKeepLeases(s, s');
    }
  }

  lemma VanishingLease(s: Source, s': Source, l: nat)
    requires HealthyStep(s, s') && l in s.leases && l !in s'.leases
    ensures s'.leases == s.leases - {l} && s'.loop == s.loop && s'.pools.Keys == s.pools.Keys
  {
    HealthyIsStep(s, s');
    hide HealthyStep, Step, Wrap, DropFrame;
    StepOnLeases(s, s', Intended);
    if ok :| Wrap(s, s', Intended, ok) {
      WrapAddsLease(s, s', Intended, ok);
    } else if k, ok :| DropFrame(s, s', k, ok) {
      DropRemovesOwnLease(s, s', k, ok);
    }
  }

  /** So the last release of a frame puts its slot back into the kernel's queue. */
  lemma LastReleaseRequeues(run: seq<Source>, n: nat, l: nat)
    requires IsHealthyRun(run) && n + 1 < |run|
    requires l in run[n].leases && l !in run[n + 1].leases
    ensures var lease := run[n].leases[l];
      lease.pool in run[n + 1].pools && lease.index in run[n + 1].pools[lease.pool].queued
  {
    var s, s', lease := run[n], run[n + 1], run[n].leases[l];
    HealthyRunIsRun(run);
    RunCounts(run, Intended, n);
    RunCounts(run, Intended, n + 1);
    EverySlotHasOneOwner(run, n);
    LeaseInPool(s, l);
    LoneOwner(s, l);
    assert HealthyStep(s, s');
    VanishingLease(s, s', l);
    var p, i := lease.pool, lease.index;
    assert p in s'.pools;
    SlotsStay(s, s', p);
    EverySlotIsInUse(run, n + 1, p, i);
    hide IsHealthyRun, IsRun, HealthyStep, Counted, SlotsOwned;
    assert Holders(s', p, i) == {};
  }

  lemma LeaseInPool(s: Source, l: nat)
    requires Counted(s) && l in s.leases
    ensures s.leases[l].pool in s.pools && s.leases[l].index < s.pools[s.leases[l].pool].slots
  {
    assert LeaseLinked(s, l);
  }

  lemma LoneOwner(s: Source, l: nat)
    requires SlotsOwned(s) && l in s.leases && s.leases[l].pool in s.pools
    requires s.leases[l].index < s.pools[s.leases[l].pool].slots
    ensures !InHand(s, s.leases[l].pool, s.leases[l].index)
    ensures Holders(s, s.leases[l].pool, s.leases[l].index) == {l}
  {
    assert OneOwner(s, s.leases[l].pool, s.leases[l].index);
    LoneHolder(s, s.leases[l].pool, s.leases[l].index, l);
  }

  lemma SlotsStay(s: Source, s': Source, p: nat)
    requires HealthyStep(s, s') && Counted(s) && p in s.pools && p in s'.pools
    ensures s'.pools[p].slots == s.pools[p].slots
  {
    HealthyIsStep(s, s');
    StepKeepsSlots(s, s', Intended, p);
  }

  /** And only then: a last release whose hand-back the driver refuses takes the slot out of use, and no
      dequeue can ever deliver it again unless it is handed back once more. */
  lemma RefusedReleaseLoses(run: seq<Source>, n: nat, l: nat)
    requires IsRun(run, Intended) && n + 1 < |run|
    requires DropFrame(run[n], run[n + 1], l, false) && l !in run[n + 1].leases
    ensures var lease, s' := run[n].leases[l], run[n + 1];
      && lease.pool in s'.pools && lease.index in s'.pools[lease.pool].lost
      && lease.index !in s'.pools[lease.pool].queued && forall t :: !Dequeues(s', t, lease.pool, lease.index)
  {
    var s, lease := run[n], run[n].leases[l];
    RunCounts(run, Intended, n);
    EverySlotHasOneOwner(run, n);
    LeaseInPool(s, l);
    LoneOwner(s, l);
    NotWithDriver(s, l);
  }

  lemma NotWithDriver(s: Source, l: nat)
    requires SlotsOwned(s) && l in s.leases && s.leases[l].pool in s.pools
    requires s.leases[l].index < s.pools[s.leases[l].pool].slots
    ensures s.leases[l].index !in s.pools[s.leases[l].pool].queued
  {
    assert OneOwner(s, s.leases[l].pool, s.leases[l].index);
    LoneHolder(s, s.leases[l].pool, s.leases[l].index, l);
  }

  /** The loop takes slot i of pool p from the driver. */
  predicate Dequeues(s: Source, s': Source, p: nat, i: nat) {
    s.poolRef == Some(p) && Dequeue(s, s', i)
  }

  // ---- how long a frame lives ------------------------------------------------------------------------

  ghost predicate Drops(s: Source, s': Source, l: nat) {
    exists ok :: DropFrame(s, s', l, ok)
  }

  /** Copies made less copies released from state i to state j. */
  ghost function Balance(run: seq<Source>, l: nat, i: nat, j: nat): int
    requires i <= j < |run|
    decreases j - i
  {
    if i == j then 0
    else
      Balance(run, l, i, j - 1) + One(CopyFrame(run[j - 1], run[j], l)) - One(Drops(run[j - 1], run[j], l))
  }

  lemma StepChangesCopies(s: Source, s': Source, v: Variant, l: nat)
    requires Linked(s) && Step(s, s', v) && l in s.leases
    ensures l !in s'.leases ==> Drops(s, s', l) && s.leases[l].copies == 1
    ensures l in s'.leases ==>
      && s'.leases[l].pool == s.leases[l].pool && s'.leases[l].index == s.leases[l].index
      && s'.leases[l].copies == s.leases[l].copies + One(CopyFrame(s, s', l)) - One(Drops(s, s', l))
  {
    hide Linked, Step, Wrap, DropFrame, LeasesOf;
    NoLeaseOnNewPool(s);
    StepOnLeases(s, s', v);
    if Drops(s, s', l) {
      var ok :| DropFrame(s, s', l, ok);
      DropRemovesOwnLease(s, s', l, ok);
      DropIsOfLease(s, s', l, ok);
    } else {
      hide Drops;
      if ok :| Wrap(s, s', v, ok) {
        WrapAddsLease(s, s', v, ok);
      } else if k, ok :| DropFrame(s, s', k, ok) {
        IsDrop(s, s', k, ok);
        DropRemovesOwnLease(s, s', k, ok);
        DropIsOfLease(s, s', k, ok);
      }
    }
  }

  lemma IsDrop(s: Source, s': Source, l: nat, ok: bool)
    requires DropFrame(s, s', l, ok)
    ensures Drops(s, s', l)
  {
  }

  lemma DropIsOfLease(s: Source, s': Source, l: nat, ok: bool)
    requires DropFrame(s, s', l, ok)
    ensures l in s.leases && s.leases[l].copies > 0
  {
  }

  /** A frame has as many copies as were made and not yet released, and it goes exactly with the release
      of the last one; in both variants, and with its slot unchanged as long as it lives. */
  lemma {:induction false} FrameLivesWhileCopied(run: seq<Source>, v: Variant, l: nat, i: nat, j: nat)
    requires IsRun(run, v) && i <= j < |run|
    requires forall n :: i <= n < j ==> l in run[n].leases
    requires l in run[i].leases
    ensures l in run[j].leases ==>
      && run[j].leases[l].copies == run[i].leases[l].copies + Balance(run, l, i, j) > 0
      && run[j].leases[l].pool == run[i].leases[l].pool && run[j].leases[l].index == run[i].leases[l].index
    ensures l !in run[j].leases ==>
      i < j && Drops(run[j - 1], run[j], l) && run[i].leases[l].copies + Balance(run, l, i, j - 1) == 1
    decreases j - i
  {
    hide IsRun, CopyFrame, Drops;
    if l in run[j].leases {
      AliveHasCopies(run, v, l, j);
    }
    if i < j {
      FrameLivesWhileCopied(run, v, l, i, j - 1);
      LastStepChangesCopies(run, v, l, j);
    }
  }

  lemma AliveHasCopies(run: seq<Source>, v: Variant, l: nat, n: nat)
    requires IsRun(run, v) && n < |run| && l in run[n].leases
    ensures run[n].leases[l].copies > 0
  {
    hide IsRun;
    RunCounts(run, v, n);
    assert LeaseLinked(run[n], l);
  }

  lemma LastStepChangesCopies(run: seq<Source>, v: Variant, l: nat, j: nat)
    requires IsRun(run, v) && 0 < j < |run| && l in run[j - 1].leases
    ensures l !in run[j].leases ==> Drops(run[j - 1], run[j], l) && run[j - 1].leases[l].copies == 1
    ensures l in run[j].leases ==>
      var a, b := run[j - 1].leases[l], run[j].leases[l];
      && b.pool == a.pool && b.index == a.index
      && b.copies == a.copies + One(CopyFrame(run[j - 1], run[j], l)) - One(Drops(run[j - 1], run[j], l))
  {
    hide Step, CopyFrame, Drops, PoolsCounted, DevsCounted, Linked;
    RunCounts(run, v, j - 1);
    StepChangesCopies(run[j - 1], run[j], v, l);
  }

  // ---- what an observer of the statistics sees -----------------------------------------------------

  lemma LostStep(s: Source, s': Source, v: Variant)
    requires Step(s, s', v) && !s.loop.Stopped? && !s'.loop.Stopped?
    requires s.deviceLost <==> s.loop.Recovering?
    ensures s'.deviceLost <==> s'.loop.Recovering?
  {
    hide Wrap, DecodeAndRequeue, DropFrame, ResetPool, ResetDev;
    if ok :| Wrap(s, s', v, ok) {
      WrapKeepsCounters(s, s', v, ok);
      DeliversToPolling(s, s', v);
    } else if ok :| DecodeAndRequeue(s, s', ok) {
      DecodeKeepsCounters(s, s', ok);
      DeliversToPolling(s, s', v);
    } else if l, ok :| DropFrame(s, s', l, ok) {
      DropKeepsCounters(s, s', l, ok);
    } else if ResetPool(s, s') {
      ResetPoolKeepsCounters(s, s');
    } else if ResetDev(s, s') {
      ResetDevKeepsCounters(s, s');
    } else {
      QuietKeepsLost(s, s');
    }
  }

  lemma DeliversToPolling(s: Source, s': Source, v: Variant)
    requires (exists ok :: Wrap(s, s', v, ok)) || (exists ok :: DecodeAndRequeue(s, s', ok))
    ensures s.loop.Holding? && s'.loop.Polling?
  {
  }

  lemma QuietKeepsLost(s: Source, s': Source)
    requires !s.loop.Stopped? && !s'.loop.Stopped? && (s.deviceLost <==> s.loop.Recovering?)
    requires
      || OpenDevice(s, s') || OpenDecoder(s, s') || CloseDecoder(s, s') || StartLoop(s, s') || ExitLoop(s, s')
      || LoseDevice(s, s') || Recovered(s, s')
      || (exists l :: CopyFrame(s, s', l)) || (exists i :: Dequeue(s, s', i))
      || (exists n, taken :: SetupPool(s, s', n, taken))
    ensures s'.deviceLost <==> s'.loop.Recovering?
  {
    hide Range;
  }

  /** From a start with the device at hand until the next stop, the statistics say that the device is
      lost exactly while the loop is recovering it. */
  lemma {:induction false} LostWhileRecovering(run: seq<Source>, v: Variant, i: nat, j: nat)
    requires IsRun(run, v) && i <= j < |run| && run[i].loop.Polling? && !run[i].deviceLost
    requires forall n :: i <= n <= j ==> !run[n].loop.Stopped?
    ensures run[j].deviceLost <==> run[j].loop.Recovering?
    decreases j - i
  {
    hide Step;
    if i < j {
      LostWhileRecovering(run, v, i, j - 1);
      LostStep(run[j - 1], run[j], v);
    }
  }

  predicate Captures(s: Source) { s.loop.Polling? || s.loop.Holding? }

  lemma CaptureStep(s: Source, s': Source, v: Variant)
    requires Step(s, s', v) && (Captures(s) ==> s.devRef.Some? && s.poolRef.Some?)
    ensures Captures(s') ==> s'.devRef.Some? && s'.poolRef.Some?
  {
    hide Wrap, DecodeAndRequeue, DropFrame, ResetPool, ResetDev, SetupPool;
    if ok :| Wrap(s, s', v, ok) {
      WrapKeepsRefs(s, s', v, ok);
    } else if ok :| DecodeAndRequeue(s, s', ok) {
      DecodeKeepsRefs(s, s', ok);
    } else if l, ok :| DropFrame(s, s', l, ok) {
      DropKeepsRefs(s, s', l, ok);
    } else if ResetPool(s, s') || ResetDev(s, s') || exists n, taken :: SetupPool(s, s', n, taken) {
      IdleStaysIdle(s, s');
    }
  }

  lemma WrapKeepsRefs(s: Source, s': Source, v: Variant, ok: bool)
    requires Wrap(s, s', v, ok)
    ensures s.loop.Holding? && s'.devRef == s.devRef && s'.poolRef == s.poolRef
  {
  }

  lemma DecodeKeepsRefs(s: Source, s': Source, ok: bool)
    requires DecodeAndRequeue(s, s', ok)
    ensures s.loop.Holding? && s'.devRef == s.devRef && s'.poolRef == s.poolRef
  {
  }

  lemma DropKeepsRefs(s: Source, s': Source, l: nat, ok: bool)
    requires DropFrame(s, s', l, ok)
    ensures s'.loop == s.loop && s'.devRef == s.devRef && s'.poolRef == s.poolRef
  {
  }

  lemma IdleStaysIdle(s: Source, s': Source)
    requires ResetPool(s, s') || ResetDev(s, s') || exists n, taken :: SetupPool(s, s', n, taken)
    ensures Idle(s) && s'.loop == s.loop
  {
    hide Range;
  }

  /** While the loop captures, it has a device and a pool, and both are open and mapped. */
  lemma {:induction false} CapturesFromOpenDevice(run: seq<Source>, v: Variant, n: nat)
    requires IsRun(run, v) && n < |run| && Captures(run[n])
    ensures var s := run[n];
      && s.devRef.Some? && s.devRef.value in s.devs && s.devs[s.devRef.value].open
      && s.poolRef.Some? && s.poolRef.value in s.pools && s.pools[s.poolRef.value].mapped
  {
    hide Step;
    RunCaptures(run, v, n);
    RunCounts(run, v, n);
    OwnRefsCount(run[n]);
  }

  lemma OwnRefsCount(s: Source)
    requires Counted(s) && s.devRef.Some? && s.poolRef.Some?
    ensures s.devRef.value in s.devs && s.devs[s.devRef.value].open
    ensures s.poolRef.value in s.pools && s.pools[s.poolRef.value].mapped
  {
    assert PoolCounted(s, s.poolRef.value, None) && DevCounted(s, s.devRef.value);
  }

  lemma {:induction false} RunCaptures(run: seq<Source>, v: Variant, n: nat)
    requires IsRun(run, v) && n < |run|
    ensures Captures(run[n]) ==> run[n].devRef.Some? && run[n].poolRef.Some?
  {
    hide Step;
    if n > 0 {
      RunCaptures(run, v, n - 1);
      CaptureStep(run[n - 1], run[n], v);
    }
  }

  /** A pool is only ever set up with two slots or more. */
  lemma {:induction false} PoolsHaveTwoSlots(run: seq<Source>, v: Variant, n: nat, p: nat)
    requires IsRun(run, v) && n < |run| && p in run[n].pools
    ensures run[n].pools[p].slots >= 2
  {
    hide Step;
    if n > 0 {
      RunCounts(run, v, n - 1);
      StepKeepsSlots(run[n - 1], run[n], v, p);
      if p in run[n - 1].pools {
        PoolsHaveTwoSlots(run, v, n - 1, p);
      }
    }
  }

  lemma StepKeepsSlots(s: Source, s': Source, v: Variant, p: nat)
    requires Linked(s) && Step(s, s', v) && p in s'.pools
    ensures if p in s.pools then s'.pools[p].slots == s.pools[p].slots else s'.pools[p].slots >= 2
  {
    NoLeaseOnNewPool(s);
    hide Linked, Wrap, DecodeAndRequeue, DropFrame, ResetPool, ResetDev, SetupPool, Dequeue, OpenDevice, CopyFrame,
      LeasesOf;
    if ok :| Wrap(s, s', v, ok) {
      WrapKeepsSizes(s, s', v, ok);
    } else if ok :| DecodeAndRequeue(s, s', ok) {
      DecodeKeepsSizes(s, s', ok);
    } else if l, ok :| DropFrame(s, s', l, ok) {
      DropKeepsSizes(s, s', l, ok);
    } else if ResetPool(s, s') {
      ResetKeepsSizes(s, s');
    } else {
      OthersKeepSizes(s, s', p);
    }
  }

  predicate SameSizes(s: Source, s': Source) {
    s'.pools.Keys == s.pools.Keys && forall p :: p in s.pools ==> s'.pools[p].slots == s.pools[p].slots
  }

  lemma WrapKeepsSizes(s: Source, s': Source, v: Variant, ok: bool)
    requires Wrap(s, s', v, ok)
    ensures SameSizes(s, s')
  {
  }

  lemma DecodeKeepsSizes(s: Source, s': Source, ok: bool)
    requires DecodeAndRequeue(s, s', ok)
    ensures SameSizes(s, s')
  {
  }

  lemma DropKeepsSizes(s: Source, s': Source, l: nat, ok: bool)
    requires DropFrame(s, s', l, ok)
    ensures SameSizes(s, s')
  {
  }

  lemma ResetKeepsSizes(s: Source, s': Source)
    requires ResetPool(s, s')
    ensures SameSizes(s, s')
  {
  }

  lemma OthersKeepSizes(s: Source, s': Source, p: nat)
    requires p in s'.pools && s.next !in s.pools
    requires
      || OpenDevice(s, s') || ResetDev(s, s') || OpenDecoder(s, s')
      || CloseDecoder(s, s') || StartLoop(s, s') || ExitLoop(s, s')
      || LoseDevice(s, s') || Recovered(s, s')
      || (exists l :: CopyFrame(s, s', l)) || (exists i :: Dequeue(s, s', i))
      || (exists n, taken :: SetupPool(s, s', n, taken))
    ensures if p in s.pools then s'.pools[p].slots == s.pools[p].slots else s'.pools[p].slots >= 2
  {
    hide Range;
  }

  // ---- such runs exist ---------------------------------------------------------------------------------

  lemma ExtendHealthy(run: seq<Source>, s: Source)
    requires IsHealthyRun(run) && HealthyStep(run[|run| - 1], s)
    ensures IsHealthyRun(run + [s])
  {
    hide HealthyStep;
  }

  /** A device with two slots is opened and streaming, with or without a decoder. */
  lemma Started(decoder: bool) returns (run: seq<Source>)
    ensures IsHealthyRun(run)
    ensures run[|run| - 1] == Source(
      map[0 := Device(2, true)],
      map[1 := Pool(0, 2, 1, true, Range(2), Range(2) - Range(2), seq(2, _ => 0), seq(2, _ => 1))],
      map[], Some(0), Some(1), Polling, 0, 0, false, decoder, 2)
  {
    hide Range;
    var s1 := NEW_SOURCE.(devs := NEW_SOURCE.devs[0 := Device(1, true)], devRef := Some(0), next := 1);
    assert OpenDevice(NEW_SOURCE, s1);
    var s2 := s1.(decoder := decoder);
    assert if decoder then OpenDecoder(s1, s2) else CloseDecoder(s1, s2);
    var created := Pool(0, 2, 1, true, Range(2), Range(2) - Range(2), seq(2, _ => 0), seq(2, _ => 1));
    var s3 := TakeDev(s2, 0).(pools := s2.pools[1 := created], poolRef := Some(1), next := 2);
    assert SetupPool(s2, s3, 2, Range(2));
    var s4 := s3.(loop := Polling);
    assert StartLoop(s3, s4);
    assert HealthyStep(NEW_SOURCE, s1) && HealthyStep(s1, s2) && HealthyStep(s2, s3) && HealthyStep(s3, s4);
    run := [NEW_SOURCE];
    hide HealthyStep, SetupPool, OpenDevice, OpenDecoder, CloseDecoder, StartLoop;
    ExtendHealthy(run, s1);
    ExtendHealthy(run + [s1], s2);
    ExtendHealthy(run + [s1] + [s2], s3);
    ExtendHealthy(run + [s1] + [s2] + [s3], s4);
    run := run + [s1] + [s2] + [s3] + [s4];
  }

  /** With the decoder a buffer is decoded and back with the driver in two steps, and no frame is out. */
  lemma DecodedFrame() returns (run: seq<Source>)
    ensures IsHealthyRun(run) && |run| > 2
    ensures var s := run[|run| - 1];
      1 in s.pools && |s.pools[1].dequeues| > 0 && s.pools[1].dequeues[0] == 1
      && 0 in s.pools[1].queued && s.leases == map[] && s.loop.Polling?
  {
    run := Started(true);
    var s := run[|run| - 1];
    var pool := s.pools[1];
    assert 0 in pool.queued;
    var held := s.(loop := Holding(1, 0), pools := s.pools[1 := pool.(queued := pool.queued - {0},
                                                                     dequeues := pool.dequeues[0 := 1])]);
    assert Dequeue(s, held, 0);
    var done := Requeue(held, 1, 0, true).(loop := Polling);
    assert DecodeAndRequeue(held, done, true);
    assert HealthyStep(s, held) && HealthyStep(held, done);
    hide HealthyStep, IsHealthyRun, Dequeue, DecodeAndRequeue, Range;
    ExtendHealthy(run, held);
    ExtendHealthy(run + [held], done);
    run := run + [held] + [done];
  }

  /** Without it the frame itself goes out, here with a second copy, and the slot comes back when both
      copies are released. */
  lemma RawFrame() returns (run: seq<Source>)
    ensures IsHealthyRun(run) && |run| > 4
    ensures var s := run[|run| - 2]; 2 in s.leases && s.leases[2] == Lease(1, 0, 1)
    ensures var s := run[|run| - 1];
      1 in s.pools && |s.pools[1].dequeues| > 0 && s.pools[1].dequeues[0] == 1
      && 0 in s.pools[1].queued && s.leases == map[]
  {
    run := Started(false);
    var s := run[|run| - 1];
    var held, framed := FrameOut(s);
    var copied, one, none := CopyAndRelease(framed);
    hide HealthyStep, IsHealthyRun, Dequeue, Wrap, CopyFrame, DropFrame, Range;
    ExtendHealthy(run, held);
    ExtendHealthy(run + [held], framed);
    ExtendHealthy(run + [held] + [framed], copied);
    ExtendHealthy(run + [held] + [framed] + [copied], one);
    ExtendHealthy(run + [held] + [framed] + [copied] + [one], none);
    run := run + [held] + [framed] + [copied] + [one] + [none];
  }

  /** Streaming without a decoder; slot 0 is with the driver. */
  predicate StreamsRaw(s: Source, pool: Pool) {
    && s == Source(map[0 := Device(2, true)], map[1 := pool], map[], Some(0), Some(1), Polling, 0, 0, false, false, 2)
    && pool.dev == 0 && pool.refs == 1 && 0 in pool.queued && |pool.dequeues| > 0 && |pool.requeues| > 0
    && pool.dequeues[0] == 0
  }

  lemma FrameOut(s: Source) returns (held: Source, framed: Source)
    requires 1 in s.pools && StreamsRaw(s, s.pools[1])
    ensures HealthyStep(s, held) && HealthyStep(held, framed)
    ensures framed.devs == s.devs && framed.loop.Polling? && framed.leases == map[2 := Lease(1, 0, 1)]
    ensures framed.devRef == s.devRef && framed.poolRef == s.poolRef && framed.next == 3
    ensures framed.deviceLost == s.deviceLost && framed.generation == s.generation
    ensures var pool := s.pools[1];
      framed.pools == map[1 := pool.(refs := 2, queued := pool.queued - {0}, dequeues := pool.dequeues[0 := 1])]
  {
    var pool := s.pools[1];
    held := s.(loop := Holding(1, 0), pools := s.pools[1 := pool.(queued := pool.queued - {0},
                                                                  dequeues := pool.dequeues[0 := 1])]);
    assert Dequeue(s, held, 0);
    framed := Wrapped(held, 1, 0);
    assert Wrap(held, framed, Intended, true);
    hide Dequeue, Wrap, Wrapped;
  }

  lemma CopyAndRelease(framed: Source) returns (copied: Source, one: Source, none: Source)
    requires framed.leases == map[2 := Lease(1, 0, 1)] && 0 in framed.devs && framed.devs[0] == Device(2, true)
    requires 1 in framed.pools && framed.pools[1].dev == 0 && framed.pools[1].refs == 2
    requires |framed.pools[1].requeues| > 0 && 0 !in framed.pools[1].queued
    ensures HealthyStep(framed, copied) && HealthyStep(copied, one) && HealthyStep(one, none)
    ensures one.leases == map[2 := Lease(1, 0, 1)] && none.leases == map[]
    ensures 1 in none.pools && none.pools[1].dequeues == framed.pools[1].dequeues && 0 in none.pools[1].queued
  {
    copied := framed.(leases := framed.leases[2 := Lease(1, 0, 2)]);
    assert CopyFrame(framed, copied, 2);
    one := copied.(leases := copied.leases[2 := Lease(1, 0, 1)]);
    assert DropFrame(copied, one, 2, true);
    none := ReleasePool(Requeue(LeaseGone(one, 2), 1, 0, true), 1);
    assert DropFrame(one, none, 2, true);
    hide CopyFrame, DropFrame;
  }

  /** A frame of pool 1, on descriptor 0, is out; the pool has `refs` owners. */
  predicate OldFrameOut(s: Source, refs: nat) {
    && s.leases == map[2 := Lease(1, 0, 1)] && 1 in s.pools && s.pools[1].dev == 0 && s.pools[1].refs == refs
    && s.pools[1].mapped && |s.pools[1].requeues| > 0
  }

  /** The device is lost: pool and descriptor are let go of, and live on with the frame. */
  lemma LoseBoth(s0: Source) returns (s1: Source, s2: Source, s3: Source)
    requires OldFrameOut(s0, 2) && s0.loop.Polling? && s0.devRef == Some(0) && s0.poolRef == Some(1) && s0.next == 3
    requires s0.devs == map[0 := Device(2, true)]
    ensures HealthyStep(s0, s1) && HealthyStep(s1, s2) && HealthyStep(s2, s3)
    ensures OldFrameOut(s3, 1) && s3.loop.Recovering? && s3.deviceLost && s3.devRef == s3.poolRef == None
    ensures s3.next == 3 && s3.devs == map[0 := Device(1, true)] && s3.generation == s0.generation
  {
    s1 := s0.(loop := Recovering, deviceLost := true);
    assert LoseDevice(s0, s1);
    s2 := ReleasePool(s1, 1).(poolRef := None);
    assert ResetPool(s1, s2);
    s3 := ReleaseDev(s2, 0).(devRef := None);
    assert ResetDev(s2, s3);
    hide LoseDevice, ResetPool, ResetDev;
  }

  /** The device is found again, with a new descriptor and a new pool. */
  lemma FindAgain(s3: Source) returns (s4: Source, s5: Source, s6: Source)
    requires OldFrameOut(s3, 1) && s3.loop.Recovering? && s3.devRef == s3.poolRef == None && s3.next == 3
    requires s3.devs == map[0 := Device(1, true)]
    ensures HealthyStep(s3, s4) && HealthyStep(s4, s5) && HealthyStep(s5, s6)
    ensures OldFrameOut(s6, 1) && s6.loop.Polling? && !s6.deviceLost && s6.statGeneration == s3.generation + 1
    ensures s6.poolRef == Some(4) && s6.devs == map[0 := Device(1, true), 3 := Device(2, true)]
    ensures 4 in s6.pools && s6.pools[4].queued == Range(2) && s6.pools[4].mapped
  {
    hide Range;
    s4 := s3.(devs := s3.devs[3 := Device(1, true)], devRef := Some(3), next := 4);
    assert OpenDevice(s3, s4);
    var renewed := Pool(3, 2, 1, true, Range(2), Range(2) - Range(2), seq(2, _ => 0), seq(2, _ => 1));
    s5 := TakeDev(s4, 3).(pools := s4.pools[4 := renewed], poolRef := Some(4), next := 5);
    assert SetupPool(s4, s5, 2, Range(2));
    s6 := s5.(loop := Polling, generation := s5.generation + 1, deviceLost := false,
              statGeneration := s5.generation + 1);
    assert Recovered(s5, s6);
    hide OpenDevice, SetupPool, Recovered;
  }

  lemma ReleaseOldFrame(s: Source) returns (end: Source)
    requires OldFrameOut(s, 1) && 0 in s.devs && s.devs[0] == Device(1, true)
    requires 4 in s.pools && s.pools[4].mapped
    ensures HealthyStep(s, end)
    ensures end.leases == map[] && end.loop == s.loop && 1 in end.pools && !end.pools[1].mapped
    ensures 0 in end.devs && !end.devs[0].open && 4 in end.pools && end.pools[4] == s.pools[4]
  {
    end := ReleasePool(Requeue(LeaseGone(s, 2), 1, 0, true), 1);
    assert DropFrame(s, end, 2, true);
    hide DropFrame;
  }

  lemma Follow(run: seq<Source>, a: Source, b: Source, c: Source) returns (longer: seq<Source>)
    requires IsHealthyRun(run) && HealthyStep(run[|run| - 1], a) && HealthyStep(a, b) && HealthyStep(b, c)
    ensures IsHealthyRun(longer) && |longer| > 3 && longer[|longer| - 1] == c && longer[|longer| - 2] == b
  {
    assert |run| > 0;
    hide HealthyStep, IsHealthyRun;
    ExtendHealthy(run, a);
    ExtendHealthy(run + [a], b);
    ExtendHealthy(run + [a] + [b], c);
    longer := run + [a] + [b] + [c];
  }

  lemma OneFrameOut() returns (run: seq<Source>)
    ensures IsHealthyRun(run) && |run| > 0
    ensures var s := run[|run| - 1];
      OldFrameOut(s, 2) && s.loop.Polling? && s.devRef == Some(0) && s.poolRef == Some(1) && s.next == 3
      && s.devs == map[0 := Device(2, true)] && s.generation == 0
  {
    run := Started(false);
    hide Range;
    var held, framed := FrameOut(run[|run| - 1]);
    hide HealthyStep, IsHealthyRun;
    ExtendHealthy(run, held);
    ExtendHealthy(run + [held], framed);
    run := run + [held] + [framed];
  }

  /** A recovery while a frame is out: the frame's memory stays mapped on the old descriptor until its
      release, which unmaps the old pool, closes the old descriptor and leaves the new pool alone. */
  lemma RecoveryWhileFrameIsOut() returns (run: seq<Source>)
    ensures IsHealthyRun(run) && |run| > 2
    ensures var s := run[|run| - 2];
      s.leases == map[2 := Lease(1, 0, 1)] && s.statGeneration == 1 && !s.deviceLost
      && s.poolRef == Some(4) && 1 in s.pools && s.pools[1].mapped && 0 in s.devs && s.devs[0].open
    ensures var s := run[|run| - 1];
      s.leases == map[] && s.loop.Polling?
      && 1 in s.pools && !s.pools[1].mapped && 0 in s.devs && !s.devs[0].open
      && 4 in s.pools && s.pools[4].mapped && s.pools[4].queued == Range(2)
  {
    hide HealthyStep, IsHealthyRun, Range;
    run := OneFrameOut();
    var s1, s2, s3 := LoseBoth(run[|run| - 1]);
    run := Follow(run, s1, s2, s3);
    var s4, s5, s6 := FindAgain(s3);
    run := Follow(run, s4, s5, s6);
    var end := ReleaseOldFrame(s6);
    ExtendHealthy(run, end);
    run := run + [end];
  }

  /** Stop and Close with no frame out leave nothing behind: the pool is unmapped, the descriptor closed. */
  lemma StopAndClose() returns (run: seq<Source>)
    ensures IsHealthyRun(run) && |run| > 3
    ensures var s := run[|run| - 1];
      && s.loop.Stopped? && s.devRef.None? && s.poolRef.None?
      && (forall p :: p in s.pools ==> !s.pools[p].mapped) && (forall d :: d in s.devs ==> !s.devs[d].open)
  {
    run := Started(false);
    var s := run[|run| - 1];
    hide Range;
    var s1 := s.(loop := Stopped);
    assert ExitLoop(s, s1);
    var s2 := ReleasePool(s1, 1).(poolRef := None);
    assert ResetPool(s1, s2);
    var s3 := ReleaseDev(s2, 0).(devRef := None);
    assert ResetDev(s2, s3);
    assert HealthyStep(s, s1) && HealthyStep(s1, s2) && HealthyStep(s2, s3);
    hide HealthyStep, IsHealthyRun, ExitLoop, ResetPool, ResetDev;
    run := Follow(run, s1, s2, s3);
  }
}
