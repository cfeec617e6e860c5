/** Who owns each mmap slot, how often it is handed back, and what the recovery counters tell
    an observer, over whole runs of the slot-lease protocol. */
module SlotOwnership {
  import opened VideoFrames
  import opened SlotLeases

  ghost function Holders(s: Source, p: nat, i: nat): set<nat> {
    set l | l in s.leases && s.leases[l].pool == p && s.leases[l].index == i
  }

  predicate InHand(s: Source, p: nat, i: nat) {
    s.loop == Holding(p, i)
  }

  /** The slot is in exactly one of kernel queue, failed hand-backs, capture loop and one live
      lease; and it was handed back once per dequeue (plus the initial queueing), except for a
      dequeue still out. */
  ghost predicate OneOwner(s: Source, p: nat, i: nat) {
    && p in s.pools && i < |s.pools[p].requeues| && i < |s.pools[p].dequeues|
    && One(i in s.pools[p].queued) + One(i in s.pools[p].lost) + One(InHand(s, p, i)) + |Holders(s, p, i)| == 1
    && s.pools[p].requeues[i] + One(InHand(s, p, i)) + |Holders(s, p, i)| == s.pools[p].dequeues[i] + 1
  }

  ghost predicate SlotsOwned(s: Source) {
    forall p, i :: p in s.pools && 0 <= i < s.pools[p].slots ==> OneOwner(s, p, i)
  }

  ghost predicate SameSlot(s: Source, s': Source, p: nat, i: nat)
    requires p in s.pools && p in s'.pools
  {
    var a, b := s.pools[p], s'.pools[p];
    && (i in a.queued <==> i in b.queued) && (i in a.lost <==> i in b.lost)
    && |a.requeues| == |b.requeues| && |a.dequeues| == |b.dequeues|
    && (i < |a.requeues| ==> a.requeues[i] == b.requeues[i])
    && (i < |a.dequeues| ==> a.dequeues[i] == b.dequeues[i])
  }

  lemma SameSlotSameOwner(s: Source, s': Source, p: nat, i: nat)
    requires OneOwner(s, p, i) && p in s'.pools && SameSlot(s, s', p, i)
    requires InHand(s, p, i) <==> InHand(s', p, i)
    requires Holders(s, p, i) == Holders(s', p, i)
    ensures OneOwner(s', p, i)
  {
  }

  /** Steps that touch no queue, no lease's slot and not what the loop has in hand. */
  lemma UntouchedSlots(s: Source, s': Source)
    requires SlotsOwned(s) && SameLeases(s, s') && s'.pools.Keys == s.pools.Keys
    requires forall p :: p in s.pools ==>
      s'.pools[p] == s.pools[p].(refs := s'.pools[p].refs, mapped := s'.pools[p].mapped)
    requires s.loop == s'.loop || (!s.loop.Holding? && !s'.loop.Holding?)
    ensures SlotsOwned(s')
  {
    forall p, i | p in s'.pools && 0 <= i < s'.pools[p].slots
      ensures OneOwner(s', p, i)
    {
      assert OneOwner(s, p, i);
      assert Holders(s', p, i) == Holders(s, p, i);
      SameSlotSameOwner(s, s', p, i);
    }
  }

  lemma SetupOwns(s: Source, s': Source, n: nat, taken: set<nat>)
    requires SlotsOwned(s) && Linked(s) && SetupPool(s, s', n, taken)
    ensures SlotsOwned(s')
  {
    hide LeasesOf, Linked;
    NoLeaseOnNewPool(s);
    forall p, i | p in s'.pools && 0 <= i < s'.pools[p].slots
      ensures OneOwner(s', p, i)
    {
      assert Holders(s', p, i) == Holders(s, p, i);
      if p != s.next {
        assert OneOwner(s, p, i);
        SameSlotSameOwner(s, s', p, i);
      } else {
        NewSlotsHaveNoHolder(s, i);
      }
    }
  }

  lemma NewSlotsHaveNoHolder(s: Source, i: nat)
    requires Linked(s)
    ensures Holders(s, s.next, i) == {} && !InHand(s, s.next, i)
  {
    NoLeaseOnNewPool(s);
    assert Holders(s, s.next, i) <= LeasesOf(s, s.next);
  }

  lemma DequeueOwns(s: Source, s': Source, i0: nat)
    requires SlotsOwned(s) && Dequeue(s, s', i0)
    ensures SlotsOwned(s')
  {
    var p0 := s.poolRef.value;
    forall p, i | p in s'.pools && 0 <= i < s'.pools[p].slots
      ensures OneOwner(s', p, i)
    {
      assert OneOwner(s, p, i);
      assert Holders(s', p, i) == Holders(s, p, i);
      if p != p0 || i != i0 {
        SameSlotSameOwner(s, s', p, i);
      }
    }
  }

  lemma WrapOwns(s: Source, s': Source, ok: bool)
    requires SlotsOwned(s) && s.next !in s.leases && Wrap(s, s', Intended, ok)
    ensures SlotsOwned(s')
  {
    forall p, i | p in s'.pools && 0 <= i < s'.pools[p].slots
      ensures OneOwner(s', p, i)
    {
      assert OneOwner(s, p, i);
      if InHand(s, p, i) {
        assert Holders(s', p, i) == Holders(s, p, i) + {s.next};
      } else {
        assert Holders(s', p, i) == Holders(s, p, i);
        SameSlotSameOwner(s, s', p, i);
      }
    }
  }

  /** Handing back a slot that nobody but the caller owns puts it in exactly one place. */
  lemma RequeueOwns(s: Source, p0: nat, i0: nat, ok: bool)
    requires p0 in s.pools && i0 < |s.pools[p0].requeues| && s.pools[p0].dev in s.devs
    requires i0 !in s.pools[p0].queued && i0 !in s.pools[p0].lost
    ensures var s', a := Requeue(s, p0, i0, ok), s.pools[p0];
      && s' == s.(pools := s.pools[p0 := s'.pools[p0]])
      && var b := s'.pools[p0];
         One(i0 in b.queued) + One(i0 in b.lost) == 1
         && (forall i :: i != i0 ==> (i in a.queued <==> i in b.queued) && (i in a.lost <==> i in b.lost))
         && b.requeues == a.requeues[i0 := a.requeues[i0] + 1] && b.dequeues == a.dequeues && b.slots == a.slots
  {
  }

  lemma DecodeOwns(s: Source, s': Source, ok: bool)
    requires SlotsOwned(s) && Linked(s) && DecodeAndRequeue(s, s', ok)
    ensures SlotsOwned(s')
  {
    hide Requeue;
    var p0, i0 := s.loop.pool, s.loop.index;
    assert OneOwner(s, p0, i0) by {
      hide OneOwner;
    }
    hide Linked;
    RequeueOwns(s, p0, i0, ok);
    forall p, i | p in s'.pools && 0 <= i < s'.pools[p].slots
      ensures OneOwner(s', p, i)
    {
      assert OneOwner(s, p, i);
      assert Holders(s', p, i) == Holders(s, p, i);
      if p != p0 || i != i0 {
        SameSlotSameOwner(s, s', p, i);
      }
    }
  }

  lemma ReleasePoolKeepsSlots(s: Source, p: nat)
    requires SlotsOwned(s) && CanRelease(s, p)
    ensures SlotsOwned(ReleasePool(s, p))
  {
    UntouchedSlots(s, ReleasePool(s, p));
  }

  lemma DropLastOwns(s: Source, l: nat, ok: bool)
    requires SlotsOwned(s) && l in s.leases && CanRelease(s, s.leases[l].pool)
    requires s.leases[l].index < s.pools[s.leases[l].pool].slots
    requires s.leases[l].index < |s.pools[s.leases[l].pool].requeues|
    ensures SlotsOwned(Requeue(LeaseGone(s, l), s.leases[l].pool, s.leases[l].index, ok))
  {
    hide Requeue;
    var p0, i0 := s.leases[l].pool, s.leases[l].index;
    var gone := LeaseGone(s, l);
    var s' := Requeue(gone, p0, i0, ok);
    assert OneOwner(s, p0, i0) && l in Holders(s, p0, i0);
    LoneHolder(s, p0, i0, l);
    RequeueOwns(gone, p0, i0, ok);
    forall p, i | p in s'.pools && 0 <= i < s'.pools[p].slots
      ensures OneOwner(s', p, i)
    {
      assert OneOwner(s, p, i);
      if p == p0 && i == i0 {
        assert Holders(s', p, i) == Holders(s, p, i) - {l};
      } else {
        assert Holders(s', p, i) == Holders(s, p, i);
        SameSlotSameOwner(s, s', p, i);
      }
    }
  }

  lemma LoneHolder(s: Source, p: nat, i: nat, l: nat)
    requires OneOwner(s, p, i) && l in Holders(s, p, i)
    ensures |Holders(s, p, i)| == 1 && !InHand(s, p, i)
    ensures i !in s.pools[p].queued && i !in s.pools[p].lost
    ensures Holders(s, p, i) == {l}
  {
    assert |Holders(s, p, i) - {l}| == |Holders(s, p, i)| - 1;
  }

  lemma DropOwns(s: Source, s': Source, l: nat, ok: bool)
    requires SlotsOwned(s) && Linked(s) && DropFrame(s, s', l, ok)
    ensures SlotsOwned(s')
  {
    if s.leases[l].copies > 1 {
      UntouchedSlots(s, s');
    } else {
      assert LeaseLinked(s, l);
      hide SlotsOwned, Linked;
      DropLastOwns(s, l, ok);
      hide Requeue, ReleasePool, LeaseGone;
      ReleasePoolKeepsSlots(Requeue(LeaseGone(s, l), s.leases[l].pool, s.leases[l].index, ok), s.leases[l].pool);
    }
  }

  lemma NextIsFresh(s: Source)
    requires Linked(s)
    ensures s.next !in s.leases && s.next !in s.pools
  {
    NoLeaseOnNewPool(s);
  }

  lemma StepKeepsOwners(s: Source, s': Source)
    requires SlotsOwned(s) && Linked(s) && Step(s, s', Intended)
    ensures SlotsOwned(s')
  {
    hide SlotsOwned, Linked, SetupPool, Dequeue, Wrap, DecodeAndRequeue, DropFrame;
    if n, taken :| SetupPool(s, s', n, taken) {
      SetupOwns(s, s', n, taken);
    } else if i :| Dequeue(s, s', i) {
      DequeueOwns(s, s', i);
    } else if ok :| Wrap(s, s', Intended, ok) {
      NextIsFresh(s);
      WrapOwns(s, s', ok);
    } else if ok :| DecodeAndRequeue(s, s', ok) {
      DecodeOwns(s, s', ok);
    } else if l, ok :| DropFrame(s, s', l, ok) {
      DropOwns(s, s', l, ok);
    } else {
      QuietStepKeepsOwners(s, s');
    }
  }

  /** The remaining steps move no slot. */
  lemma QuietStepKeepsOwners(s: Source, s': Source)
    requires SlotsOwned(s)
    requires
      || OpenDevice(s, s') || ResetDev(s, s') || ResetPool(s, s') || OpenDecoder(s, s')
      || CloseDecoder(s, s') || StartLoop(s, s') || ExitLoop(s, s')
      || LoseDevice(s, s') || Recovered(s, s') || exists l :: CopyFrame(s, s', l)
    ensures SlotsOwned(s')
  {
    hide SlotsOwned;
    if ResetPool(s, s') {
      hide ReleasePool;
      ReleasePoolKeepsSlots(s, s.poolRef.value);
      UntouchedSlots(ReleasePool(s, s.poolRef.value), s');
    } else {
      UntouchedSlots(s, s');
    }
  }

  /** For the intended lease, in every state of every run: each slot of each pool has exactly one
      owner and was handed back exactly once per completed dequeue. */
  lemma {:induction false} EverySlotHasOneOwner(run: seq<Source>, n: nat)
    requires IsRun(run, Intended) && n < |run|
    ensures SlotsOwned(run[n])
  {
    hide Step, SlotsOwned;
    if n == 0 {
      NothingToOwn(run[0]);
    } else {
      EverySlotHasOneOwner(run, n - 1);
      RunCounts(run, Intended, n - 1);
      StepKeepsOwners(run[n - 1], run[n]);
    }
  }

  lemma NothingToOwn(s: Source)
    requires s == NEW_SOURCE
    ensures SlotsOwned(s)
  {
  }

  /** So no two live frames share memory. */
  lemma IntendedFramesAreExclusive(run: seq<Source>, n: nat, l: nat, k: nat)
    requires IsRun(run, Intended) && n < |run| && l in run[n].leases && k in run[n].leases && l != k
    ensures run[n].leases[l].pool != run[n].leases[k].pool || run[n].leases[l].index != run[n].leases[k].index
  {
    hide IsRun;
    var s := run[n];
    EverySlotHasOneOwner(run, n);
    RunCounts(run, Intended, n);
    assert LeaseLinked(s, l);
    var p, i := s.leases[l].pool, s.leases[l].index;
    assert OneOwner(s, p, i) && l in Holders(s, p, i);
    LoneHolder(s, p, i, l);
    assert k !in Holders(s, p, i);
  }

  // ---- the literal lease ---------------------------------------------------------------

  /** No live frame's slot has been handed back, be it that the driver took it or that the
      hand-back failed. */
  ghost predicate FramesKeepSlots(s: Source) {
    forall l :: l in s.leases && s.leases[l].pool in s.pools ==>
      s.leases[l].index !in s.pools[s.leases[l].pool].queued && s.leases[l].index !in s.pools[s.leases[l].pool].lost
  }

  /** Nor has a live frame's slot ever been handed back. */
  lemma IntendedFramesKeepSlots(run: seq<Source>, n: nat)
    requires IsRun(run, Intended) && n < |run|
    ensures FramesKeepSlots(run[n])
  {
    hide IsRun;
    var s := run[n];
    EverySlotHasOneOwner(run, n);
    RunCounts(run, Intended, n);
    forall l | l in s.leases && s.leases[l].pool in s.pools
      ensures s.leases[l].index !in s.pools[s.leases[l].pool].queued
      ensures s.leases[l].index !in s.pools[s.leases[l].pool].lost
    {
      assert LeaseLinked(s, l);
      assert OneOwner(s, s.leases[l].pool, s.leases[l].index);
      LoneHolder(s, s.leases[l].pool, s.leases[l].index, l);
    }
  }

  /** As written, wrapping a raw frame hands its slot back before the frame is even emitted. */
  lemma LiteralWrapLosesTheSlot(s: Source, s': Source, ok: bool)
    requires Wrap(s, s', Literal, ok)
    ensures !FramesKeepSlots(s')
  {
    hide Requeue;
    var p, i := s.loop.pool, s.loop.index;
    var w := Wrapped(s, p, i);
    RequeueChangesOnlyTheQueue(w, p, i, ok);
    assert i in s'.pools[p].queued + s'.pools[p].lost;
    assert s.next in s'.leases && s'.leases[s.next] == Lease(p, i, 1);
  }

  /** In step k the loop passes on the buffer in its hand, on either branch. */
  predicate Delivers(run: seq<Source>, k: nat) {
    k + 1 < |run| && run[k].loop.Holding? && !run[k + 1].loop.Holding?
  }

  /** It does so without a decoder. */
  predicate DeliversRaw(run: seq<Source>, k: nat) {
    Delivers(run, k) && !run[k].decoder
  }

  ghost predicate Wraps(s: Source, s': Source, v: Variant) {
    exists ok :: Wrap(s, s', v, ok)
  }

  /** Passing on a raw buffer is wrapping it, and nothing else makes a lease. */
  lemma OnlyRawDeliveryWraps(s: Source, s': Source, v: Variant)
    requires Step(s, s', v)
    ensures Wraps(s, s', v) <==> s.loop.Holding? && !s'.loop.Holding? && !s.decoder
    ensures !Wraps(s, s', v) ==> s'.leases.Keys <= s.leases.Keys
  {
    hide Wrap, DecodeAndRequeue, DropFrame, ResetPool, ResetDev, SetupPool, Dequeue, OpenDevice, CopyFrame;
    if ok :| Wrap(s, s', v, ok) {
      WrapDelivers(s, s', v, ok);
    } else if ok :| DecodeAndRequeue(s, s', ok) {
      DecodeMakesNoLease(s, s', ok);
    } else if l, ok :| DropFrame(s, s', l, ok) {
      DropMakesNoLease(s, s', l, ok);
    } else if ResetPool(s, s') {
      ResetPoolMakesNoLease(s, s');
    } else {
      OtherStepsMakeNoLease(s, s');
    }
  }

  lemma WrapDelivers(s: Source, s': Source, v: Variant, ok: bool)
    requires Wrap(s, s', v, ok)
    ensures s.loop.Holding? && !s'.loop.Holding? && !s.decoder
  {
  }

  lemma DecodeMakesNoLease(s: Source, s': Source, ok: bool)
    requires DecodeAndRequeue(s, s', ok)
    ensures s.decoder && s'.leases == s.leases
  {
  }

  lemma DropMakesNoLease(s: Source, s': Source, l: nat, ok: bool)
    requires DropFrame(s, s', l, ok)
    ensures s'.leases.Keys <= s.leases.Keys && s'.loop == s.loop
  {
  }

  lemma ResetPoolMakesNoLease(s: Source, s': Source)
    requires ResetPool(s, s')
    ensures s'.leases == s.leases && !s.loop.Holding?
  {
  }

  lemma OtherStepsMakeNoLease(s: Source, s': Source)
    requires
      || OpenDevice(s, s') || ResetDev(s, s') || OpenDecoder(s, s') || CloseDecoder(s, s') || StartLoop(s, s')
      || ExitLoop(s, s') || LoseDevice(s, s') || Recovered(s, s')
      || (exists l :: CopyFrame(s, s', l)) || (exists i :: Dequeue(s, s', i))
      || (exists n, taken :: SetupPool(s, s', n, taken))
    ensures s'.leases.Keys <= s.leases.Keys
    ensures s.loop.Holding? ==> s'.loop.Holding?
  {
  }

  lemma {:induction false} NoRawNoLease(run: seq<Source>, v: Variant, i: nat, n: nat)
    requires IsRun(run, v) && i <= n < |run| && run[i].leases.Keys == {}
    requires forall k: nat :: i <= k < n ==> !DeliversRaw(run, k)
    ensures run[n].leases.Keys == {}
    decreases n - i
  {
    hide Step, Wrap;
    if i < n {
      NoRawNoLease(run, v, i, n - 1);
      assert !DeliversRaw(run, n - 1);
      OnlyRawDeliveryWraps(run[n - 1], run[n], v);
    }
  }

  /** When the code as written meets its own comment. From a state without frames, such as a fresh
      start, a stretch of a run never hands a live frame's slot back exactly when no buffer is
      passed on in it without a decoder. */
  lemma LiteralKeepsSlotsIffDecoded(run: seq<Source>, i: nat, j: nat)
    requires IsRun(run, Literal) && i <= j < |run| && run[i].leases.Keys == {}
    ensures (forall n :: i <= n <= j ==> FramesKeepSlots(run[n]))
       <==> (forall k: nat :: i <= k < j ==> !DeliversRaw(run, k))
  {
    hide Step, Wrap;
    if k: nat :| i <= k < j && DeliversRaw(run, k) {
      OnlyRawDeliveryWraps(run[k], run[k + 1], Literal);
      var ok :| Wrap(run[k], run[k + 1], Literal, ok);
      LiteralWrapLosesTheSlot(run[k], run[k + 1], ok);
    } else {
      forall n | i <= n <= j
        ensures FramesKeepSlots(run[n])
      {
        NoRawNoLease(run, Literal, i, n);
      }
    }
  }

  /** From start to stop the branch is fixed, through any number of recoveries. */
  lemma {:induction false} DecoderIsFixed(run: seq<Source>, v: Variant, i: nat, k: nat)
    requires IsRun(run, v) && i <= k < |run|
    requires forall n :: i <= n <= k ==> !run[n].loop.Stopped?
    ensures run[k].decoder == run[i].decoder
    decreases k - i
  {
    hide Step;
    if i < k {
      DecoderIsFixed(run, v, i, k - 1);
      RunningKeepsDecoder(run[k - 1], run[k], v);
    }
  }

  lemma RunningKeepsDecoder(s: Source, s': Source, v: Variant)
    requires Step(s, s', v) && !s.loop.Stopped?
    ensures s'.decoder == s.decoder
  {
    hide Wrap, DecodeAndRequeue, DropFrame, ResetPool, Requeue, ReleasePool;
    if ok :| Wrap(s, s', v, ok) {
      WrapKeepsCounters(s, s', v, ok);
    } else if ok :| DecodeAndRequeue(s, s', ok) {
      DecodeKeepsCounters(s, s', ok);
    } else if l, ok :| DropFrame(s, s', l, ok) {
      DropKeepsCounters(s, s', l, ok);
    } else if ResetPool(s, s') {
      ResetPoolKeepsCounters(s, s');
    }
  }

  /** So the promise is decided when the loop starts: with no frames out, everything passed on until
      the loop stops keeps its slot exactly when the decoder is on, or nothing was passed on. */
  lemma LiteralStreamKeepsSlotsIff(run: seq<Source>, i: nat, j: nat)
    requires IsRun(run, Literal) && i <= j < |run| && run[i].leases.Keys == {}
    requires forall n :: i <= n <= j ==> !run[n].loop.Stopped?
    ensures (forall n :: i <= n <= j ==> FramesKeepSlots(run[n]))
       <==> run[i].decoder || forall k: nat :: i <= k < j ==> !Delivers(run, k)
  {
    hide IsRun;
    LiteralKeepsSlotsIffDecoded(run, i, j);
    forall k: nat | i <= k < j
      ensures DeliversRaw(run, k) <==> Delivers(run, k) && !run[i].decoder
    {
      DecoderIsFixed(run, Literal, i, k);
    }
  }

  /** The loop is polling and the driver holds slot 0 of the current pool. */
  predicate SlotZeroReady(s: Source) {
    && s.loop.Polling? && !s.decoder && s.poolRef.Some? && s.poolRef.value in s.pools
    && 0 in s.pools[s.poolRef.value].queued
    && |s.pools[s.poolRef.value].dequeues| > 0 && |s.pools[s.poolRef.value].requeues| > 0
    && s.pools[s.poolRef.value].dev in s.devs && s.devs[s.pools[s.poolRef.value].dev].open
  }

  /** Slot 0 is dequeued and wrapped: in the literal variant the driver has it back at once. */
  lemma TakeSlotZero(s: Source) returns (held: Source, framed: Source)
    requires SlotZeroReady(s)
    ensures Dequeue(s, held, 0) && Wrap(held, framed, Literal, true)
    ensures SlotZeroReady(framed) && framed.poolRef == s.poolRef && framed.next == s.next + 1
    ensures framed.leases == s.leases[s.next := Lease(s.poolRef.value, 0, 1)]
  {
    var p, pool := s.poolRef.value, s.pools[s.poolRef.value];
    held := s.(loop := Holding(p, 0),
               pools := s.pools[p := pool.(queued := pool.queued - {0},
                                           dequeues := pool.dequeues[0 := pool.dequeues[0] + 1])]);
    framed := Requeue(Wrapped(held, p, 0), p, 0, true);
  }

  lemma Streaming() returns (run: seq<Source>)
    ensures IsRun(run, Literal) && |run| == 4 && SlotZeroReady(run[3])
  {
    hide Range;
    var s1 := NEW_SOURCE.(devs := NEW_SOURCE.devs[0 := Device(1, true)], devRef := Some(0), next := 1);
    assert OpenDevice(NEW_SOURCE, s1);
    var created := Pool(0, 2, 1, true, {0}, Range(2) - {0}, seq(2, _ => 0), seq(2, _ => 1));
    var s2 := TakeDev(s1, 0).(pools := s1.pools[1 := created], poolRef := Some(1), next := 2);
    assert SetupPool(s1, s2, 2, {0});
    var s3 := s2.(loop := Polling);
    assert StartLoop(s2, s3);
    run := [NEW_SOURCE, s1, s2, s3];
    forall i | 0 <= i < 3
      ensures Step(run[i], run[i + 1], Literal)
    {
      hide OpenDevice, SetupPool, StartLoop;
    }
  }

  lemma TakingIsSteps(s: Source, held: Source, framed: Source)
    requires Dequeue(s, held, 0) && Wrap(held, framed, Literal, true)
    ensures Step(s, held, Literal) && Step(held, framed, Literal)
  {
    hide Dequeue, Wrap;
  }

  lemma ExtendRun(run: seq<Source>, s: Source)
    requires IsRun(run, Literal) && Step(run[|run| - 1], s, Literal)
    ensures IsRun(run + [s], Literal)
  {
    hide Step;
  }

  /** Two live frames on one slot: the slot is dequeued again while its first frame is alive. */
  lemma LiteralFramesAlias() returns (run: seq<Source>, l: nat, k: nat)
    ensures IsRun(run, Literal) && l != k
    ensures l in run[|run| - 1].leases && k in run[|run| - 1].leases
    ensures run[|run| - 1].leases[l] == run[|run| - 1].leases[k]
  {
    var start := Streaming();
    var s4, s5 := TakeSlotZero(start[3]);
    var s6, s7 := TakeSlotZero(s5);
    hide Step, Dequeue, Wrap, SlotZeroReady;
    TakingIsSteps(start[3], s4, s5);
    TakingIsSteps(s5, s6, s7);
    ExtendRun(start, s4);
    ExtendRun(start + [s4], s5);
    ExtendRun(start + [s4] + [s5], s6);
    ExtendRun(start + [s4] + [s5] + [s6], s7);
    hide IsRun;
    run := start + [s4] + [s5] + [s6] + [s7];
    l, k := start[3].next, s5.next;
  }

  // ---- pools of earlier generations ---------------------------------------------------------

  /** A pool the source has let go of: closed, stopped, or lost with its device. */
  predicate LetGo(s: Source, p: nat) {
    p in s.pools && s.poolRef != Some(p)
  }

  /** The only step that may still touch a pool that was let go of is the last release of one of
      its own frames; so an old frame never hands a slot to a newer pool. */
  ghost predicate OwnReleaseOnly(s: Source, s': Source, p: nat)
    requires p in s.pools
  {
    p in s'.pools && (s'.pools[p] == s.pools[p] || exists l, ok :: LastReleaseOf(s, s', l, ok, p))
  }

  predicate LastReleaseOf(s: Source, s': Source, l: nat, ok: bool, p: nat) {
    l in s.leases && s.leases[l].pool == p && s.leases[l].copies == 1 && l !in s'.leases && DropFrame(s, s', l, ok)
  }

  lemma DropTouchesOwnPool(s: Source, s': Source, l: nat, ok: bool, p: nat)
    requires DropFrame(s, s', l, ok) && p in s.pools
    ensures p in s'.pools && s'.poolRef == s.poolRef
    ensures s'.pools[p] != s.pools[p] ==> LastReleaseOf(s, s', l, ok, p)
    ensures forall k :: k in s'.leases ==> k in s.leases && s'.leases[k].pool == s.leases[k].pool
  {
  }

  lemma WrapTouchesCurrentPool(s: Source, s': Source, v: Variant, ok: bool, p: nat)
    requires Linked(s) && LetGo(s, p) && Wrap(s, s', v, ok)
    ensures p in s'.pools && s'.poolRef == s.poolRef && s'.pools[p] == s.pools[p]
  {
    hide Requeue, PoolLinked, LeaseLinked;
    var w := Wrapped(s, s.loop.pool, s.loop.index);
    if v.Literal? {
      RequeueChangesOnlyTheQueue(w, s.loop.pool, s.loop.index, ok);
    }
  }

  lemma QuietTouchesCurrentPool(s: Source, s': Source, p: nat)
    requires Linked(s) && LetGo(s, p)
    requires
      || OpenDevice(s, s') || ResetDev(s, s') || ResetPool(s, s') || OpenDecoder(s, s')
      || CloseDecoder(s, s') || StartLoop(s, s') || ExitLoop(s, s')
      || LoseDevice(s, s') || Recovered(s, s') || (exists l :: CopyFrame(s, s', l))
      || (exists i :: Dequeue(s, s', i)) || (exists ok :: DecodeAndRequeue(s, s', ok))
      || (exists n, taken :: SetupPool(s, s', n, taken))
    ensures LetGo(s', p) && s'.pools[p] == s.pools[p]
  {
    NoLeaseOnNewPool(s);
    hide Requeue, PoolLinked, LeaseLinked, LeasesOf, Range, DecodeAndRequeue, Dequeue;
    if ok :| DecodeAndRequeue(s, s', ok) {
      DecodeTouchesCurrentPool(s, s', p, ok);
    } else if i :| Dequeue(s, s', i) {
      DequeueTouchesCurrentPool(s, s', p, i);
    }
  }

  lemma DecodeTouchesCurrentPool(s: Source, s': Source, p: nat, ok: bool)
    requires Linked(s) && LetGo(s, p) && DecodeAndRequeue(s, s', ok)
    ensures LetGo(s', p) && s'.pools[p] == s.pools[p]
  {
    hide Requeue, PoolLinked, LeaseLinked;
    RequeueChangesOnlyTheQueue(s, s.loop.pool, s.loop.index, ok);
  }

  lemma DequeueTouchesCurrentPool(s: Source, s': Source, p: nat, i: nat)
    requires LetGo(s, p) && Dequeue(s, s', i)
    ensures LetGo(s', p) && s'.pools[p] == s.pools[p]
  {
  }

  lemma StepKeepsLetGo(s: Source, s': Source, v: Variant, p: nat)
    requires Linked(s) && LetGo(s, p) && Step(s, s', v)
    ensures LetGo(s', p) && OwnReleaseOnly(s, s', p)
  {
    hide Linked, DropFrame, Wrap, DecodeAndRequeue, Dequeue, SetupPool, OpenDevice, ResetDev, ResetPool, CopyFrame;
    if ok :| Wrap(s, s', v, ok) {
      WrapTouchesCurrentPool(s, s', v, ok, p);
    } else if l, ok :| DropFrame(s, s', l, ok) {
      DropTouchesOwnPool(s, s', l, ok, p);
    } else {
      QuietTouchesCurrentPool(s, s', p);
    }
  }

  /** Once a pool is let go of it is never current again, and from then on each step of the run
      leaves it alone unless the step is the last release of one of its own frames. */
  lemma {:induction false} OldPoolsOnlySeeTheirOwnFrames(run: seq<Source>, v: Variant, i: nat, j: nat, p: nat)
    requires IsRun(run, v) && i <= j < |run| - 1 && LetGo(run[i], p)
    ensures LetGo(run[j], p) && LetGo(run[j + 1], p) && OwnReleaseOnly(run[j], run[j + 1], p)
    decreases j - i
  {
    hide Step, OwnReleaseOnly;
    if i < j {
      OldPoolsOnlySeeTheirOwnFrames(run, v, i, j - 1, p);
      assert run[(j - 1) + 1] == run[j];
    }
    RunCounts(run, v, j);
    StepKeepsLetGo(run[j], run[j + 1], v, p);
  }

  // ---- recovery counters ------------------------------------------------------------------

  /** Completed recoveries: the loop went from recovering back to polling. */
  function Recoveries(run: seq<Source>, i: nat, j: nat): nat
    requires i <= j < |run|
    decreases j - i
  {
    if i == j then 0
    else Recoveries(run, i, j - 1) + One(run[j - 1].loop.Recovering? && run[j].loop.Polling?)
  }

  predicate Published(s: Source) {
    s.statGeneration == s.generation
  }

  lemma StepKeepsPublished(s: Source, s': Source, v: Variant)
    requires Published(s) && Step(s, s', v)
    ensures Published(s')
    ensures s'.generation == s.generation + One(s.loop.Recovering? && s'.loop.Polling?)
    ensures s.deviceLost && !s'.deviceLost ==> s.loop.Recovering? && s'.loop.Polling?
  {
    hide Wrap, DecodeAndRequeue, DropFrame, ResetPool, ResetDev, SetupPool, Dequeue, OpenDevice, CopyFrame;
    if ok :| Wrap(s, s', v, ok) {
      WrapKeepsCounters(s, s', v, ok);
    } else if ok :| DecodeAndRequeue(s, s', ok) {
      DecodeKeepsCounters(s, s', ok);
    } else if l, ok :| DropFrame(s, s', l, ok) {
      DropKeepsCounters(s, s', l, ok);
    } else if ResetPool(s, s') {
      ResetPoolKeepsCounters(s, s');
    } else if ResetDev(s, s') {
      ResetDevKeepsCounters(s, s');
    } else {
      QuietKeepsCounters(s, s');
    }
  }

  lemma DecodeKeepsCounters(s: Source, s': Source, ok: bool)
    requires DecodeAndRequeue(s, s', ok)
    ensures SameCounters(s, s') && s.loop.Holding?
  {
  }

  lemma ResetPoolKeepsCounters(s: Source, s': Source)
    requires ResetPool(s, s')
    ensures SameCounters(s, s') && s'.loop == s.loop
  {
    hide ReleasePool;
    ReleaseKeepsCounters(s, s.poolRef.value);
  }

  lemma ResetDevKeepsCounters(s: Source, s': Source)
    requires ResetDev(s, s')
    ensures SameCounters(s, s') && s'.loop == s.loop
  {
  }

  lemma QuietKeepsCounters(s: Source, s': Source)
    requires
      || OpenDevice(s, s') || OpenDecoder(s, s') || CloseDecoder(s, s') || StartLoop(s, s') || ExitLoop(s, s')
      || LoseDevice(s, s') || Recovered(s, s')
      || (exists l :: CopyFrame(s, s', l)) || (exists i :: Dequeue(s, s', i))
      || (exists n, taken :: SetupPool(s, s', n, taken))
    requires Published(s)
    ensures Published(s') && s'.generation == s.generation + One(s.loop.Recovering? && s'.loop.Polling?)
    ensures s.deviceLost && !s'.deviceLost ==> s.loop.Recovering? && s'.loop.Polling?
  {
  }

  predicate SameCounters(s: Source, s': Source) {
    s'.generation == s.generation && s'.statGeneration == s.statGeneration && s'.deviceLost == s.deviceLost
    && s'.decoder == s.decoder
  }

  lemma WrapKeepsCounters(s: Source, s': Source, v: Variant, ok: bool)
    requires Wrap(s, s', v, ok)
    ensures SameCounters(s, s') && s.loop.Holding?
  {
  }

  lemma DropKeepsCounters(s: Source, s': Source, l: nat, ok: bool)
    requires DropFrame(s, s', l, ok)
    ensures SameCounters(s, s') && s'.loop == s.loop
  {
  }

  lemma ReleaseKeepsCounters(s: Source, p: nat)
    requires CanRelease(s, p)
    ensures SameCounters(s, ReleasePool(s, p)) && ReleasePool(s, p).loop == s.loop
  {
  }

  lemma {:induction false} RunIsPublished(run: seq<Source>, v: Variant, n: nat)
    requires IsRun(run, v) && n < |run|
    ensures Published(run[n])
  {
    hide Step;
    if n > 0 {
      RunIsPublished(run, v, n - 1);
      StepKeepsPublished(run[n - 1], run[n], v);
    }
  }

  /** Between any two looks at the statistics, the published generation grew by exactly the
      number of completed recoveries; and an observer that saw the device lost and later sees it
      back also sees a larger generation, so the controls are rebuilt. */
  lemma {:induction false} GenerationCountsRecoveries(run: seq<Source>, v: Variant, i: nat, j: nat)
    requires IsRun(run, v) && i <= j < |run|
    ensures run[j].statGeneration == run[i].statGeneration + Recoveries(run, i, j)
    ensures run[i].deviceLost && !run[j].deviceLost ==> run[j].statGeneration > run[i].statGeneration
    decreases j - i
  {
    hide Step;
    if i < j {
      GenerationCountsRecoveries(run, v, i, j - 1);
      RunIsPublished(run, v, j - 1);
      StepKeepsPublished(run[j - 1], run[j], v);
    }
  }
}
