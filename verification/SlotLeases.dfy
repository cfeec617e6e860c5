/** Zero-copy capture: buffer pools, slot leases and shared ownership, across hot-plug
    recoveries and stops.

    Two variants of wrapping a raw frame are modelled. Intended: the lease hands its slot back
    once, when its last frame copy is released. Literal: the lease is copied from a temporary
    whose destructor also hands the slot back, at once. */
module SlotLeases {
  import opened VideoFrames

  datatype Variant = Intended | Literal

  datatype Device = Device(refs: nat, open: bool)

  /** `refs` counts the shared owners; memory stays mapped until it reaches zero. `queued` are
      the slots the kernel may fill; `lost` those whose hand-back the driver did not take.
      `dequeues` and `requeues` count, per slot, what was taken from and given to the driver. */
  datatype Pool = Pool(
    dev: nat, slots: nat, refs: nat, mapped: bool,
    queued: set<nat>, lost: set<nat>, dequeues: seq<nat>, requeues: seq<nat>)

  /** The shared lease behind all copies of one frame. */
  datatype Lease = Lease(pool: nat, index: nat, copies: nat)

  datatype Loop = Stopped | Polling | Holding(pool: nat, index: nat) | Recovering

  /** `devRef` and `poolRef` are the source's own references. `decoder` says whether frames go
      through the compressed branch. */
  datatype Source = Source(
    devs: map<nat, Device>, pools: map<nat, Pool>, leases: map<nat, Lease>,
    devRef: Option<nat>, poolRef: Option<nat>, loop: Loop,
    generation: nat, statGeneration: nat, deviceLost: bool,
    decoder: bool, next: nat)

  const NEW_SOURCE := Source(map[], map[], map[], None, None, Stopped, 0, 0, false, false, 0)

  // ---- shared ownership ----------------------------------------------------------------

  /** Drop one reference to a device; the last one closes the descriptor. */
  function ReleaseDev(s: Source, d: nat): Source
    requires d in s.devs && s.devs[d].refs > 0
  {
    s.(devs := s.devs[d := Device(s.devs[d].refs - 1, s.devs[d].open && s.devs[d].refs > 1)])
  }

  function TakeDev(s: Source, d: nat): Source
    requires d in s.devs
  {
    s.(devs := s.devs[d := s.devs[d].(refs := s.devs[d].refs + 1)])
  }

  /** Drop one reference to a pool; the last one unmaps the slots and drops the device. */
  function ReleasePool(s: Source, p: nat): Source
    requires p in s.pools && s.pools[p].refs > 0
    requires s.pools[p].dev in s.devs && s.devs[s.pools[p].dev].refs > 0
  {
    var pool := s.pools[p];
    var s' := s.(pools := s.pools[p := pool.(refs := pool.refs - 1, mapped := pool.mapped && pool.refs > 1)]);
    if pool.refs == 1 then ReleaseDev(s', pool.dev) else s'
  }

  /** Hand slot i back to the driver. A slot that is already queued is refused without effect;
      otherwise the driver takes it, or (device gone, ioctl error) it is lost. */
  function Requeue(s: Source, p: nat, i: nat, ok: bool): Source
    requires p in s.pools && i < |s.pools[p].requeues| && s.pools[p].dev in s.devs
  {
    var pool := s.pools[p];
    var counted := pool.(requeues := pool.requeues[i := pool.requeues[i] + 1]);
    s.(pools := s.pools[p :=
      if i in pool.queued then counted
      else if ok && s.devs[pool.dev].open then counted.(queued := pool.queued + {i}, lost := pool.lost - {i})
      else counted.(lost := pool.lost + {i})])
  }

  function Range(n: nat): (r: set<nat>)
    ensures forall i :: i in r <==> 0 <= i < n
  {
    if n == 0 then {} else Range(n - 1) + {n - 1}
  }

  // ---- steps -----------------------------------------------------------------------------

  predicate Idle(s: Source) {
    s.loop.Stopped? || s.loop.Recovering?
  }

  /** Open a device node: at Open, and for each recovery candidate. */
  predicate OpenDevice(s: Source, s': Source) {
    && Idle(s) && s.devRef.None?
    && s' == s.(devs := s.devs[s.next := Device(1, true)], devRef := Some(s.next), next := s.next + 1)
  }

  predicate ResetDev(s: Source, s': Source) {
    && Idle(s) && s.devRef.Some? && s.devRef.value in s.devs && s.devs[s.devRef.value].refs > 0
    && s' == ReleaseDev(s, s.devRef.value).(devRef := None)
  }

  predicate ResetPool(s: Source, s': Source) {
    && Idle(s) && s.poolRef.Some? && CanRelease(s, s.poolRef.value)
    && s' == ReleasePool(s, s.poolRef.value).(poolRef := None)
  }

  predicate CanRelease(s: Source, p: nat) {
    && p in s.pools && s.pools[p].refs > 0
    && s.pools[p].dev in s.devs && s.devs[s.pools[p].dev].refs > 0
  }

  /** SetupBuffers with `n` mapped slots, of which the driver takes `taken` at the first queueing. */
  predicate SetupPool(s: Source, s': Source, n: nat, taken: set<nat>) {
    && Idle(s) && s.devRef.Some? && s.devRef.value in s.devs && s.poolRef.None?
    && n >= 2 && (forall i :: i in taken ==> i < n)
    && s' == TakeDev(s, s.devRef.value).(
         pools := s.pools[s.next := Pool(s.devRef.value, n, 1, true, taken, Range(n) - taken,
                                         seq(n, _ => 0), seq(n, _ => 1))],
         poolRef := Some(s.next), next := s.next + 1)
  }

  /** Start() on a compressed format opens the decoder before the buffers; Stop() drops it. While
      the loop runs it stays as it is, whatever is recovered. */
  predicate OpenDecoder(s: Source, s': Source) {
    s.loop.Stopped? && s' == s.(decoder := true)
  }

  predicate CloseDecoder(s: Source, s': Source) {
    s.loop.Stopped? && s' == s.(decoder := false)
  }

  predicate StartLoop(s: Source, s': Source) {
    s.loop.Stopped? && s.devRef.Some? && s.poolRef.Some? && s' == s.(loop := Polling)
  }

  predicate ExitLoop(s: Source, s': Source) {
    (s.loop.Polling? || s.loop.Recovering?) && s' == s.(loop := Stopped)
  }

  predicate Dequeue(s: Source, s': Source, i: nat) {
    && s.loop.Polling? && s.poolRef.Some? && s.poolRef.value in s.pools
    && var p, pool := s.poolRef.value, s.pools[s.poolRef.value];
       i in pool.queued && i < |pool.dequeues|
       && s' == s.(loop := Holding(p, i),
                   pools := s.pools[p := pool.(queued := pool.queued - {i},
                                               dequeues := pool.dequeues[i := pool.dequeues[i] + 1])])
  }

  /** The lease as its comment describes it. */
  function Wrapped(s: Source, p: nat, i: nat): Source
    requires p in s.pools
  {
    s.(leases := s.leases[s.next := Lease(p, i, 1)],
       pools := s.pools[p := s.pools[p].(refs := s.pools[p].refs + 1)],
       loop := Polling, next := s.next + 1)
  }

  /** Wrap the held slot in a frame: with the temporary's hand-back in the literal variant. */
  predicate Wrap(s: Source, s': Source, v: Variant, ok: bool) {
    && s.loop.Holding? && !s.decoder && s.loop.pool in s.pools
    && var p, i := s.loop.pool, s.loop.index;
       s.pools[p].dev in s.devs && i < |s.pools[p].requeues|
       && s' == if v.Intended? then Wrapped(s, p, i) else Requeue(Wrapped(s, p, i), p, i, ok)
  }

  /** The compressed branch: decode a copy, hand the slot back at once. */
  predicate DecodeAndRequeue(s: Source, s': Source, ok: bool) {
    && s.loop.Holding? && s.decoder && s.loop.pool in s.pools
    && var p, i := s.loop.pool, s.loop.index;
       s.pools[p].dev in s.devs && i < |s.pools[p].requeues|
       && s' == Requeue(s, p, i, ok).(loop := Polling)
  }

  predicate CopyFrame(s: Source, s': Source, l: nat) {
    && l in s.leases
    && s' == s.(leases := s.leases[l := s.leases[l].(copies := s.leases[l].copies + 1)])
  }

  function LeaseGone(s: Source, l: nat): Source {
    s.(leases := s.leases - {l})
  }

  /** Release one frame copy; the last one hands the slot back to the lease's own pool and then
      lets go of that pool. */
  predicate DropFrame(s: Source, s': Source, l: nat, ok: bool) {
    && l in s.leases && s.leases[l].copies > 0
    && var lease := s.leases[l];
       if lease.copies > 1 then s' == s.(leases := s.leases[l := lease.(copies := lease.copies - 1)])
       else
         && CanRelease(s, lease.pool) && lease.index < |s.pools[lease.pool].requeues|
         && s' == ReleasePool(Requeue(LeaseGone(s, l), lease.pool, lease.index, ok), lease.pool)
  }

  predicate LoseDevice(s: Source, s': Source) {
    s.loop.Polling? && s' == s.(loop := Recovering, deviceLost := true)
  }

  /** The stats are published in one critical section. */
  predicate Recovered(s: Source, s': Source) {
    && s.loop.Recovering? && s.devRef.Some? && s.poolRef.Some?
    && s' == s.(loop := Polling, generation := s.generation + 1,
                deviceLost := false, statGeneration := s.generation + 1)
  }

  ghost predicate Step(s: Source, s': Source, v: Variant) {
    || OpenDevice(s, s') || ResetDev(s, s') || ResetPool(s, s')
    || (exists n, taken :: SetupPool(s, s', n, taken))
    || OpenDecoder(s, s') || CloseDecoder(s, s') || StartLoop(s, s') || ExitLoop(s, s')
    || (exists i :: Dequeue(s, s', i))
    || (exists ok :: Wrap(s, s', v, ok))
    || (exists ok :: DecodeAndRequeue(s, s', ok))
    || (exists l :: CopyFrame(s, s', l))
    || (exists l, ok :: DropFrame(s, s', l, ok))
    || LoseDevice(s, s') || Recovered(s, s')
  }

  ghost predicate IsRun(run: seq<Source>, v: Variant) {
    && |run| > 0 && run[0] == NEW_SOURCE
    && forall i :: 0 <= i < |run| - 1 ==> Step(run[i], run[i + 1], v)
  }

  // ---- reference counts -------------------------------------------------------------------

  ghost function LeasesOf(s: Source, p: nat): set<nat> {
    set l | l in s.leases && s.leases[l].pool == p
  }

  ghost function PoolsOn(s: Source, d: nat): set<nat> {
    set p | p in s.pools && s.pools[p].mapped && s.pools[p].dev == d
  }

  function One(b: bool): nat {
    if b then 1 else 0
  }

  /** Pool p's count is its leases plus the source's own reference, plus a reference that is
      about to be dropped if p is `dying`. */
  ghost predicate PoolCounted(s: Source, p: nat, dying: Option<nat>)
    requires p in s.pools
  {
    && s.pools[p].refs == |LeasesOf(s, p)| + One(s.poolRef == Some(p)) + One(dying == Some(p))
    && (s.pools[p].mapped <==> s.pools[p].refs > 0)
  }

  ghost predicate DevCounted(s: Source, d: nat)
    requires d in s.devs
  {
    && s.devs[d].refs == |PoolsOn(s, d)| + One(s.devRef == Some(d))
    && (s.devs[d].open <==> s.devs[d].refs > 0)
  }

  ghost predicate PoolsCounted(s: Source, dying: Option<nat>) {
    forall p :: p in s.pools ==> PoolCounted(s, p, dying)
  }

  ghost predicate DevsCounted(s: Source) {
    forall d :: d in s.devs ==> DevCounted(s, d)
  }

  ghost predicate LeaseLinked(s: Source, l: nat)
    requires l in s.leases
  {
    var lease := s.leases[l];
    lease.pool in s.pools && lease.index < s.pools[lease.pool].slots && lease.copies > 0 && l < s.next
  }

  ghost predicate PoolLinked(s: Source, p: nat)
    requires p in s.pools
  {
    var pool := s.pools[p];
    && pool.dev in s.devs && p < s.next
    && |pool.requeues| == |pool.dequeues| == pool.slots
    && (forall i :: i in pool.queued ==> i < pool.slots)
    && (forall i :: i in pool.lost ==> i < pool.slots)
  }

  ghost predicate LoopLinked(s: Source) {
    && (s.devRef.Some? ==> s.devRef.value in s.devs)
    && (s.poolRef.Some? ==> s.poolRef.value in s.pools)
    && (s.loop.Holding? ==>
          s.poolRef == Some(s.loop.pool) && s.loop.pool in s.pools && s.loop.index < s.pools[s.loop.pool].slots)
  }

  ghost predicate Linked(s: Source) {
    && (forall l :: l in s.leases ==> LeaseLinked(s, l))
    && (forall p :: p in s.pools ==> PoolLinked(s, p))
    && (forall d :: d in s.devs ==> d < s.next)
    && LoopLinked(s)
  }

  ghost predicate Counted(s: Source) {
    Linked(s) && PoolsCounted(s, None) && DevsCounted(s)
  }

  /** Frame memory is never unmapped, nor its descriptor closed, while a frame from the pool is
      alive. */
  ghost predicate FramesBacked(s: Source) {
    forall l :: l in s.leases ==>
      && s.leases[l].pool in s.pools && s.pools[s.leases[l].pool].mapped
      && s.pools[s.leases[l].pool].dev in s.devs && s.devs[s.pools[s.leases[l].pool].dev].open
  }

  lemma CountedIsBacked(s: Source)
    requires Counted(s)
    ensures FramesBacked(s)
  {
    forall l | l in s.leases
      ensures s.leases[l].pool in s.pools && s.pools[s.leases[l].pool].mapped
      ensures s.pools[s.leases[l].pool].dev in s.devs && s.devs[s.pools[s.leases[l].pool].dev].open
    {
      var p := s.leases[l].pool;
      assert LeaseLinked(s, l) && PoolLinked(s, p);
      assert PoolCounted(s, p, None) && l in LeasesOf(s, p);
      assert DevCounted(s, s.pools[p].dev) && p in PoolsOn(s, s.pools[p].dev);
    }
  }

  // ---- every step keeps the counts -----------------------------------------------------------

  /** The same leases on the same pools on the same devices. */
  ghost predicate SamePools(s: Source, s': Source) {
    && s'.pools.Keys == s.pools.Keys
    && forall p :: p in s.pools ==>
         s'.pools[p].refs == s.pools[p].refs && s'.pools[p].mapped == s.pools[p].mapped
         && s'.pools[p].dev == s.pools[p].dev && s'.pools[p].slots == s.pools[p].slots
  }

  ghost predicate SameLeases(s: Source, s': Source) {
    && s'.leases.Keys == s.leases.Keys
    && forall l :: l in s.leases ==> s'.leases[l].pool == s.leases[l].pool && s'.leases[l].index == s.leases[l].index
  }

  lemma SamePoolCounts(s: Source, s': Source, dying: Option<nat>)
    requires PoolsCounted(s, dying) && SamePools(s, s') && SameLeases(s, s') && s'.poolRef == s.poolRef
    ensures PoolsCounted(s', dying)
  {
    forall p | p in s'.pools
      ensures PoolCounted(s', p, dying)
    {
      assert PoolCounted(s, p, dying);
      assert LeasesOf(s', p) == LeasesOf(s, p);
    }
  }

  lemma SameDevCounts(s: Source, s': Source)
    requires DevsCounted(s) && SamePools(s, s') && s'.devs == s.devs && s'.devRef == s.devRef
    ensures DevsCounted(s')
  {
    forall d | d in s'.devs
      ensures DevCounted(s', d)
    {
      assert DevCounted(s, d);
      assert PoolsOn(s', d) == PoolsOn(s, d);
    }
  }

  /** Handing a slot back changes one pool's queue and nothing else. */
  lemma RequeueChangesOnlyTheQueue(s: Source, p: nat, i: nat, ok: bool)
    requires p in s.pools && i < |s.pools[p].requeues| && s.pools[p].dev in s.devs
    ensures var s', pool := Requeue(s, p, i, ok), s.pools[p];
      && s' == s.(pools := s.pools[p := s'.pools[p]])
      && SamePools(s, s')
      && s'.pools[p].queued + s'.pools[p].lost == pool.queued + pool.lost + {i}
      && s'.pools[p].requeues == pool.requeues[i := pool.requeues[i] + 1]
      && s'.pools[p].dequeues == pool.dequeues
  {
  }

  lemma RequeueKeepsLinks(s: Source, p: nat, i: nat, ok: bool)
    requires Linked(s) && p in s.pools && i < s.pools[p].slots
    requires PoolLinked(s, p)
    ensures Linked(Requeue(s, p, i, ok))
  {
    hide Requeue;
    var s' := Requeue(s, p, i, ok);
    RequeueChangesOnlyTheQueue(s, p, i, ok);
    forall q | q in s'.pools
      ensures PoolLinked(s', q)
    {
      assert PoolLinked(s, q);
      if q == p {
        assert forall k :: k in s'.pools[p].queued + s'.pools[p].lost ==>
          k in s.pools[p].queued + s.pools[p].lost + {i};
        assert forall k :: k in s'.pools[p].queued ==> k in s'.pools[p].queued + s'.pools[p].lost;
        assert forall k :: k in s'.pools[p].lost ==> k in s'.pools[p].queued + s'.pools[p].lost;
      }
    }
    forall l | l in s'.leases
      ensures LeaseLinked(s', l)
    {
      assert LeaseLinked(s, l);
    }
  }

  lemma RequeueCounts(s: Source, p: nat, i: nat, ok: bool, dying: Option<nat>)
    requires p in s.pools && i < |s.pools[p].requeues| && s.pools[p].dev in s.devs
    requires PoolsCounted(s, dying) && DevsCounted(s)
    ensures PoolsCounted(Requeue(s, p, i, ok), dying) && DevsCounted(Requeue(s, p, i, ok))
  {
    hide Requeue, PoolsCounted, DevsCounted;
    var s' := Requeue(s, p, i, ok);
    RequeueChangesOnlyTheQueue(s, p, i, ok);
    SamePoolCounts(s, s', dying);
    SameDevCounts(s, s');
  }

  /** Dropping the surplus reference of a dying pool restores the counts. */
  lemma ReleasePoolCountsPools(s: Source, p: nat)
    requires PoolsCounted(s, Some(p)) && CanRelease(s, p)
    ensures PoolsCounted(ReleasePool(s, p), None)
  {
    var s' := ReleasePool(s, p);
    assert PoolCounted(s, p, Some(p));
    forall q | q in s'.pools
      ensures PoolCounted(s', q, None)
    {
      assert PoolCounted(s, q, Some(p));
      assert LeasesOf(s', q) == LeasesOf(s, q);
    }
  }

  lemma ReleasePoolCountsDevs(s: Source, p: nat)
    requires PoolCountedAt(s, p) && DevsCounted(s) && CanRelease(s, p)
    ensures DevsCounted(ReleasePool(s, p))
  {
    hide LeasesOf, ReleasePool, PoolsOn, ReleaseDev;
    forall d | d in ReleasePool(s, p).devs
      ensures DevCounted(ReleasePool(s, p), d)
    {
      ReleasePoolDev(s, p, d);
    }
  }

  lemma ReleasePoolParts(s: Source, p: nat)
    requires CanRelease(s, p)
    ensures var s', pool := ReleasePool(s, p), s.pools[p];
      && s'.pools == s.pools[p := pool.(refs := pool.refs - 1, mapped := pool.mapped && pool.refs > 1)]
      && s'.devs == (if pool.refs > 1 then s.devs else ReleaseDev(s, pool.dev).devs)
      && s'.devRef == s.devRef
  {
  }

  lemma ReleasePoolDev(s: Source, p: nat, d: nat)
    requires PoolCountedAt(s, p) && DevsCounted(s) && CanRelease(s, p) && d in ReleasePool(s, p).devs
    ensures DevCounted(ReleasePool(s, p), d)
  {
    hide ReleasePool;
    ReleasePoolParts(s, p);
    var s' := ReleasePool(s, p);
    assert d in s.devs && DevCounted(s, d);
    if s.pools[p].refs > 1 || d != s.pools[p].dev {
      assert PoolsOn(s', d) == PoolsOn(s, d);
    } else {
      assert p in PoolsOn(s, d);
      assert PoolsOn(s', d) == PoolsOn(s, d) - {p};
    }
  }

  predicate PoolCountedAt(s: Source, p: nat) {
    p in s.pools && (s.pools[p].mapped <==> s.pools[p].refs > 0)
  }

  lemma ReleasePoolKeepsLinks(s: Source, p: nat)
    requires Linked(s) && CanRelease(s, p)
    ensures Linked(ReleasePool(s, p))
  {
    var s' := ReleasePool(s, p);
    forall q | q in s'.pools
      ensures PoolLinked(s', q)
    {
      assert PoolLinked(s, q);
    }
    forall l | l in s'.leases
      ensures LeaseLinked(s', l)
    {
      assert LeaseLinked(s, l);
    }
  }

  /** Anything that leaves pools, leases and the loop alone keeps the links. */
  lemma OtherLinks(s: Source, s': Source)
    requires Linked(s) && s'.pools == s.pools && s'.leases == s.leases && s'.next >= s.next
    requires s.devs.Keys <= s'.devs.Keys && (forall d :: d in s'.devs ==> d < s'.next) && LoopLinked(s')
    ensures Linked(s')
  {
    forall q | q in s'.pools
      ensures PoolLinked(s', q)
    {
      assert PoolLinked(s, q);
    }
    forall l | l in s'.leases
      ensures LeaseLinked(s', l)
    {
      assert LeaseLinked(s, l);
    }
  }

  lemma ResetPoolCounts(s: Source, s': Source)
    requires Counted(s) && ResetPool(s, s')
    ensures Counted(s')
  {
    hide ReleasePool;
    var p, dying := s.poolRef.value, s.(poolRef := None);
    assert PoolLinked(s, p) && PoolCounted(s, p, None);
    forall q | q in dying.pools
      ensures PoolCounted(dying, q, Some(p))
    {
      assert PoolCounted(s, q, None);
      assert LeasesOf(dying, q) == LeasesOf(s, q);
    }
    OtherLinks(s, dying);
    SameDevCounts(s, dying);
    ReleasePoolSwapsRef(s, p);
    ReleasePoolCountsPools(dying, p);
    ReleasePoolCountsDevs(dying, p);
    ReleasePoolKeepsLinks(dying, p);
  }

  lemma ReleasePoolSwapsRef(s: Source, p: nat)
    requires CanRelease(s, p)
    ensures ReleasePool(s, p).(poolRef := None) == ReleasePool(s.(poolRef := None), p)
  {
  }

  lemma ResetDevCounts(s: Source, s': Source)
    requires Counted(s) && ResetDev(s, s')
    ensures Counted(s')
  {
    SamePoolCounts(s, s', None);
    OtherLinks(s, s');
    forall d | d in s'.devs
      ensures DevCounted(s', d)
    {
      assert DevCounted(s, d);
      assert PoolsOn(s', d) == PoolsOn(s, d);
    }
  }

  lemma OpenDeviceCounts(s: Source, s': Source)
    requires Counted(s) && OpenDevice(s, s')
    ensures Counted(s')
  {
    SamePoolCounts(s, s', None);
    OtherLinks(s, s');
    forall d | d in s'.devs
      ensures DevCounted(s', d)
    {
      if d in s.devs {
        assert DevCounted(s, d);
        assert PoolsOn(s', d) == PoolsOn(s, d);
      } else {
        assert forall p :: p in s.pools ==> PoolLinked(s, p);
        assert PoolsOn(s', d) == {};
      }
    }
  }

  lemma SetupPoolCountsPools(s: Source, s': Source, n: nat, taken: set<nat>)
    requires Linked(s) && PoolsCounted(s, None) && SetupPool(s, s', n, taken)
    ensures PoolsCounted(s', None)
  {
    hide PoolLinked, LoopLinked, Range;
    forall q | q in s'.pools
      ensures PoolCounted(s', q, None)
    {
      if q != s.next {
        assert PoolCounted(s, q, None);
        assert LeasesOf(s', q) == LeasesOf(s, q);
      } else {
        assert forall l :: l in s.leases ==> LeaseLinked(s, l);
        NoLeaseOnNewPool(s);
        assert LeasesOf(s', q) == LeasesOf(s, q);
      }
    }
  }

  lemma NoLeaseOnNewPool(s: Source)
    requires Linked(s)
    ensures s.next !in s.pools && s.next !in s.leases && LeasesOf(s, s.next) == {}
  {
    assert s.next in s.pools ==> PoolLinked(s, s.next);
    assert s.next in s.leases ==> LeaseLinked(s, s.next);
    forall l | l in s.leases
      ensures s.leases[l].pool != s.next
    {
      assert LeaseLinked(s, l) && PoolLinked(s, s.leases[l].pool);
    }
  }

  lemma SetupPoolCountsDevs(s: Source, s': Source, n: nat, taken: set<nat>)
    requires s.next !in s.pools && DevsCounted(s) && SetupPool(s, s', n, taken)
    ensures DevsCounted(s')
  {
    hide LeasesOf, Range;
    forall d | d in s'.devs
      ensures DevCounted(s', d)
    {
      assert DevCounted(s, d);
      if d == s.devRef.value {
        assert PoolsOn(s', d) == PoolsOn(s, d) + {s.next};
      } else {
        assert PoolsOn(s', d) == PoolsOn(s, d);
      }
    }
  }

  lemma SetupPoolKeepsLinks(s: Source, s': Source, n: nat, taken: set<nat>)
    requires Linked(s) && SetupPool(s, s', n, taken)
    ensures Linked(s')
  {
    forall q | q in s'.pools
      ensures PoolLinked(s', q)
    {
      if q != s.next {
        assert PoolLinked(s, q);
      }
    }
    forall l | l in s'.leases
      ensures LeaseLinked(s', l)
    {
      assert LeaseLinked(s, l);
      NoLeaseOnNewPool(s);
    }
  }

  lemma SetupPoolCounts(s: Source, s': Source, n: nat, taken: set<nat>)
    requires Counted(s) && SetupPool(s, s', n, taken)
    ensures Counted(s')
  {
    hide Linked, PoolsCounted, DevsCounted, SetupPool;
    NoLeaseOnNewPool(s);
    SetupPoolCountsPools(s, s', n, taken);
    SetupPoolCountsDevs(s, s', n, taken);
    SetupPoolKeepsLinks(s, s', n, taken);
  }

  lemma WrappedCounts(s: Source, p: nat, i: nat)
    requires Counted(s) && p in s.pools && s.pools[p].mapped && i < s.pools[p].slots
    ensures Counted(Wrapped(s, p, i))
  {
    hide PoolsCounted, DevsCounted, Linked;
    WrappedCountsPools(s, p, i);
    WrappedCountsDevs(s, p, i);
    WrappedKeepsLinks(s, p, i);
  }

  lemma WrappedCountsPools(s: Source, p: nat, i: nat)
    requires Linked(s) && PoolsCounted(s, None) && p in s.pools && s.pools[p].mapped
    ensures PoolsCounted(Wrapped(s, p, i), None)
  {
    hide PoolLinked, LoopLinked;
    NoLeaseOnNewPool(s);
    var s' := Wrapped(s, p, i);
    forall q | q in s'.pools
      ensures PoolCounted(s', q, None)
    {
      assert PoolCounted(s, q, None);
      if q == p {
        assert LeasesOf(s', q) == LeasesOf(s, q) + {s.next};
      } else {
        assert LeasesOf(s', q) == LeasesOf(s, q);
      }
    }
  }

  lemma WrappedCountsDevs(s: Source, p: nat, i: nat)
    requires DevsCounted(s) && p in s.pools
    ensures DevsCounted(Wrapped(s, p, i))
  {
    var s' := Wrapped(s, p, i);
    forall d | d in s'.devs
      ensures DevCounted(s', d)
    {
      assert DevCounted(s, d);
      assert PoolsOn(s', d) == PoolsOn(s, d);
    }
  }

  lemma WrappedKeepsLinks(s: Source, p: nat, i: nat)
    requires Linked(s) && p in s.pools && i < s.pools[p].slots
    ensures Linked(Wrapped(s, p, i))
  {
    var s' := Wrapped(s, p, i);
    forall q | q in s'.pools
      ensures PoolLinked(s', q)
    {
      assert PoolLinked(s, q);
    }
    forall l | l in s'.leases
      ensures LeaseLinked(s', l)
    {
      assert l != s.next ==> LeaseLinked(s, l);
    }
  }

  lemma WrapCounts(s: Source, s': Source, v: Variant, ok: bool)
    requires Counted(s) && Wrap(s, s', v, ok)
    ensures Counted(s')
  {
    var p, i := s.loop.pool, s.loop.index;
    assert PoolLinked(s, p) && PoolCounted(s, p, None);
    WrappedIsLinked(s, p, i);
    var w := Wrapped(s, p, i);
    hide PoolsCounted, DevsCounted, Linked, Wrapped, Requeue;
    if v.Literal? {
      RequeueKeepsLinks(w, p, i, ok);
      RequeueCounts(w, p, i, ok, None);
    }
  }

  lemma WrappedIsLinked(s: Source, p: nat, i: nat)
    requires Counted(s) && p in s.pools && s.pools[p].mapped && i < s.pools[p].slots
    ensures Counted(Wrapped(s, p, i)) && p in Wrapped(s, p, i).pools && PoolLinked(Wrapped(s, p, i), p)
    ensures Wrapped(s, p, i).pools[p] == s.pools[p].(refs := s.pools[p].refs + 1)
  {
    hide PoolsCounted, DevsCounted;
    WrappedCounts(s, p, i);
  }

  /** Taking the last copy's lease away leaves its pool one reference too many. */
  lemma LeaseGoneCounts(s: Source, l: nat)
    requires PoolsCounted(s, None) && l in s.leases
    ensures PoolsCounted(LeaseGone(s, l), Some(s.leases[l].pool))
  {
    var s', p := LeaseGone(s, l), s.leases[l].pool;
    forall q | q in s'.pools
      ensures PoolCounted(s', q, Some(p))
    {
      assert PoolCounted(s, q, None);
      if q == p {
        assert LeasesOf(s', q) == LeasesOf(s, q) - {l} && l in LeasesOf(s, q);
      } else {
        assert LeasesOf(s', q) == LeasesOf(s, q);
      }
    }
  }

  lemma LeaseGoneKeepsLinks(s: Source, l: nat)
    requires Linked(s)
    ensures Linked(LeaseGone(s, l))
  {
    var s' := LeaseGone(s, l);
    forall q | q in s'.pools
      ensures PoolLinked(s', q)
    {
      assert PoolLinked(s, q);
    }
    forall k | k in s'.leases
      ensures LeaseLinked(s', k)
    {
      assert LeaseLinked(s, k);
    }
  }

  lemma DropLastCounts(s: Source, l: nat, ok: bool)
    requires Counted(s) && l in s.leases
    requires CanRelease(s, s.leases[l].pool) && s.leases[l].index < |s.pools[s.leases[l].pool].requeues|
    ensures var p := s.leases[l].pool;
      var handed := Requeue(LeaseGone(s, l), p, s.leases[l].index, ok);
      CanRelease(handed, p) && Counted(ReleasePool(handed, p))
  {
    var p, i := s.leases[l].pool, s.leases[l].index;
    var gone := LeaseGone(s, l);
    var handed := Requeue(gone, p, i, ok);
    assert LeaseLinked(s, l) && PoolLinked(s, p);
    LeaseGoneKeepsLinks(s, l);
    LeaseGoneCounts(s, l);
    SameDevCounts(s, gone);
    hide PoolsCounted, DevsCounted, Linked, Requeue, ReleasePool, LeaseGone;
    RequeueAfter(s, l, ok);
    ReleasePoolCountsPools(handed, p);
    ReleasePoolCountsDevs(handed, p);
    ReleasePoolKeepsLinks(handed, p);
  }

  lemma RequeueAfter(s: Source, l: nat, ok: bool)
    requires Counted(s) && l in s.leases && CanRelease(s, s.leases[l].pool)
    requires s.leases[l].index < |s.pools[s.leases[l].pool].requeues|
    requires PoolsCounted(LeaseGone(s, l), Some(s.leases[l].pool)) && DevsCounted(LeaseGone(s, l))
    requires Linked(LeaseGone(s, l))
    ensures var p := s.leases[l].pool;
      var handed := Requeue(LeaseGone(s, l), p, s.leases[l].index, ok);
      && CanRelease(handed, p) && PoolCountedAt(handed, p)
      && Linked(handed) && PoolsCounted(handed, Some(p)) && DevsCounted(handed)
  {
    hide Requeue, PoolsCounted, DevsCounted;
    var p, i := s.leases[l].pool, s.leases[l].index;
    var gone := LeaseGone(s, l);
    assert LeaseLinked(s, l) && PoolLinked(s, p) && PoolLinked(gone, p);
    assert PoolCountedAt(s, p) by {
      PoolCountedHere(s, p);
    }
    RequeueKeepsLinks(gone, p, i, ok);
    RequeueCounts(gone, p, i, ok, Some(p));
    RequeueChangesOnlyTheQueue(gone, p, i, ok);
  }

  lemma PoolCountedHere(s: Source, p: nat)
    requires PoolsCounted(s, None) && p in s.pools
    ensures PoolCountedAt(s, p)
  {
    assert PoolCounted(s, p, None);
  }

  lemma DropFrameCounts(s: Source, s': Source, l: nat, ok: bool)
    requires Counted(s) && DropFrame(s, s', l, ok)
    ensures Counted(s')
  {
    if s.leases[l].copies > 1 {
      CopiesCount(s, s');
    } else {
      hide Counted, Requeue, ReleasePool;
      DropLastCounts(s, l, ok);
    }
  }

  /** Only the number of copies of some lease changed, and it is still positive. */
  lemma CopiesCount(s: Source, s': Source)
    requires Counted(s) && SameLeases(s, s') && s' == s.(leases := s'.leases)
    requires forall l :: l in s'.leases ==> s'.leases[l].copies > 0
    ensures Counted(s')
  {
    SamePoolCounts(s, s', None);
    SameDevCounts(s, s');
    forall q | q in s'.pools
      ensures PoolLinked(s', q)
    {
      assert PoolLinked(s, q);
    }
    forall l | l in s'.leases
      ensures LeaseLinked(s', l)
    {
      assert LeaseLinked(s, l);
    }
  }

  lemma CopyFrameCounts(s: Source, s': Source, l: nat)
    requires Counted(s) && CopyFrame(s, s', l)
    ensures Counted(s')
  {
    forall k | k in s'.leases
      ensures s'.leases[k].copies > 0
    {
      assert LeaseLinked(s, k);
    }
    CopiesCount(s, s');
  }

  lemma DequeueCounts(s: Source, s': Source, i: nat)
    requires Counted(s) && Dequeue(s, s', i)
    ensures Counted(s')
  {
    SamePoolCounts(s, s', None);
    SameDevCounts(s, s');
    DequeueKeepsLinks(s, s', i);
  }

  lemma DequeueKeepsLinks(s: Source, s': Source, i: nat)
    requires Linked(s) && Dequeue(s, s', i)
    ensures Linked(s')
  {
    assert PoolLinked(s, s.poolRef.value);
    forall q | q in s'.pools
      ensures PoolLinked(s', q)
    {
      assert PoolLinked(s, q);
    }
    forall l | l in s'.leases
      ensures LeaseLinked(s', l)
    {
      assert LeaseLinked(s, l);
    }
  }

  lemma DecodeCounts(s: Source, s': Source, ok: bool)
    requires Counted(s) && DecodeAndRequeue(s, s', ok)
    ensures Counted(s')
  {
    var p, i := s.loop.pool, s.loop.index;
    var polling := s.(loop := Polling);
    LoopCounts(s, polling);
    assert PoolLinked(polling, p);
    RequeueIgnoresLoop(s, p, i, ok);
    hide PoolsCounted, DevsCounted, Linked, Requeue;
    RequeueKeepsLinks(polling, p, i, ok);
    RequeueCounts(polling, p, i, ok, None);
  }

  lemma RequeueIgnoresLoop(s: Source, p: nat, i: nat, ok: bool)
    requires p in s.pools && i < |s.pools[p].requeues| && s.pools[p].dev in s.devs
    ensures Requeue(s, p, i, ok).(loop := Polling) == Requeue(s.(loop := Polling), p, i, ok)
  {
  }

  /** Only the loop's phase or the published statistics changed. */
  lemma LoopCounts(s: Source, s': Source)
    requires Counted(s) && !s'.loop.Holding?
    requires s'.devs == s.devs && s'.pools == s.pools && s'.leases == s.leases && s'.next == s.next
    requires s'.devRef == s.devRef && s'.poolRef == s.poolRef
    ensures Counted(s')
  {
    SamePoolCounts(s, s', None);
    SameDevCounts(s, s');
    OtherLinks(s, s');
  }

  lemma StepKeepsCounts(s: Source, s': Source, v: Variant)
    requires Counted(s) && Step(s, s', v)
    ensures Counted(s')
  {
    hide Counted, OpenDevice, ResetDev, ResetPool, SetupPool, Dequeue, Wrap, DecodeAndRequeue, CopyFrame, DropFrame;
    if OpenDevice(s, s') {
      OpenDeviceCounts(s, s');
    } else if ResetDev(s, s') {
      ResetDevCounts(s, s');
    } else if ResetPool(s, s') {
      ResetPoolCounts(s, s');
    } else if n, taken :| SetupPool(s, s', n, taken) {
      SetupPoolCounts(s, s', n, taken);
    } else if i :| Dequeue(s, s', i) {
      DequeueCounts(s, s', i);
    } else if ok :| Wrap(s, s', v, ok) {
      WrapCounts(s, s', v, ok);
    } else if ok :| DecodeAndRequeue(s, s', ok) {
      DecodeCounts(s, s', ok);
    } else if l :| CopyFrame(s, s', l) {
      CopyFrameCounts(s, s', l);
    } else if l, ok :| DropFrame(s, s', l, ok) {
      DropFrameCounts(s, s', l, ok);
    } else {
      LoopCounts(s, s');
    }
  }

  lemma NewSourceCounts(s: Source)
    requires s == NEW_SOURCE
    ensures Counted(s)
  {
  }

  lemma {:induction false} RunCounts(run: seq<Source>, v: Variant, n: nat)
    requires IsRun(run, v) && n < |run|
    ensures Counted(run[n])
  {
    hide Step, Counted;
    if n == 0 {
      NewSourceCounts(run[0]);
    } else {
      RunCounts(run, v, n - 1);
      StepKeepsCounts(run[n - 1], run[n], v);
    }
  }

  /** Unmap safety, for the intended and for the literal lease: in every state of every run,
      whatever was recovered, stopped or closed, each live frame's pool is mapped and its
      descriptor open. */
  lemma FramesStayBacked(run: seq<Source>, v: Variant, n: nat)
    requires IsRun(run, v) && n < |run|
    ensures FramesBacked(run[n])
  {
    hide IsRun;
    RunCounts(run, v, n);
    CountedIsBacked(run[n]);
  }

  /** The converse: memory does not outlive its last user. A pool nobody holds is unmapped, and
      a descriptor neither the source nor a mapped pool holds is closed. */
  lemma NothingLeaks(run: seq<Source>, v: Variant, n: nat)
    requires IsRun(run, v) && n < |run|
    ensures var s := run[n];
      forall p :: p in s.pools && s.poolRef != Some(p) && LeasesOf(s, p) == {} ==> !s.pools[p].mapped
    ensures var s := run[n];
      forall d :: d in s.devs && s.devRef != Some(d) && PoolsOn(s, d) == {} ==> !s.devs[d].open
  {
    hide IsRun;
    RunCounts(run, v, n);
    var s := run[n];
    forall p | p in s.pools && s.poolRef != Some(p) && LeasesOf(s, p) == {}
      ensures !s.pools[p].mapped
    {
      assert PoolCounted(s, p, None);
    }
    forall d | d in s.devs && s.devRef != Some(d) && PoolsOn(s, d) == {}
      ensures !s.devs[d].open
    {
      assert DevCounted(s, d);
    }
  }
}
