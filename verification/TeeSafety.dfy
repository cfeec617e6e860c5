/** Safety of the frame tee over every interleaving of the render thread with the producers. */
module TeeSafety {
  import opened VideoFrames
  import opened TeeProtocol
  import opened SessionPrograms

  /** Where a producer is inside EmitFrame: between frames, holding the sink pointer it just
      loaded, inside the fanout's lock about to call sink k, or finished. */
  datatype Producer = Idle | Loaded(f: nat) | Calling(f: nat, k: nat) | Exited

  /** `todo` is what remains of the render thread's current operation; `locks` says which
      producer holds the mutex of which fanout; `stopped` are the sinks whose Stop was called, and
      `ended` says that the process is gone. */
  datatype World = World(
    app: App, todo: seq<Action>, producers: map<nat, Producer>, locks: map<nat, nat>,
    stopped: set<nat>, ended: bool)

  // ---- steps -------------------------------------------------------------------------

  ghost predicate BeginOperation(w: World, w': World, op: Operation) {
    && !w.ended && |w.todo| == 0
    && MayCall(op, w.app)
    && w' == w.(todo := Program(op, w.app))
  }

  /** Add and Remove wait for the fanout's mutex; the join waits for the thread. */
  predicate Enabled(a: Action, w: World) {
    match a
    case AddSink(f, _) => f !in w.locks
    case RemoveSink(f, _) => f !in w.locks
    case JoinThread(s) => s in w.producers && w.producers[s].Exited?
    case _ => true
  }

  function StoppedAfter(w: World, a: Action): set<nat> {
    if a.StopSink? && a.i < |w.app.sessions| && SinkIn(w.app.sessions[a.i], a.slot).Some?
    then w.stopped + {SinkIn(w.app.sessions[a.i], a.slot).value} else w.stopped
  }

  /** The render thread's next action. That it is Allowed is no restriction on the runs: it is
      proved below to hold whenever an action is due. */
  ghost predicate RenderStep(w: World, w': World) {
    && !w.ended && |w.todo| > 0 && Allowed(w.todo[0], w.app) && Enabled(w.todo[0], w)
    && w' == if Fatal(w.todo[0], w.app) then w.(ended := true)
       else World(
         Apply(w.todo[0], w.app), w.todo[1..],
         if w.todo[0].AdoptSource? then w.producers[w.app.nextObject := Idle] else w.producers,
         w.locks, StoppedAfter(w, w.todo[0]), false)
  }

  /** A recorder's writer finds that it cannot build a pipeline and leaves. Once Stop was called
      this no longer matters: Stop joins the writer however it left. */
  ghost predicate PipelineFails(w: World, w': World, x: nat) {
    && !w.ended && x !in w.stopped
    && (exists i :: 0 <= i < |w.app.sessions| && w.app.sessions[i].recorder == Some(x))
    && w' == w.(app := w.app.(failed := w.app.failed + {x}))
  }

  /** EmitFrame loads the atomic sink pointer of its own source object. */
  predicate Load(w: World, w': World, s: nat) {
    && s in w.producers && w.producers[s].Idle?
    && s in w.app.sources && w.app.sources[s].tee.Some?
    && w' == w.(producers := w.producers[s := Loaded(w.app.sources[s].tee.value)])
  }

  predicate Lock(w: World, w': World, s: nat) {
    && s in w.producers && w.producers[s].Loaded?
    && var f := w.producers[s].f;
       f !in w.locks
       && w' == w.(producers := w.producers[s := Calling(f, 0)], locks := w.locks[f := s])
  }

  /** One virtual call into the next sink of the locked fanout. */
  predicate CallSink(w: World, w': World, s: nat) {
    && s in w.producers && w.producers[s].Calling?
    && var f, k := w.producers[s].f, w.producers[s].k;
       f in w.app.fanouts && k < |w.app.fanouts[f]|
       && w' == w.(producers := w.producers[s := Calling(f, k + 1)])
  }

  predicate Unlock(w: World, w': World, s: nat) {
    && s in w.producers && w.producers[s].Calling?
    && var f, k := w.producers[s].f, w.producers[s].k;
       f in w.app.fanouts && k >= |w.app.fanouts[f]|
       && w' == w.(producers := w.producers[s := Idle], locks := w.locks - {f})
  }

  /** The capture loop ends: stopped, or given up on its own. */
  predicate Exit(w: World, w': World, s: nat) {
    && s in w.producers && w.producers[s].Idle?
    && w' == w.(producers := w.producers[s := Exited])
  }

  ghost predicate ProducerStep(w: World, w': World, s: nat) {
    !w.ended && (Load(w, w', s) || Lock(w, w', s) || CallSink(w, w', s) || Unlock(w, w', s) || Exit(w, w', s))
  }

  ghost predicate Step(w: World, w': World) {
    || (exists op :: BeginOperation(w, w', op))
    || RenderStep(w, w')
    || (exists s :: ProducerStep(w, w', s))
    || (exists x :: PipelineFails(w, w', x))
  }

  ghost predicate IsRun(run: seq<World>) {
    && |run| > 0
    && run[0] == World(EMPTY_APP, [], map[], map[], {}, false)
    && forall i :: 0 <= i < |run| - 1 ==> Step(run[i], run[i + 1])
  }

  // ---- safety --------------------------------------------------------------------------

  /** A producer that still runs has its own source object; the fanout it is about to lock or
      has locked is alive; and the sink it is about to call is alive. */
  ghost predicate NoDanglingCall(w: World) {
    forall s :: s in w.producers ==>
      match w.producers[s]
      case Idle => s in w.app.sources
      case Loaded(f) => s in w.app.sources && f in w.app.fanouts
      case Calling(f, k) =>
        s in w.app.sources && f in w.app.fanouts
        && (k < |w.app.fanouts[f]| ==> w.app.fanouts[f][k] in w.app.sinks)
      case Exited => true
  }

  /** The render thread never gets stuck on an action that is not allowed. */
  ghost predicate RenderMayProceed(w: World) {
    |w.todo| > 0 ==> Allowed(w.todo[0], w.app)
  }

  ghost predicate ProducerOk(w: World, s: nat)
    requires s in w.producers
  {
    match w.producers[s]
    case Exited => true
    case Idle => s in w.app.sources && !w.app.sources[s].joined
    case Loaded(f) => s in w.app.sources && !w.app.sources[s].joined && f == w.app.sources[s].owner
    case Calling(f, _) =>
      s in w.app.sources && !w.app.sources[s].joined && f == w.app.sources[s].owner
      && f in w.locks && w.locks[f] == s
  }

  ghost predicate Inv(w: World) {
    && WellLinked(w.app)
    && Completes(w.todo, w.app)
    && (forall s :: s in w.producers ==> s < w.app.nextObject && ProducerOk(w, s))
    && (forall f :: f in w.locks ==>
         w.locks[f] in w.producers && w.producers[w.locks[f]].Calling? && w.producers[w.locks[f]].f == f)
    && (w.ended ==> |w.todo| > 0 && Fatal(w.todo[0], w.app))
  }

  lemma InvIsSafe(w: World)
    requires Inv(w)
    ensures NoDanglingCall(w) && RenderMayProceed(w)
    ensures |w.todo| == 0 ==> Quiescent(w.app)
  {
    hide Quiescent;
    forall s | s in w.producers && w.producers[s].Calling? && s in w.app.sources
      ensures var f, k := w.producers[s].f, w.producers[s].k;
        f in w.app.fanouts && (k < |w.app.fanouts[f]| ==> w.app.fanouts[f][k] in w.app.sinks)
    {
      assert ProducerOk(w, s);
    }
  }

  lemma BeginKeepsInv(w: World, w': World, op: Operation)
    requires Inv(w) && BeginOperation(w, w', op)
    ensures Inv(w')
  {
    hide Quiescent, Allowed, Program, WellLinked, MayCall;
    assert Quiescent(w.app);
    OperationCompletes(op, w.app);
    forall s | s in w'.producers
      ensures ProducerOk(w', s)
    {
      assert ProducerOk(w, s);
    }
  }

  /** The sources an action leaves behind for the producers that are still running. */
  lemma RunningSourcesStay(w: World, w': World, s: nat)
    requires Inv(w) && RenderStep(w, w') && s in w.producers && !w'.ended
    ensures s in w'.producers && w'.producers[s] == w.producers[s]
    ensures ProducerOk(w', s)
  {
    hide Quiescent, AllAllowed, Exec;
    assert ProducerOk(w, s);
  }

  lemma RenderKeepsInv(w: World, w': World)
    requires Inv(w) && RenderStep(w, w')
    ensures Inv(w')
  {
    if w'.ended {
      EndedKeepsInv(w, w');
      return;
    }
    hide Quiescent, Allowed, Apply, ProducerOk;
    ApplyKeepsLinks(w.todo[0], w.app);
    assert Completes(w.todo[1..], Apply(w.todo[0], w.app));
    NewProducerOk(w, w');
    forall s | s in w'.producers
      ensures s < w'.app.nextObject && ProducerOk(w', s)
    {
      if s in w.producers {
        RunningSourcesStay(w, w', s);
      }
    }
    forall f | f in w'.locks
      ensures w'.locks[f] in w'.producers && w'.producers[w'.locks[f]] == w.producers[w.locks[f]]
    {
      RunningSourcesStay(w, w', w.locks[f]);
    }
  }

  lemma EndedKeepsInv(w: World, w': World)
    requires Inv(w) && RenderStep(w, w') && w'.ended
    ensures Inv(w')
  {
    hide Completes, WellLinked, Allowed, Apply;
    forall s | s in w'.producers
      ensures ProducerOk(w', s)
    {
      assert ProducerOk(w, s);
    }
  }

  lemma NewProducerOk(w: World, w': World)
    requires Inv(w) && RenderStep(w, w') && !w'.ended
    ensures w.app.nextObject <= w'.app.nextObject
    ensures w.todo[0].AdoptSource? ==>
      w.app.nextObject < w'.app.nextObject && w.app.nextObject in w'.producers && ProducerOk(w', w.app.nextObject)
  {
    hide Quiescent, AllAllowed, Exec, WellLinked;
  }

  /** A tee pointer only ever names the fanout of the source's own session. */
  lemma TeeIsOwn(p: App, s: nat)
    requires WellLinked(p) && s in p.sources && p.sources[s].tee.Some?
    ensures p.sources[s].tee.value == p.sources[s].owner
  {
  }

  lemma ProducerKeepsInv(w: World, w': World, s: nat)
    requires Inv(w) && ProducerStep(w, w', s)
    ensures Inv(w')
  {
    hide Completes, WellLinked;
    assert ProducerOk(w, s);
    if Load(w, w', s) {
      TeeIsOwn(w.app, s);
    }
    forall t | t in w'.producers
      ensures ProducerOk(w', t)
    {
      assert ProducerOk(w, t);
    }
  }

  /** Which recorders failed makes no difference to what the programs do. */
  lemma {:induction false} FailedCommutes(prog: seq<Action>, p: App, failed: set<nat>)
    requires AllAllowed(prog, p)
    ensures AllAllowed(prog, p.(failed := failed))
    ensures Exec(prog, p.(failed := failed)) == Exec(prog, p).(failed := failed)
  {
    if |prog| > 0 {
      ActionCommutes(prog[0], p, failed);
      hide Allowed, Apply;
      FailedCommutes(prog[1..], Apply(prog[0], p), failed);
    }
  }

  lemma ActionCommutes(a: Action, p: App, failed: set<nat>)
    requires Allowed(a, p)
    ensures Allowed(a, p.(failed := failed))
    ensures Apply(a, p.(failed := failed)) == Apply(a, p).(failed := failed)
  {
  }

  lemma QuiescentCommutes(p: App, failed: set<nat>)
    requires Quiescent(p)
    ensures Quiescent(p.(failed := failed))
  {
    var q := p.(failed := failed);
    forall i | 0 <= i < |q.sessions|
      ensures SessionOk(q, q.sessions[i])
    {
      assert SessionOk(p, p.sessions[i]);
    }
  }

  lemma CompletesCommutes(prog: seq<Action>, p: App, failed: set<nat>)
    requires Completes(prog, p)
    ensures Completes(prog, p.(failed := failed))
  {
    hide Quiescent, AllAllowed, Exec;
    FailedCommutes(prog, p, failed);
    QuiescentCommutes(Exec(prog, p), failed);
  }

  lemma LinksCommute(p: App, failed: set<nat>)
    requires WellLinked(p)
    ensures WellLinked(p.(failed := failed))
  {
  }

  lemma FailureKeepsInv(w: World, w': World, x: nat)
    requires Inv(w) && PipelineFails(w, w', x)
    ensures Inv(w')
  {
    CompletesCommutes(w.todo, w.app, w'.app.failed);
    LinksCommute(w.app, w'.app.failed);
    hide Completes, WellLinked;
    forall s | s in w'.producers
      ensures ProducerOk(w', s)
    {
      assert ProducerOk(w, s);
    }
  }

  lemma StepKeepsInv(w: World, w': World)
    requires Inv(w) && Step(w, w')
    ensures Inv(w')
  {
    hide Inv, RenderStep, ProducerStep, BeginOperation, PipelineFails;
    if exists op :: BeginOperation(w, w', op) {
      var op :| BeginOperation(w, w', op);
      BeginKeepsInv(w, w', op);
    } else if RenderStep(w, w') {
      RenderKeepsInv(w, w');
    } else if s :| ProducerStep(w, w', s) {
      ProducerKeepsInv(w, w', s);
    } else {
      var x :| PipelineFails(w, w', x);
      FailureKeepsInv(w, w', x);
    }
  }

  lemma InitialInv(w: World)
    requires w.app == EMPTY_APP && |w.todo| == 0 && w.producers == map[] && w.locks == map[] && !w.ended
    ensures Inv(w)
  {
  }

  lemma {:induction false} RunInv(run: seq<World>, n: nat)
    requires IsRun(run) && n < |run|
    ensures Inv(run[n])
  {
    hide Inv, Step;
    if n == 0 {
      InitialInv(run[0]);
    } else {
      RunInv(run, n - 1);
      StepKeepsInv(run[n - 1], run[n]);
    }
  }

  /** In every state of every run: no producer calls into a destroyed sink, fanout or source, and
      between operations the session manager's invariant holds. If the process has ended, then at the
      reset of a failed recorder. */
  lemma TeeIsSafe(run: seq<World>, n: nat)
    requires IsRun(run) && n < |run|
    ensures NoDanglingCall(run[n]) && RenderMayProceed(run[n])
    ensures |run[n].todo| == 0 ==> Quiescent(run[n].app)
    ensures run[n].ended ==> |run[n].todo| > 0 && Fatal(run[n].todo[0], run[n].app)
  {
    RunInv(run, n);
    InvIsSafe(run[n]);
  }

  // ---- why the order of the steps matters ------------------------------------------------

  /** From its loop the producer comes to call sink j of its fanout. */
  lemma {:induction false} ProducerReaches(w: World, s: nat, f: nat, j: nat) returns (run: seq<World>)
    requires !w.ended && s in w.producers && w.producers[s].Idle? && s in w.app.sources
    requires w.app.sources[s].tee == Some(f) && f !in w.locks && f in w.app.fanouts && j < |w.app.fanouts[f]|
    ensures |run| > 0 && run[0] == w && forall k :: 0 <= k < |run| - 1 ==> ProducerStep(run[k], run[k + 1], s)
    ensures run[|run| - 1] == w.(producers := w.producers[s := Calling(f, j)], locks := w.locks[f := s])
  {
    if j == 0 {
      var loaded := w.(producers := w.producers[s := Loaded(f)]);
      assert Load(w, loaded, s);
      var calling := w.(producers := w.producers[s := Calling(f, 0)], locks := w.locks[f := s]);
      assert loaded.producers[s := Calling(f, 0)] == calling.producers;
      assert Lock(loaded, calling, s);
      run := [w, loaded, calling];
    } else {
      run := ProducerReaches(w, s, f, j - 1);
      var last := run[|run| - 1];
      var next := w.(producers := w.producers[s := Calling(f, j)], locks := w.locks[f := s]);
      assert last.producers[s := Calling(f, j)] == next.producers;
      assert CallSink(last, next, s);
      run := run + [next];
    }
  }

  ghost predicate BetweenFrames(w: World, i: nat) {
    && i < |w.app.sessions| && w.app.sessions[i].source.Some?
    && w.app.sessions[i].source.value in w.producers && w.producers[w.app.sessions[i].source.value].Idle?
    && w.app.sessions[i].id !in w.locks
  }

  /** Detach first: were a sink destroyed while it is attached, its producer could be just about to
      call it. */
  lemma DetachIsNeeded(w: World, i: nat, slot: Slot) returns (run: seq<World>)
    requires Inv(w) && !w.ended && |w.todo| == 0 && BetweenFrames(w, i)
    requires SinkIn(w.app.sessions[i], slot).Some?
    ensures |run| > 0 && run[0] == w
    ensures forall k :: 0 <= k < |run| - 1 ==> ProducerStep(run[k], run[k + 1], w.app.sessions[i].source.value)
    ensures var last, x := run[|run| - 1], SinkIn(w.app.sessions[i], slot).value;
      last.app == w.app && !NoDanglingCall(last.(app := w.app.(sinks := w.app.sinks - {x})))
  {
    var s, x := w.app.sessions[i], SinkIn(w.app.sessions[i], slot).value;
    assert SessionOk(w.app, s);
    var j :| 0 <= j < |w.app.fanouts[s.id]| && w.app.fanouts[s.id][j] == x;
    run := ProducerReaches(w, s.source.value, s.id, j);
    hide Inv, SessionOk, ProducerStep;
    var last := run[|run| - 1];
    assert last.producers[s.source.value] == Calling(s.id, j);
  }

  /** Join first: were the source destroyed while its thread runs, the thread would use it; were the
      session erased, the thread could be about to lock its fanout. */
  lemma JoinIsNeeded(w: World, i: nat)
    requires Inv(w) && !w.ended && |w.todo| == 0 && BetweenFrames(w, i)
    ensures var s := w.app.sessions[i];
      !NoDanglingCall(w.(app := w.app.(sources := w.app.sources - {s.source.value})))
    ensures var s := w.app.sessions[i];
      s.source.value in w.app.sources
      && (w.app.sources[s.source.value].tee.Some? ==>
            var loaded := w.(producers := w.producers[s.source.value := Loaded(s.id)]);
            && ProducerStep(w, loaded, s.source.value)
            && !NoDanglingCall(loaded.(app := w.app.(fanouts := w.app.fanouts - {s.id}))))
  {
    var s := w.app.sessions[i];
    var src := s.source.value;
    assert SessionOk(w.app, s);
    if w.app.sources[src].tee.Some? {
      TeeIsOwn(w.app, src);
      var loaded := w.(producers := w.producers[src := Loaded(s.id)]);
      assert Load(w, loaded, src);
      assert loaded.producers[src] == Loaded(s.id);
    }
  }
}
