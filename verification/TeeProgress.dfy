/** The render thread is never stuck: whatever it waits for, the producers can get out of its way by
    themselves. */
module TeeProgress {
  import opened VideoFrames
  import opened TeeProtocol
  import opened SessionPrograms
  import opened TeeSafety

  ghost predicate ProducersMove(w: World, w': World) {
    exists s :: ProducerStep(w, w', s)
  }

  /** Only producers step, and the shared state and the operation in progress stay as they are. */
  ghost predicate ProducersRun(run: seq<World>) {
    && |run| > 0 && Inv(run[|run| - 1])
    && (forall k :: 0 <= k < |run| - 1 ==> ProducersMove(run[k], run[k + 1]))
  }

  predicate SameWork(w: World, w': World) {
    w'.app == w.app && w'.todo == w.todo && w'.stopped == w.stopped && w'.ended == w.ended
    && w'.producers.Keys == w.producers.Keys
  }

  lemma One(w: World, w': World, s: nat) returns (run: seq<World>)
    requires Inv(w) && ProducerStep(w, w', s)
    ensures run == [w, w'] && ProducersRun(run)
  {
    run := [w, w'];
    assert Step(w, w');
    StepKeepsInv(w, w');
    hide Inv, ProducerStep;
    assert ProducersMove(w, w');
  }

  lemma Then(a: seq<World>, b: seq<World>) returns (run: seq<World>)
    requires ProducersRun(a) && ProducersRun(b) && a[|a| - 1] == b[0]
    ensures ProducersRun(run) && run[0] == a[0] && run[|run| - 1] == b[|b| - 1]
  {
    hide Inv, ProducersMove;
    run := a + b[1..];
    forall k | 0 <= k < |run| - 1
      ensures ProducersMove(run[k], run[k + 1])
    {
      if k >= |a| - 1 {
        assert run[k] == b[k - (|a| - 1)] && run[k + 1] == b[k + 1 - (|a| - 1)];
      }
    }
  }

  lemma CallingIsLinked(w: World, s: nat)
    requires Inv(w) && s in w.producers && w.producers[s].Calling?
    ensures w.producers[s].f in w.app.fanouts && w.producers[s].f in w.locks && w.locks[w.producers[s].f] == s
  {
    InvIsSafe(w);
    assert ProducerOk(w, s);
  }

  lemma NextCall(w: World, s: nat) returns (w': World)
    requires Inv(w) && !w.ended && s in w.producers && w.producers[s].Calling?
    requires w.producers[s].f in w.app.fanouts && w.producers[s].k < |w.app.fanouts[w.producers[s].f]|
    ensures ProducerStep(w, w', s) && SameWork(w, w') && w'.locks == w.locks
    ensures w'.producers == w.producers[s := Calling(w.producers[s].f, w.producers[s].k + 1)]
  {
    hide Inv;
    w' := w.(producers := w.producers[s := Calling(w.producers[s].f, w.producers[s].k + 1)]);
    assert CallSink(w, w', s);
  }

  lemma LastUnlock(w: World, s: nat) returns (w': World)
    requires Inv(w) && !w.ended && s in w.producers && w.producers[s].Calling?
    requires w.producers[s].f in w.app.fanouts && w.producers[s].k >= |w.app.fanouts[w.producers[s].f]|
    ensures ProducerStep(w, w', s) && SameWork(w, w') && w'.locks == w.locks - {w.producers[s].f}
    ensures w'.producers == w.producers[s := Idle]
  {
    hide Inv;
    w' := w.(producers := w.producers[s := Idle], locks := w.locks - {w.producers[s].f});
    assert Unlock(w, w', s);
  }

  function CallsLeft(w: World, s: nat): nat
    requires s in w.producers && w.producers[s].Calling?
  {
    var f, k := w.producers[s].f, w.producers[s].k;
    if f in w.app.fanouts && k < |w.app.fanouts[f]| then |w.app.fanouts[f]| - k else 0
  }

  /** A producer inside the fanout makes its remaining calls and unlocks. */
  lemma {:induction false} FinishCalls(w: World, s: nat) returns (run: seq<World>)
    requires Inv(w) && !w.ended && s in w.producers && w.producers[s].Calling?
    ensures ProducersRun(run) && run[0] == w
    ensures var last := run[|run| - 1];
      SameWork(w, last) && last.producers == w.producers[s := Idle] && last.locks == w.locks - {w.producers[s].f}
    decreases CallsLeft(w, s)
  {
    CallingIsLinked(w, s);
    hide Inv, ProducerStep, ProducersRun;
    if CallsLeft(w, s) > 0 {
      var w' := NextCall(w, s);
      var first := One(w, w', s);
      RunEnds(first);
      var rest := FinishCalls(w', s);
      RunEnds(rest);
      assert w'.producers[s := Idle] == w.producers[s := Idle];
      run := Then(first, rest);
      RunEnds(run);
    } else {
      var w' := LastUnlock(w, s);
      run := One(w, w', s);
      RunEnds(run);
    }
  }

  lemma RunEnds(run: seq<World>)
    requires ProducersRun(run)
    ensures |run| > 0 && Inv(run[|run| - 1])
  {
  }

  lemma LockNext(w: World, s: nat) returns (w': World)
    requires Inv(w) && !w.ended && s in w.producers && w.producers[s].Loaded? && w.producers[s].f !in w.locks
    ensures ProducerStep(w, w', s) && SameWork(w, w') && w'.producers[s].Calling?
  {
    hide Inv;
    var f := w.producers[s].f;
    w' := w.(producers := w.producers[s := Calling(f, 0)], locks := w.locks[f := s]);
    assert Lock(w, w', s);
  }

  /** A producer that has loaded the sink pointer waits for the lock, calls, and is back in its loop. */
  lemma FinishLoaded(w: World, s: nat) returns (run: seq<World>)
    requires Inv(w) && !w.ended && s in w.producers && w.producers[s].Loaded?
    ensures ProducersRun(run) && run[0] == w
    ensures SameWork(w, run[|run| - 1]) && run[|run| - 1].producers[s].Idle?
  {
    run := [w];
    assert ProducersRun(run);
    var f := w.producers[s].f;
    if f in w.locks {
      HolderIsCalling(w, f);
      run := FinishCalls(w, w.locks[f]);
    }
    RunEnds(run);
    hide Inv, ProducerStep, ProducersRun;
    var w1 := run[|run| - 1];
    var w2 := LockNext(w1, s);
    var locked := One(w1, w2, s);
    RunEnds(locked);
    var called := FinishCalls(w2, s);
    RunEnds(called);
    run := Then(run, locked);
    RunEnds(run);
    run := Then(run, called);
    RunEnds(run);
  }

  lemma HolderIsCalling(w: World, f: nat)
    requires Inv(w) && f in w.locks
    ensures w.locks[f] in w.producers && w.producers[w.locks[f]].Calling? && w.producers[w.locks[f]].f == f
  {
  }

  lemma LeaveLoop(w: World, s: nat) returns (w': World)
    requires Inv(w) && !w.ended && s in w.producers && w.producers[s].Idle?
    ensures ProducerStep(w, w', s) && SameWork(w, w') && w'.producers[s].Exited?
  {
    hide Inv;
    w' := w.(producers := w.producers[s := Exited]);
    assert Exit(w, w', s);
  }

  lemma Standstill(w: World) returns (run: seq<World>)
    requires Inv(w)
    ensures run == [w] && ProducersRun(run)
  {
    run := [w];
  }

  /** Any producer can end its loop. */
  lemma FinishThread(w: World, s: nat) returns (run: seq<World>)
    requires Inv(w) && !w.ended && s in w.producers
    ensures ProducersRun(run) && run[0] == w
    ensures SameWork(w, run[|run| - 1]) && run[|run| - 1].producers[s].Exited?
  {
    hide Inv, ProducerStep, ProducersRun;
    run := Standstill(w);
    if w.producers[s].Calling? {
      run := FinishCalls(w, s);
    } else if w.producers[s].Loaded? {
      run := FinishLoaded(w, s);
    }
    RunEnds(run);
    var w1 := run[|run| - 1];
    if w1.producers[s].Idle? {
      var w2 := LeaveLoop(w1, s);
      var left := One(w1, w2, s);
      RunEnds(left);
      run := Then(run, left);
      RunEnds(run);
    }
  }

  // ---- every source has its thread -------------------------------------------------------------------

  predicate HasThreads(w: World) {
    forall s :: s in w.app.sources ==> s in w.producers
  }

  lemma NewSourcesOnly(a: Action, p: App)
    requires Allowed(a, p)
    ensures forall s :: s in Apply(a, p).sources ==> s in p.sources || (a.AdoptSource? && s == p.nextObject)
  {
  }

  lemma StepKeepsThreads(w: World, w': World)
    requires HasThreads(w) && Step(w, w')
    ensures HasThreads(w')
  {
    hide Allowed, Apply, Program, MayCall, Fatal;
    if RenderStep(w, w') {
      NewSourcesOnly(w.todo[0], w.app);
    }
  }

  lemma {:induction false} RunHasThreads(run: seq<World>, n: nat)
    requires IsRun(run) && n < |run|
    ensures HasThreads(run[n])
  {
    hide Step;
    if n > 0 {
      RunHasThreads(run, n - 1);
      StepKeepsThreads(run[n - 1], run[n]);
    }
  }

  // ---- calls stay inside the fanout ------------------------------------------------------------------

  predicate InBounds(w: World) {
    forall s :: s in w.producers && w.producers[s].Calling? && w.producers[s].f in w.app.fanouts ==>
      w.producers[s].k <= |w.app.fanouts[w.producers[s].f]|
  }

  /** A fanout only changes at the hands of whoever has its mutex. */
  lemma LockedFanoutStays(a: Action, w: World, f: nat)
    requires Allowed(a, w.app) && Enabled(a, w) && f in w.locks && f in w.app.fanouts
    ensures f in Apply(a, w.app).fanouts ==> Apply(a, w.app).fanouts[f] == w.app.fanouts[f]
  {
  }

  lemma RenderKeepsBounds(w: World, w': World)
    requires Inv(w) && InBounds(w) && RenderStep(w, w')
    ensures InBounds(w')
  {
    forall s | s in w'.producers && w'.producers[s].Calling? && w'.producers[s].f in w'.app.fanouts
      ensures w'.producers[s].k <= |w'.app.fanouts[w'.producers[s].f]|
    {
      CallerUnmoved(w, w', s);
      CallingIsLinked(w, s);
      hide Inv;
      FanoutUnmoved(w, w', w.producers[s].f);
    }
  }

  lemma CallerUnmoved(w: World, w': World, s: nat)
    requires RenderStep(w, w') && s in w'.producers && w'.producers[s].Calling?
    ensures s in w.producers && w'.producers[s] == w.producers[s]
  {
    hide Allowed, Apply, Fatal, Enabled;
  }

  lemma FanoutUnmoved(w: World, w': World, f: nat)
    requires RenderStep(w, w') && f in w.locks && f in w.app.fanouts && f in w'.app.fanouts
    ensures w'.app.fanouts[f] == w.app.fanouts[f]
  {
    hide Allowed, Apply, Fatal, Enabled;
    LockedFanoutStays(w.todo[0], w, f);
  }

  lemma ProducerKeepsBounds(w: World, w': World, s: nat)
    requires InBounds(w) && ProducerStep(w, w', s)
    ensures InBounds(w')
  {
    assert w'.app == w.app;
  }

  lemma StepKeepsBounds(w: World, w': World)
    requires Inv(w) && InBounds(w) && Step(w, w')
    ensures InBounds(w')
  {
    if RenderStep(w, w') {
      hide Inv, InBounds, RenderStep;
      RenderKeepsBounds(w, w');
    } else {
      hide Inv, RenderStep, ProducerStep, Program, MayCall;
      if s :| ProducerStep(w, w', s) {
        ProducerKeepsBounds(w, w', s);
      }
    }
  }

  lemma {:induction false} RunInBounds(run: seq<World>, n: nat)
    requires IsRun(run) && n < |run|
    ensures InBounds(run[n])
  {
    hide Step, Inv;
    if n > 0 {
      RunInBounds(run, n - 1);
      RunInv(run, n - 1);
      StepKeepsBounds(run[n - 1], run[n]);
    }
  }

  /** In every state of every run a producer inside a fanout has called at most the sinks there are, and
      the next one it calls, if any, is registered and alive. */
  lemma CallsAreInBounds(run: seq<World>, n: nat, s: nat)
    requires IsRun(run) && n < |run| && s in run[n].producers && run[n].producers[s].Calling?
    ensures var f, k := run[n].producers[s].f, run[n].producers[s].k;
      f in run[n].app.fanouts && k <= |run[n].app.fanouts[f]|
      && (k < |run[n].app.fanouts[f]| ==> run[n].app.fanouts[f][k] in run[n].app.sinks)
  {
    RunInv(run, n);
    RunInBounds(run, n);
    InvIsSafe(run[n]);
  }

  // ---- no deadlock ------------------------------------------------------------------------------------

  /** The next action of the render thread is possible. */
  ghost predicate RenderCanGo(w: World) {
    exists w' :: RenderStep(w, w')
  }

  lemma EnabledMeansGo(w: World)
    requires Inv(w) && !w.ended && |w.todo| > 0 && Enabled(w.todo[0], w)
    ensures RenderCanGo(w)
  {
    InvIsSafe(w);
    hide Inv;
    var a := w.todo[0];
    var w' := if Fatal(a, w.app) then w.(ended := true)
      else World(Apply(a, w.app), w.todo[1..],
                 if a.AdoptSource? then w.producers[w.app.nextObject := Idle] else w.producers,
                 w.locks, StoppedAfter(w, a), false);
    assert RenderStep(w, w');
  }

  /** In every state of every run in which an operation is in progress, the producers alone can reach a
      state in which the render thread takes its next action, be it waiting for a fanout's mutex or for
      a thread to end. So neither a detach, nor a stop, nor an attach ever deadlocks with the producers. */
  lemma RenderNeverStuck(run: seq<World>, n: nat) returns (more: seq<World>)
    requires IsRun(run) && n < |run| && !run[n].ended && |run[n].todo| > 0
    ensures ProducersRun(more) && more[0] == run[n]
    ensures SameWork(run[n], more[|more| - 1]) && RenderCanGo(more[|more| - 1])
  {
    var w := run[n];
    RunInv(run, n);
    RunHasThreads(run, n);
    hide IsRun, Inv, Step, ProducerStep, ProducersRun, RenderCanGo, Enabled, SameWork;
    more := ClearTheWay(w);
    RunEnds(more);
    EnabledMeansGo(more[|more| - 1]);
  }

  /** Producers alone make the next action of the render thread possible. */
  lemma ClearTheWay(w: World) returns (more: seq<World>)
    requires Inv(w) && HasThreads(w) && !w.ended && |w.todo| > 0
    ensures ProducersRun(more) && more[0] == w && SameWork(w, more[|more| - 1])
    ensures var last := more[|more| - 1]; !last.ended && |last.todo| > 0 && Enabled(last.todo[0], last)
  {
    JoinedIsLive(w);
    if Enabled(w.todo[0], w) {
      hide Inv, ProducersRun, Allowed;
      more := Standstill(w);
      RunEnds(more);
    } else if w.todo[0].JoinThread? {
      hide Inv, ProducersRun, Allowed;
      more := FinishThread(w, w.todo[0].s);
      RunEnds(more);
    } else {
      var f := w.todo[0].f;
      HolderIsCalling(w, f);
      hide Inv, ProducersRun, Allowed;
      more := FinishCalls(w, w.locks[f]);
      RunEnds(more);
    }
  }

  lemma JoinedIsLive(w: World)
    requires Inv(w) && HasThreads(w) && |w.todo| > 0
    ensures w.todo[0].JoinThread? ==> w.todo[0].s in w.producers
  {
    InvIsSafe(w);
    hide Inv;
  }

  // ---- a recorder that fails -------------------------------------------------------------------------

  lemma RenderOne(w: World) returns (w': World)
    requires !w.ended && |w.todo| > 0 && Allowed(w.todo[0], w.app) && Enabled(w.todo[0], w) && !w.todo[0].AdoptSource?
    ensures RenderStep(w, w') && w'.producers == w.producers && w'.locks == w.locks
    ensures if Fatal(w.todo[0], w.app) then w' == w.(ended := true)
      else !w'.ended && w'.app == Apply(w.todo[0], w.app) && w'.todo == w.todo[1..]
  {
    hide Allowed, Apply, Fatal;
    var a := w.todo[0];
    w' := if Fatal(a, w.app) then w.(ended := true)
      else World(Apply(a, w.app), w.todo[1..], w.producers, w.locks, StoppedAfter(w, a), false);
  }

  /** Such a run exists from every state between operations with a recorder that was not stopped: its
      pipeline fails, StopRecording follows, and its third action ends the process. */
  lemma FailureThenStopEnds(w: World, i: nat) returns (w1: World, w2: World, w3: World, w4: World, w5: World)
    requires Inv(w) && !w.ended && |w.todo| == 0 && i < |w.app.sessions| && w.app.sessions[i].id !in w.locks
    requires w.app.sessions[i].recorder.Some? && w.app.sessions[i].recorder.value !in w.stopped
    ensures PipelineFails(w, w1, w.app.sessions[i].recorder.value)
    ensures BeginOperation(w1, w2, StopExport(i, Recorder))
    ensures RenderStep(w2, w3) && RenderStep(w3, w4) && RenderStep(w4, w5) && w5.ended
  {
    hide Inv, BeginOperation, PipelineFails, RenderStep, AboutToStop;
    w1, w2 := FailAndBegin(w, i);
    w3, w4, w5 := StopsAndEnds(w2, i);
  }

  /** StopRecording is about to run on session i, whose recorder failed. */
  ghost predicate AboutToStop(w: World, i: nat) {
    && !w.ended && Quiescent(w.app) && RecorderFailed(w.app, i) && w.app.sessions[i].id !in w.locks
    && w.todo == [RemoveSink(w.app.sessions[i].id, w.app.sessions[i].recorder.value), StopSink(i, Recorder),
                  DestroySink(i, Recorder)]
  }

  lemma FailAndBegin(w: World, i: nat) returns (w1: World, w2: World)
    requires Inv(w) && !w.ended && |w.todo| == 0 && i < |w.app.sessions| && w.app.sessions[i].id !in w.locks
    requires w.app.sessions[i].recorder.Some? && w.app.sessions[i].recorder.value !in w.stopped
    ensures PipelineFails(w, w1, w.app.sessions[i].recorder.value)
    ensures BeginOperation(w1, w2, StopExport(i, Recorder)) && AboutToStop(w2, i)
  {
    InvIsSafe(w);
    hide Inv, Quiescent;
    var x, id := w.app.sessions[i].recorder.value, w.app.sessions[i].id;
    w1 := w.(app := w.app.(failed := w.app.failed + {x}));
    assert PipelineFails(w, w1, x);
    QuiescentCommutes(w.app, w.app.failed + {x});
    w2 := w1.(todo := [RemoveSink(id, x), StopSink(i, Recorder), DestroySink(i, Recorder)]);
    assert BeginOperation(w1, w2, StopExport(i, Recorder));
  }

  lemma StopsAndEnds(w2: World, i: nat) returns (w3: World, w4: World, w5: World)
    requires AboutToStop(w2, i)
    ensures RenderStep(w2, w3) && RenderStep(w3, w4) && RenderStep(w4, w5) && w5.ended
  {
    var x, id := w2.app.sessions[i].recorder.value, w2.app.sessions[i].id;
    StopSlotAllowed(w2.app, i, Recorder);
    SameButFanouts(RemoveSink(id, x), w2.app);
    hide Allowed, Quiescent, RenderStep, Apply;
    w3 := RenderOne(w2);
    assert w3.app == Apply(RemoveSink(id, x), w2.app);
    SameButFanouts(StopSink(i, Recorder), w3.app);
    w4 := RenderOne(w3);
    w5 := RenderOne(w4);
  }

  lemma SameButFanouts(a: Action, p: App)
    requires Allowed(a, p) && (a.RemoveSink? || a.StopSink?)
    ensures Apply(a, p) == p.(fanouts := Apply(a, p).fanouts) && (a.StopSink? ==> Apply(a, p) == p)
  {
  }
}
