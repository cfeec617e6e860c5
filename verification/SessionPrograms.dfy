/** The session manager's operations as programs over the shared state, and the proof that
    each of them, started between operations, ends between operations. */
module SessionPrograms {
  import opened VideoFrames
  import opened TeeProtocol

  /** DetachFrameSink, Stop and reset of a recorder or RTSP sink. */
  function StopSlot(i: nat, s: Session, slot: Slot): seq<Action> {
    match SinkIn(s, slot)
    case None => []
    case Some(x) => [RemoveSink(s.id, x), StopSink(i, slot), DestroySink(i, slot)]
  }

  /** Clear the tee, stop and join the producer, destroy the source. */
  function StopSource(i: nat, s: Session): seq<Action> {
    match s.source
    case None => []
    case Some(src) => [SetTee(src, None), ClearRunning(src), JoinThread(src), DestroySource(i)]
  }

  function Teardown(i: nat, s: Session): seq<Action> {
    StopSlot(i, s, Rtsp) + StopSlot(i, s, Recorder) + StopSource(i, s)
  }

  /** AttachFrameSink: into the fanout first, then the fanout into the source. */
  function Attach(s: Session, x: nat): seq<Action> {
    match s.source
    case None => []
    case Some(src) => [AddSink(s.id, x), SetTee(src, Some(s.id))]
  }

  /** The state a finished program leaves, with the invariant back in place. */
  ghost predicate Completes(prog: seq<Action>, p: App) {
    AllAllowed(prog, p) && Quiescent(Exec(prog, p))
  }

  lemma ExecTwo(a: Action, b: Action, p: App)
    requires Allowed(a, p) && Allowed(b, Apply(a, p))
    ensures AllAllowed([a, b], p)
    ensures Exec([a, b], p) == Apply(b, Apply(a, p))
  {
    hide Allowed, Apply;
    ExecOne(b, Apply(a, p));
    ExecStep(a, [b], p);
    assert [a, b] == [a] + [b];
  }

  /** A three-action program, one action at a time. */
  lemma ExecThree(a: Action, b: Action, c: Action, p: App)
    requires Allowed(a, p) && Allowed(b, Apply(a, p)) && Allowed(c, Apply(b, Apply(a, p)))
    ensures AllAllowed([a, b, c], p)
    ensures Exec([a, b, c], p) == Apply(c, Apply(b, Apply(a, p)))
  {
    hide Allowed, Apply;
    ExecTwo(b, c, Apply(a, p));
    ExecStep(a, [b, c], p);
    assert [a, b, c] == [a] + [b, c];
  }

  /** The state after the sink in `slot` of session i was detached and destroyed. */
  ghost function SinkGone(p: App, i: nat, slot: Slot): App
    requires i < |p.sessions| && SinkIn(p.sessions[i], slot).Some? && p.sessions[i].id in p.fanouts
  {
    var s, x := p.sessions[i], SinkIn(p.sessions[i], slot).value;
    p.(fanouts := p.fanouts[s.id := Without(p.fanouts[s.id], x)],
       sessions := p.sessions[i := PutSink(s, slot, None)],
       sinks := p.sinks - {x})
  }

  lemma SinkGoneSession(p: App, i: nat, slot: Slot, j: nat)
    requires Quiescent(p) && i < |p.sessions| && SinkIn(p.sessions[i], slot).Some?
    requires j < |p.sessions|
    ensures p.sessions[i].id in p.fanouts
    ensures SessionOk(SinkGone(p, i, slot), SinkGone(p, i, slot).sessions[j])
  {
    assert SessionOk(p, p.sessions[j]) && SessionOk(p, p.sessions[i]);
  }

  lemma SinkGoneQuiescent(p: App, i: nat, slot: Slot)
    requires Quiescent(p) && i < |p.sessions| && SinkIn(p.sessions[i], slot).Some?
    ensures p.sessions[i].id in p.fanouts
    ensures WellLinked(SinkGone(p, i, slot)) ==> Quiescent(SinkGone(p, i, slot))
  {
    hide SessionOk, WellLinked;
    SinkGoneSession(p, i, slot, i);
    var q := SinkGone(p, i, slot);
    forall j | 0 <= j < |q.sessions|
      ensures SessionOk(q, q.sessions[j])
    {
      SinkGoneSession(p, i, slot, j);
    }
  }

  /** No sink of an outside party leaves a fanout. */
  ghost predicate KeepsExternal(p: App, q: App) {
    forall f, x :: f in p.fanouts && x in p.fanouts[f] && x in p.external ==> f in q.fanouts && x in q.fanouts[f]
  }

  /** Session i has a recorder whose pipeline could not be built. */
  predicate RecorderFailed(p: App, i: nat) {
    i < |p.sessions| && p.sessions[i].recorder.Some? && p.sessions[i].recorder.value in p.failed
  }

  /** Detach, stop and reset: what is left afterwards, and exactly when the reset ends the process
      instead. */
  lemma StopSlotCompletes(p: App, i: nat, slot: Slot)
    requires Quiescent(p) && i < |p.sessions|
    ensures AllAllowed(StopSlot(i, p.sessions[i], slot), p)
    ensures EndsProcess(StopSlot(i, p.sessions[i], slot), p) <==> slot.Recorder? && RecorderFailed(p, i)
    ensures var prog := StopSlot(i, p.sessions[i], slot);
      && Completes(prog, p)
      && Exec(prog, p).sessions == p.sessions[i := PutSink(p.sessions[i], slot, None)]
      && Exec(prog, p) == p.(sessions := Exec(prog, p).sessions, fanouts := Exec(prog, p).fanouts,
                             sinks := Exec(prog, p).sinks)
      && KeepsExternal(p, Exec(prog, p))
  {
    var s := p.sessions[i];
    if SinkIn(s, slot).Some? {
      var x := SinkIn(s, slot).value;
      SinkGoneQuiescent(p, i, slot);
      StopSlotAllowed(p, i, slot);
      SinkGoneKeepsExternal(p, i, slot);
      hide KeepsExternal, Quiescent;
      ExecThree(RemoveSink(s.id, x), StopSink(i, slot), DestroySink(i, slot), p);
      ThirdDecides(RemoveSink(s.id, x), StopSink(i, slot), DestroySink(i, slot), p);
    } else {
      assert p.sessions[i := PutSink(s, slot, None)] == p.sessions;
    }
  }

  lemma SinkGoneKeepsExternal(p: App, i: nat, slot: Slot)
    requires Quiescent(p) && i < |p.sessions| && SinkIn(p.sessions[i], slot).Some?
    ensures p.sessions[i].id in p.fanouts && KeepsExternal(p, SinkGone(p, i, slot))
  {
    assert SessionOk(p, p.sessions[i]);
  }

  lemma KeepsExternalTwice(p: App, q: App, r: App)
    requires KeepsExternal(p, q) && KeepsExternal(q, r) && q.external == p.external
    ensures KeepsExternal(p, r)
  {
  }

  lemma SameExternal(p: App, q: App)
    requires q.fanouts == p.fanouts
    ensures KeepsExternal(p, q)
  {
  }

  lemma ThirdDecides(a: Action, b: Action, c: Action, p: App)
    requires !a.DestroySink? && !b.DestroySink? && AllAllowed([a, b, c], p)
    requires Allowed(a, p) && Allowed(b, Apply(a, p))
    requires Apply(b, Apply(a, p)).sessions == p.sessions && Apply(b, Apply(a, p)).failed == p.failed
    ensures EndsProcess([a, b, c], p) <==> Fatal(c, p)
  {
    hide Allowed, Apply;
    var prog := [a, b, c];
    var rest := prog[1..];
    var last := rest[1..];
    assert rest[0] == b && last[0] == c && |last[1..]| == 0;
    var p1 := Apply(a, p);
    var p2 := Apply(b, p1);
    assert AllAllowed(rest, p1) && AllAllowed(last, p2);
    assert EndsProcess(last, p2) <==> Fatal(c, p2) || EndsProcess(last[1..], Apply(c, p2));
    assert EndsProcess(rest, p1) <==> EndsProcess(last, p2);
  }

  lemma StopSlotAllowed(p: App, i: nat, slot: Slot)
    requires Quiescent(p) && i < |p.sessions| && SinkIn(p.sessions[i], slot).Some?
    ensures p.sessions[i].id in p.fanouts
    ensures var s, x := p.sessions[i], SinkIn(p.sessions[i], slot).value;
      && Allowed(RemoveSink(s.id, x), p)
      && var p1 := Apply(RemoveSink(s.id, x), p);
         Allowed(StopSink(i, slot), p1) && Allowed(DestroySink(i, slot), p1)
         && Apply(DestroySink(i, slot), p1) == SinkGone(p, i, slot)
         && WellLinked(SinkGone(p, i, slot))
  {
    var s, x := p.sessions[i], SinkIn(p.sessions[i], slot).value;
    assert SessionOk(p, s);
    var p1 := Apply(RemoveSink(s.id, x), p);
    ApplyKeepsLinks(RemoveSink(s.id, x), p);
    ApplyKeepsLinks(DestroySink(i, slot), p1);
  }

  // ---- stopping the source ---------------------------------------------------------

  lemma ExecFour(a: Action, b: Action, c: Action, d: Action, p: App)
    requires Allowed(a, p)
    requires var p1 := Apply(a, p);
      && Allowed(b, p1) && Allowed(c, Apply(b, p1)) && Allowed(d, Apply(c, Apply(b, p1)))
    ensures AllAllowed([a, b, c, d], p)
    ensures Exec([a, b, c, d], p) == Apply(d, Apply(c, Apply(b, Apply(a, p))))
  {
    hide Allowed, Apply;
    ExecThree(b, c, d, Apply(a, p));
    ExecStep(a, [b, c, d], p);
    assert [a, b, c, d] == [a] + [b, c, d];
  }

  ghost function SourceGone(p: App, i: nat): App
    requires i < |p.sessions| && p.sessions[i].source.Some?
  {
    p.(sessions := p.sessions[i := p.sessions[i].(source := None)],
       sources := p.sources - {p.sessions[i].source.value})
  }

  /** The same state with the source of session i at a later stage of its shutdown. */
  ghost function SourceStage(p: App, i: nat, running: bool, joined: bool): App
    requires i < |p.sessions| && p.sessions[i].source.Some?
  {
    p.(sources := p.sources[p.sessions[i].source.value := Source(p.sessions[i].id, None, running, joined)])
  }

  lemma StopSourceStages(p: App, i: nat, running: bool)
    requires i < |p.sessions| && p.sessions[i].source.Some?
    requires var src := p.sessions[i].source.value;
      src in p.sources && p.sources[src].owner == p.sessions[i].id
      && p.sources[src].running == running && !p.sources[src].joined
    ensures var src := p.sessions[i].source.value;
      && Allowed(SetTee(src, None), p)
      && Apply(SetTee(src, None), p) == SourceStage(p, i, running, false)
      && Allowed(ClearRunning(src), SourceStage(p, i, running, false))
      && Apply(ClearRunning(src), SourceStage(p, i, running, false)) == SourceStage(p, i, false, false)
      && Allowed(JoinThread(src), SourceStage(p, i, false, false))
      && Apply(JoinThread(src), SourceStage(p, i, false, false)) == SourceStage(p, i, false, true)
      && Allowed(DestroySource(i), SourceStage(p, i, false, true))
  {
  }

  lemma SourceGoneReached(p: App, i: nat)
    requires WellLinked(p) && i < |p.sessions| && p.sessions[i].source.Some?
    requires p.sessions[i].source.value in p.sources
    requires Allowed(DestroySource(i), SourceStage(p, i, false, true))
    ensures Apply(DestroySource(i), SourceStage(p, i, false, true)) == SourceGone(p, i)
    ensures WellLinked(SourceGone(p, i))
  {
    var src := p.sessions[i].source.value;
    assert SourceStage(p, i, false, true).sources - {src} == p.sources - {src};
  }

  lemma SourceGoneSession(p: App, i: nat, j: nat)
    requires Quiescent(p) && i < |p.sessions| && p.sessions[i].source.Some?
    requires p.sessions[i].recorder.None? && p.sessions[i].rtsp.None?
    requires j < |p.sessions|
    ensures SessionOk(SourceGone(p, i), SourceGone(p, i).sessions[j])
  {
    assert SessionOk(p, p.sessions[j]) && SessionOk(p, p.sessions[i]);
  }

  lemma SourceGoneQuiescent(p: App, i: nat)
    requires Quiescent(p) && i < |p.sessions| && p.sessions[i].source.Some?
    requires p.sessions[i].recorder.None? && p.sessions[i].rtsp.None?
    requires WellLinked(SourceGone(p, i))
    ensures Quiescent(SourceGone(p, i))
  {
    hide SessionOk, WellLinked;
    var q := SourceGone(p, i);
    forall j | 0 <= j < |q.sessions|
      ensures SessionOk(q, q.sessions[j])
    {
      SourceGoneSession(p, i, j);
    }
  }

  lemma StopSourceCompletes(p: App, i: nat)
    requires Quiescent(p) && i < |p.sessions|
    requires p.sessions[i].recorder.None? && p.sessions[i].rtsp.None?
    ensures var prog := StopSource(i, p.sessions[i]);
      && Completes(prog, p)
      && Exec(prog, p) == if p.sessions[i].source.None? then p else SourceGone(p, i)
  {
    if p.sessions[i].source.Some? {
      var src := p.sessions[i].source.value;
      assert SessionOk(p, p.sessions[i]);
      StopSourceStages(p, i, p.sources[src].running);
      SourceGoneReached(p, i);
      SourceGoneQuiescent(p, i);
      StopSourceRuns(p, i, p.sources[src].running);
    }
  }

  lemma StopSourceRuns(p: App, i: nat, running: bool)
    requires i < |p.sessions| && p.sessions[i].source.Some?
    requires var src := p.sessions[i].source.value;
      && Allowed(SetTee(src, None), p)
      && Apply(SetTee(src, None), p) == SourceStage(p, i, running, false)
      && Allowed(ClearRunning(src), SourceStage(p, i, running, false))
      && Apply(ClearRunning(src), SourceStage(p, i, running, false)) == SourceStage(p, i, false, false)
      && Allowed(JoinThread(src), SourceStage(p, i, false, false))
      && Apply(JoinThread(src), SourceStage(p, i, false, false)) == SourceStage(p, i, false, true)
      && Allowed(DestroySource(i), SourceStage(p, i, false, true))
      && Apply(DestroySource(i), SourceStage(p, i, false, true)) == SourceGone(p, i)
    ensures AllAllowed(StopSource(i, p.sessions[i]), p)
    ensures Exec(StopSource(i, p.sessions[i]), p) == SourceGone(p, i)
  {
    hide Allowed, Apply, SourceStage, SourceGone;
    var src := p.sessions[i].source.value;
    ExecFour(SetTee(src, None), ClearRunning(src), JoinThread(src), DestroySource(i), p);
  }

  /** TeardownSession: sinks out of the fanout and destroyed, then the producer joined and
      its source destroyed. The record keeps its id, kind and key. */
  lemma TeardownCompletes(p: App, i: nat)
    requires Quiescent(p) && i < |p.sessions|
    ensures AllAllowed(Teardown(i, p.sessions[i]), p)
    ensures EndsProcess(Teardown(i, p.sessions[i]), p) <==> RecorderFailed(p, i)
    ensures var prog, q := Teardown(i, p.sessions[i]), p.sessions[i].(source := None, recorder := None, rtsp := None);
      && Completes(prog, p)
      && Exec(prog, p).sessions == p.sessions[i := q]
      && Exec(prog, p) == p.(sessions := Exec(prog, p).sessions, fanouts := Exec(prog, p).fanouts,
                             sinks := Exec(prog, p).sinks, sources := Exec(prog, p).sources)
      && KeepsExternal(p, Exec(prog, p))
  {
    hide Quiescent, Allowed, Apply, AllAllowed, Exec, WellLinked, EndsProcess, StopSlot, StopSource, KeepsExternal;
    var s := p.sessions[i];
    StopSlotCompletes(p, i, Rtsp);
    var p1 := Exec(StopSlot(i, s, Rtsp), p);
    StopSlotCompletes(p1, i, Recorder);
    SameSession(i, s, p1.sessions[i], Recorder);
    var p2 := Exec(StopSlot(i, s, Recorder), p1);
    StopSourceCompletes(p2, i);
    SameSource(i, s, p2.sessions[i]);
    var p3 := Exec(StopSource(i, s), p2);
    KeepsExternalTwice(p, p1, p2);
    SameExternal(p2, p3);
    KeepsExternalTwice(p, p2, p3);
    ExecConcat(StopSlot(i, s, Rtsp), StopSlot(i, s, Recorder), p);
    ExecConcat(StopSlot(i, s, Rtsp) + StopSlot(i, s, Recorder), StopSource(i, s), p);
    TeardownEnds(p, i, p1, p2);
  }

  lemma SameSession(i: nat, s: Session, t: Session, slot: Slot)
    requires t.id == s.id && SinkIn(t, slot) == SinkIn(s, slot)
    ensures StopSlot(i, t, slot) == StopSlot(i, s, slot)
  {
  }

  lemma SameSource(i: nat, s: Session, t: Session)
    requires t.source == s.source
    ensures StopSource(i, t) == StopSource(i, s)
  {
  }

  lemma TeardownEnds(p: App, i: nat, p1: App, p2: App)
    requires i < |p.sessions|
    requires AllAllowed(StopSlot(i, p.sessions[i], Rtsp), p) && p1 == Exec(StopSlot(i, p.sessions[i], Rtsp), p)
    requires AllAllowed(StopSlot(i, p.sessions[i], Recorder), p1)
    requires p2 == Exec(StopSlot(i, p.sessions[i], Recorder), p1) && AllAllowed(StopSource(i, p.sessions[i]), p2)
    requires !EndsProcess(StopSlot(i, p.sessions[i], Rtsp), p)
    requires EndsProcess(StopSlot(i, p.sessions[i], Recorder), p1) <==> RecorderFailed(p1, i)
    requires RecorderFailed(p1, i) <==> RecorderFailed(p, i)
    ensures AllAllowed(Teardown(i, p.sessions[i]), p)
    ensures EndsProcess(Teardown(i, p.sessions[i]), p) <==> RecorderFailed(p, i)
  {
    var s := p.sessions[i];
    assert Harmless(StopSource(i, s));
    hide AllAllowed, Exec, EndsProcess, StopSlot, StopSource;
    HarmlessSurvives(StopSource(i, s), p2);
    EndsConcat(StopSlot(i, s, Rtsp), StopSlot(i, s, Recorder), p);
    ExecConcat(StopSlot(i, s, Rtsp), StopSlot(i, s, Recorder), p);
    EndsConcat(StopSlot(i, s, Rtsp) + StopSlot(i, s, Recorder), StopSource(i, s), p);
  }

  // ---- single actions that end between operations -----------------------------------

  lemma {:induction false} FindSessionMeaning(sessions: seq<Session>, key: string)
    ensures FindSession(sessions, key) <= |sessions|
    ensures FindSession(sessions, key) < |sessions| ==> sessions[FindSession(sessions, key)].key == key
    ensures FindSession(sessions, key) == |sessions| ==>
      forall i :: 0 <= i < |sessions| ==> sessions[i].key != key
  {
    if |sessions| > 0 && sessions[0].key != key {
      FindSessionMeaning(sessions[1..], key);
      forall i | 0 < i < |sessions|
        ensures sessions[i] == sessions[1..][i - 1]
      {
      }
    }
  }

  /** Index of the first session with this key; the number of sessions if there is none. */
  function FindSession(sessions: seq<Session>, key: string): nat {
    if |sessions| == 0 then 0
    else if sessions[0].key == key then 0
    else 1 + FindSession(sessions[1..], key)
  }

  lemma PushSessionQuiescent(p: App, kind: SourceKind, key: string)
    requires Quiescent(p) && FindSession(p.sessions, key) == |p.sessions|
    ensures Allowed(PushSession(kind, key), p) && Quiescent(Apply(PushSession(kind, key), p))
  {
    FindSessionMeaning(p.sessions, key);
    ApplyKeepsLinks(PushSession(kind, key), p);
    var q := Apply(PushSession(kind, key), p);
    forall j | 0 <= j < |q.sessions|
      ensures SessionOk(q, q.sessions[j])
    {
      assert j < |p.sessions| ==> SessionOk(p, p.sessions[j]);
    }
  }

  lemma SetKindQuiescent(p: App, i: nat, kind: SourceKind)
    requires Quiescent(p) && i < |p.sessions|
    ensures Quiescent(Apply(SetKind(i, kind), p))
  {
    var q := Apply(SetKind(i, kind), p);
    ApplyKeepsLinks(SetKind(i, kind), p);
    forall j | 0 <= j < |q.sessions|
      ensures SessionOk(q, q.sessions[j])
    {
      assert SessionOk(p, p.sessions[j]);
    }
  }

  lemma AdoptSourceQuiescent(p: App, i: nat)
    requires Quiescent(p) && i < |p.sessions| && p.sessions[i].source.None?
    ensures Allowed(AdoptSource(i), p) && Quiescent(Apply(AdoptSource(i), p))
  {
    assert SessionOk(p, p.sessions[i]);
    ApplyKeepsLinks(AdoptSource(i), p);
    var q := Apply(AdoptSource(i), p);
    forall j | 0 <= j < |q.sessions|
      ensures SessionOk(q, q.sessions[j])
    {
      assert SessionOk(p, p.sessions[j]);
    }
  }

  lemma EraseSessionQuiescent(p: App, i: nat)
    requires Quiescent(p) && i < |p.sessions| && p.sessions[i].source.None?
    ensures Allowed(EraseSession(i), p) && Quiescent(Apply(EraseSession(i), p))
  {
    assert SessionOk(p, p.sessions[i]);
    ApplyKeepsLinks(EraseSession(i), p);
    hide SessionOk, WellLinked;
    var q := Apply(EraseSession(i), p);
    forall j | 0 <= j < |q.sessions|
      ensures q.sessions[j] == p.sessions[if j < i then j else j + 1] && SessionOk(q, q.sessions[j])
    {
      ErasedSession(p, i, if j < i then j else j + 1);
    }
  }

  lemma ErasedSession(p: App, i: nat, k: nat)
    requires Quiescent(p) && i < |p.sessions| && p.sessions[i].source.None?
    requires k < |p.sessions| && k != i && Allowed(EraseSession(i), p)
    ensures SessionOk(Apply(EraseSession(i), p), p.sessions[k])
  {
    assert SessionOk(p, p.sessions[k]) && SessionOk(p, p.sessions[i]);
  }

  lemma ClearSessionsQuiescent(p: App)
    requires Quiescent(p)
    requires forall i :: 0 <= i < |p.sessions| ==> p.sessions[i].source.None?
    ensures Allowed(ClearSessions, p) && Quiescent(Apply(ClearSessions, p))
  {
    forall i | 0 <= i < |p.sessions|
      ensures SessionOk(p, p.sessions[i])
    {
    }
    ApplyKeepsLinks(ClearSessions, p);
  }

  /** An external sink enters or leaves the world of live sinks. */
  lemma ExternalQuiescent(p: App, a: Action)
    requires Quiescent(p) && Allowed(a, p)
    requires a.MakeExternal? || a.DropExternal? || a.Select?
    ensures Quiescent(Apply(a, p))
  {
    var q := Apply(a, p);
    ApplyKeepsLinks(a, p);
    forall j | 0 <= j < |q.sessions|
      ensures SessionOk(q, q.sessions[j])
    {
      assert SessionOk(p, p.sessions[j]);
    }
  }

  // ---- attaching and detaching ---------------------------------------------------------

  /** Sink x is in the fanout of session i, and its source tees to that fanout. */
  ghost function Attached(p: App, i: nat, x: nat): App
    requires i < |p.sessions| && p.sessions[i].source.Some?
    requires p.sessions[i].id in p.fanouts && p.sessions[i].source.value in p.sources
  {
    var s := p.sessions[i];
    p.(fanouts := p.fanouts[s.id := With(p.fanouts[s.id], x)],
       sources := p.sources[s.source.value := p.sources[s.source.value].(tee := Some(s.id))])
  }

  lemma AttachRuns(p: App, i: nat, x: nat)
    requires WellLinked(p) && i < |p.sessions| && p.sessions[i].source.Some?
    requires p.sessions[i].id in p.fanouts && x in p.sinks
    requires p.sessions[i].source.value in p.sources
    requires p.sources[p.sessions[i].source.value].owner == p.sessions[i].id
    requires x in p.external || (x in p.ownedBy && p.ownedBy[x] == p.sessions[i].id)
    ensures AllAllowed(Attach(p.sessions[i], x), p)
    ensures Exec(Attach(p.sessions[i], x), p) == Attached(p, i, x)
    ensures WellLinked(Attached(p, i, x))
  {
    var s := p.sessions[i];
    var add, tee := AddSink(s.id, x), SetTee(s.source.value, Some(s.id));
    hide WellLinked;
    ApplyKeepsLinks(add, p);
    ApplyKeepsLinks(tee, Apply(add, p));
    ExecTwo(add, tee, p);
  }

  lemma AttachedSession(p: App, i: nat, x: nat, j: nat)
    requires Quiescent(p) && i < |p.sessions| && p.sessions[i].source.Some? && x in p.external
    requires j < |p.sessions|
    ensures p.sessions[i].id in p.fanouts && p.sessions[i].source.value in p.sources
    ensures SessionOk(Attached(p, i, x), Attached(p, i, x).sessions[j])
  {
    assert SessionOk(p, p.sessions[j]) && SessionOk(p, p.sessions[i]);
  }

  lemma AttachExternalCompletes(p: App, i: nat, x: nat)
    requires Quiescent(p) && i < |p.sessions| && x in p.external
    ensures Completes(Attach(p.sessions[i], x), p)
  {
    if p.sessions[i].source.Some? {
      AttachedSession(p, i, x, i);
      assert SessionOk(p, p.sessions[i]);
      AttachRuns(p, i, x);
      forall j | 0 <= j < |p.sessions|
        ensures SessionOk(Attached(p, i, x), Attached(p, i, x).sessions[j])
      {
        AttachedSession(p, i, x, j);
      }
    }
  }

  lemma DetachExternalCompletes(p: App, i: nat, x: nat)
    requires Quiescent(p) && i < |p.sessions| && x in p.external
    ensures Completes([RemoveSink(p.sessions[i].id, x)], p)
  {
    var a := RemoveSink(p.sessions[i].id, x);
    assert SessionOk(p, p.sessions[i]);
    ApplyKeepsLinks(a, p);
    var q := Apply(a, p);
    forall j | 0 <= j < |q.sessions|
      ensures SessionOk(q, q.sessions[j])
    {
      assert SessionOk(p, p.sessions[j]);
    }
    ExecOne(a, p);
  }

  // ---- starting a recorder or RTSP sink ----------------------------------------------

  /** Make the sink, then attach it. */
  function MakeAndAttach(p: App, i: nat, slot: Slot): seq<Action>
    requires i < |p.sessions|
  {
    [MakeSink(i, slot)] + Attach(p.sessions[i], p.nextObject)
  }

  lemma MakeSinkLinks(p: App, i: nat, slot: Slot)
    requires Quiescent(p) && i < |p.sessions| && SinkIn(p.sessions[i], slot).None?
    requires p.sessions[i].source.Some?
    ensures Allowed(MakeSink(i, slot), p)
    ensures var p1 := Apply(MakeSink(i, slot), p);
      && WellLinked(p1) && p1.sessions[i].id == p.sessions[i].id && p1.sessions[i].source == p.sessions[i].source
      && p1.sessions[i].id in p1.fanouts && p1.sessions[i].source.value in p1.sources
      && p1.sources[p1.sessions[i].source.value].owner == p1.sessions[i].id
      && p.nextObject in p1.sinks && p.nextObject in p1.ownedBy && p1.ownedBy[p.nextObject] == p1.sessions[i].id
  {
    assert SessionOk(p, p.sessions[i]);
    ApplyKeepsLinks(MakeSink(i, slot), p);
  }

  lemma MadeSession(p: App, i: nat, slot: Slot, j: nat)
    requires Quiescent(p) && i < |p.sessions| && SinkIn(p.sessions[i], slot).None?
    requires p.sessions[i].source.Some? && j < |p.sessions|
    requires p.sessions[i].id in p.fanouts && p.sessions[i].source.value in p.sources
    ensures var q := Attached(Apply(MakeSink(i, slot), p), i, p.nextObject);
            SessionOk(q, q.sessions[j])
  {
    assert SessionOk(p, p.sessions[j]) && SessionOk(p, p.sessions[i]);
  }

  lemma MakeAndAttachCompletes(p: App, i: nat, slot: Slot)
    requires Quiescent(p) && i < |p.sessions| && SinkIn(p.sessions[i], slot).None?
    requires p.sessions[i].source.Some?
    ensures var prog := MakeAndAttach(p, i, slot);
      && Completes(prog, p)
      && Exec(prog, p).sessions == p.sessions[i := PutSink(p.sessions[i], slot, Some(p.nextObject))]
  {
    hide WellLinked, SessionOk;
    MakeSinkLinks(p, i, slot);
    var p1 := Apply(MakeSink(i, slot), p);
    AttachRuns(p1, i, p.nextObject);
    var q := Attached(p1, i, p.nextObject);
    forall j | 0 <= j < |q.sessions|
      ensures SessionOk(q, q.sessions[j])
    {
      assert SessionOk(p, p.sessions[i]);
      MadeSession(p, i, slot, j);
    }
    assert Quiescent(q);
    ExecStep(MakeSink(i, slot), Attach(p.sessions[i], p.nextObject), p);
  }

  lemma DroppedSession(p: App, i: nat, slot: Slot, j: nat)
    requires Quiescent(p) && i < |p.sessions| && SinkIn(p.sessions[i], slot).None? && j < |p.sessions|
    ensures Allowed(MakeSink(i, slot), p) && Allowed(DestroySink(i, slot), Apply(MakeSink(i, slot), p))
    ensures var q := Apply(DestroySink(i, slot), Apply(MakeSink(i, slot), p));
            SessionOk(q, q.sessions[j])
  {
    assert SessionOk(p, p.sessions[j]);
  }

  /** A sink whose start failed was never attached, so it can be destroyed at once. */
  lemma MakeAndDropCompletes(p: App, i: nat, slot: Slot)
    requires Quiescent(p) && i < |p.sessions| && SinkIn(p.sessions[i], slot).None?
    ensures Completes([MakeSink(i, slot), DestroySink(i, slot)], p)
  {
    hide WellLinked, SessionOk;
    var make, drop := MakeSink(i, slot), DestroySink(i, slot);
    DroppedSession(p, i, slot, i);
    ApplyKeepsLinks(make, p);
    ApplyKeepsLinks(drop, Apply(make, p));
    var q := Apply(drop, Apply(make, p));
    forall j | 0 <= j < |q.sessions|
      ensures SessionOk(q, q.sessions[j])
    {
      DroppedSession(p, i, slot, j);
    }
    ExecTwo(make, drop, p);
  }

  // ---- operations ------------------------------------------------------------------

  datatype Operation =
    | Start(kind: SourceKind, key: string, opens: bool)
    | StopSession(key: string)
    | StopAll
    | StartExport(i: nat, slot: Slot, starts: bool)
    | StopExport(i: nat, slot: Slot)
    | AttachExternal(i: nat, x: nat)
    | DetachExternal(i: nat, x: nat)
    | NewExternal
    | DeleteExternal(x: nat)
    | ChangeSelection(key: string)

  /** What the callers of an operation owe it: session references are live, and an outside
      sink is detached before it is deleted. */
  ghost predicate MayCall(op: Operation, p: App) {
    match op
    case StartExport(i, _, _) => i < |p.sessions|
    case StopExport(i, _) => i < |p.sessions|
    case AttachExternal(i, x) => i < |p.sessions| && x in p.external
    case DetachExternal(i, x) => i < |p.sessions| && x in p.external
    case DeleteExternal(x) => Allowed(DropExternal(x), p)
    case _ => true
  }

  function TeardownAll(sessions: seq<Session>, n: nat): seq<Action>
    requires n <= |sessions|
  {
    if n == 0 then [] else TeardownAll(sessions, n - 1) + Teardown(n - 1, sessions[n - 1])
  }

  /** StartV4l2 and StartGst: reuse or create the session, then adopt the new source if it
      opened and started. */
  function StartProgram(p: App, kind: SourceKind, key: string, opens: bool): seq<Action> {
    var i := FindSession(p.sessions, key);
    FindSessionMeaning(p.sessions, key);
    (if i < |p.sessions| then Teardown(i, p.sessions[i]) + [SetKind(i, kind)] else [PushSession(kind, key)])
    + (if opens then [AdoptSource(i), Select(key)] else [])
  }

  function StopSessionProgram(p: App, key: string): seq<Action> {
    var i := FindSession(p.sessions, key);
    FindSessionMeaning(p.sessions, key);
    if i == |p.sessions| then []
    else Teardown(i, p.sessions[i]) + [EraseSession(i)] + (if p.selected == key then [Select("")] else [])
  }

  /** StartRecording and StartRtspExport: replace what runs in the slot. */
  function StartExportProgram(p: App, i: nat, slot: Slot, starts: bool): seq<Action>
    requires i < |p.sessions|
  {
    var s := p.sessions[i];
    if s.source.None? then []
    else
      StopSlot(i, s, slot)
      + (if starts then [MakeSink(i, slot)] + Attach(s, p.nextObject)
         else if slot.Rtsp? then [MakeSink(i, slot), DestroySink(i, slot)]
         else [])
  }

  ghost function Program(op: Operation, p: App): seq<Action>
    requires MayCall(op, p)
  {
    match op
    case Start(kind, key, opens) => StartProgram(p, kind, key, opens)
    case StopSession(key) => StopSessionProgram(p, key)
    case StopAll => TeardownAll(p.sessions, |p.sessions|) + [ClearSessions]
    case StartExport(i, slot, starts) => StartExportProgram(p, i, slot, starts)
    case StopExport(i, slot) => StopSlot(i, p.sessions[i], slot)
    case AttachExternal(i, x) => Attach(p.sessions[i], x)
    case DetachExternal(i, x) => [RemoveSink(p.sessions[i].id, x)]
    case NewExternal => [MakeExternal]
    case DeleteExternal(x) => [DropExternal(x)]
    case ChangeSelection(key) => [Select(key)]
  }

  lemma CompletesOne(a: Action, p: App)
    requires Allowed(a, p) && Quiescent(Apply(a, p))
    ensures Completes([a], p) && Exec([a], p) == Apply(a, p)
  {
    ExecOne(a, p);
  }

  lemma CompletesThen(first: seq<Action>, second: seq<Action>, p: App)
    requires Completes(first, p) && Completes(second, Exec(first, p))
    ensures Completes(first + second, p) && Exec(first + second, p) == Exec(second, Exec(first, p))
  {
    ExecConcat(first, second, p);
  }

  lemma CompletesNothing(p: App)
    requires Quiescent(p)
    ensures Completes([], p) && Exec([], p) == p
  {
  }

  function Stripped(s: Session): Session {
    s.(source := None, recorder := None, rtsp := None)
  }

  lemma {:induction false} TeardownAllCompletes(p: App, n: nat)
    requires Quiescent(p) && n <= |p.sessions|
    ensures var prog := TeardownAll(p.sessions, n);
      && Completes(prog, p)
      && |Exec(prog, p).sessions| == |p.sessions|
      && forall k :: 0 <= k < |p.sessions| ==>
           Exec(prog, p).sessions[k] == if k < n then Stripped(p.sessions[k]) else p.sessions[k]
  {
    hide Quiescent, Allowed, Apply, AllAllowed, Exec, StopSlot, StopSource;
    if n == 0 {
      CompletesNothing(p);
    } else {
      TeardownAllCompletes(p, n - 1);
      var p1 := Exec(TeardownAll(p.sessions, n - 1), p);
      TeardownCompletes(p1, n - 1);
      CompletesThen(TeardownAll(p.sessions, n - 1), Teardown(n - 1, p.sessions[n - 1]), p);
    }
  }

  lemma StopAllCompletes(p: App)
    requires Quiescent(p)
    ensures Completes(TeardownAll(p.sessions, |p.sessions|) + [ClearSessions], p)
  {
    hide Quiescent, Allowed, Apply, AllAllowed, Exec, TeardownAll;
    var prog := TeardownAll(p.sessions, |p.sessions|);
    TeardownAllCompletes(p, |p.sessions|);
    var p1 := Exec(prog, p);
    ClearSessionsQuiescent(p1);
    CompletesOne(ClearSessions, p1);
    CompletesThen(prog, [ClearSessions], p);
  }

  /** EnsureSession: the session's record afterwards, idle and under its old identity if it
      existed. */
  lemma EnsureCompletes(p: App, kind: SourceKind, key: string)
    requires Quiescent(p)
    ensures var i := FindSession(p.sessions, key);
      var prog := StartProgram(p, kind, key, false);
      && i <= |p.sessions|
      && Completes(prog, p)
      && var q := Exec(prog, p);
         q.sessions == (if i < |p.sessions| then p.sessions[i := Stripped(p.sessions[i]).(kind := kind)]
                        else p.sessions + [Session(p.nextId, kind, key, None, None, None)])
         && q.nextObject == p.nextObject && q.external == p.external && KeepsExternal(p, q)
  {
    var i := FindSession(p.sessions, key);
    FindSessionMeaning(p.sessions, key);
    if i < |p.sessions| {
      TeardownCompletes(p, i);
      var p1 := Exec(Teardown(i, p.sessions[i]), p);
      SetKindQuiescent(p1, i, kind);
      EnsureExisting(p, p1, i, kind, key);
    } else {
      PushSessionQuiescent(p, kind, key);
      CompletesOne(PushSession(kind, key), p);
      assert StartProgram(p, kind, key, false) == [PushSession(kind, key)];
    }
  }

  lemma EnsureExisting(p: App, p1: App, i: nat, kind: SourceKind, key: string)
    requires i == FindSession(p.sessions, key) && i < |p.sessions|
    requires Completes(Teardown(i, p.sessions[i]), p) && p1 == Exec(Teardown(i, p.sessions[i]), p)
    requires p1.sessions == p.sessions[i := Stripped(p.sessions[i])] && p1.nextObject == p.nextObject
    requires p1.external == p.external && KeepsExternal(p, p1)
    requires Quiescent(Apply(SetKind(i, kind), p1))
    ensures var prog := StartProgram(p, kind, key, false);
      && Completes(prog, p)
      && Exec(prog, p).sessions == p.sessions[i := Stripped(p.sessions[i]).(kind := kind)]
      && Exec(prog, p).nextObject == p.nextObject
      && Exec(prog, p).external == p.external && KeepsExternal(p, Exec(prog, p))
  {
    hide Quiescent, AllAllowed, Exec, Teardown;
    CompletesOne(SetKind(i, kind), p1);
    CompletesThen(Teardown(i, p.sessions[i]), [SetKind(i, kind)], p);
    assert StartProgram(p, kind, key, false) == Teardown(i, p.sessions[i]) + [SetKind(i, kind)];
  }

  lemma AdoptCompletes(p: App, i: nat, key: string)
    requires Quiescent(p) && i < |p.sessions| && p.sessions[i].source.None?
    ensures var prog := [AdoptSource(i), Select(key)];
      && Completes(prog, p)
      && Exec(prog, p).sessions == p.sessions[i := p.sessions[i].(source := Some(p.nextObject))]
      && p.nextObject in Exec(prog, p).sources
      && Exec(prog, p).sources[p.nextObject].tee == None
      && Exec(prog, p).fanouts == p.fanouts
  {
    AdoptSourceQuiescent(p, i);
    var p1 := Apply(AdoptSource(i), p);
    hide Quiescent;
    ExternalQuiescent(p1, Select(key));
    ExecTwo(AdoptSource(i), Select(key), p);
  }

  lemma StartCompletes(p: App, kind: SourceKind, key: string, opens: bool)
    requires Quiescent(p)
    ensures var i := FindSession(p.sessions, key);
      var prog := StartProgram(p, kind, key, opens);
      && i <= |p.sessions|
      && Completes(prog, p)
      && var q := Exec(prog, p);
         i < |q.sessions|
         && q.sessions[i].source == (if opens then Some(p.nextObject) else None)
         && q.sessions[i].recorder.None? && q.sessions[i].rtsp.None?
         && (opens ==> p.nextObject in q.sources && q.sources[p.nextObject].tee == None)
         && (if i < |p.sessions|
             then q.sessions == p.sessions[i := q.sessions[i]]
                  && q.sessions[i].id == p.sessions[i].id && q.sessions[i].key == p.sessions[i].key
             else q.sessions == p.sessions + [q.sessions[i]]
                  && q.sessions[i].id == p.nextId && q.sessions[i].key == key)
         && KeepsExternal(p, q)
  {
    hide Quiescent, AllAllowed, Exec, Teardown, Allowed, Apply;
    EnsureCompletes(p, kind, key);
    if opens {
      var i := FindSession(p.sessions, key);
      var ensure := StartProgram(p, kind, key, false);
      AdoptCompletes(Exec(ensure, p), i, key);
      CompletesThen(ensure, [AdoptSource(i), Select(key)], p);
      assert StartProgram(p, kind, key, true) == ensure + [AdoptSource(i), Select(key)];
    }
  }

  lemma StopSessionCompletes(p: App, key: string)
    requires Quiescent(p)
    ensures Completes(StopSessionProgram(p, key), p)
  {
    var i := FindSession(p.sessions, key);
    FindSessionMeaning(p.sessions, key);
    if i == |p.sessions| {
      CompletesNothing(p);
    } else {
      hide Quiescent, AllAllowed, Exec, Teardown;
      var down := Teardown(i, p.sessions[i]);
      TeardownCompletes(p, i);
      var p1 := Exec(down, p);
      EraseSessionQuiescent(p1, i);
      CompletesOne(EraseSession(i), p1);
      CompletesThen(down, [EraseSession(i)], p);
      if p.selected == key {
        var p2 := Apply(EraseSession(i), p1);
        ExternalQuiescent(p2, Select(""));
        CompletesOne(Select(""), p2);
        CompletesThen(down + [EraseSession(i)], [Select("")], p);
      } else {
        assert StopSessionProgram(p, key) == down + [EraseSession(i)];
      }
    }
  }

  lemma StartExportCompletes(p: App, i: nat, slot: Slot, starts: bool)
    requires Quiescent(p) && i < |p.sessions|
    ensures Completes(StartExportProgram(p, i, slot, starts), p)
  {
    var s := p.sessions[i];
    if s.source.None? {
      CompletesNothing(p);
    } else {
      hide Quiescent, AllAllowed, Exec, Allowed, Apply;
      var stop := StopSlot(i, s, slot);
      StopSlotCompletes(p, i, slot);
      var p1 := Exec(stop, p);
      if starts {
        MakeAndAttachCompletes(p1, i, slot);
        assert MakeAndAttach(p1, i, slot) == [MakeSink(i, slot)] + Attach(s, p.nextObject);
        CompletesThen(stop, MakeAndAttach(p1, i, slot), p);
      } else if slot.Rtsp? {
        MakeAndDropCompletes(p1, i, slot);
        CompletesThen(stop, [MakeSink(i, slot), DestroySink(i, slot)], p);
      } else {
        assert StartExportProgram(p, i, slot, starts) == stop;
      }
    }
  }

  /** Every operation, called between operations as its callers may, does nothing that is not
      allowed and re-establishes the session manager's invariant. */
  lemma OperationCompletes(op: Operation, p: App)
    requires Quiescent(p) && MayCall(op, p)
    ensures Completes(Program(op, p), p)
  {
    hide Quiescent, AllAllowed, Exec, StartProgram, StopSessionProgram, StartExportProgram, StopSlot, Attach;
    match op
    case Start(kind, key, opens) => StartCompletes(p, kind, key, opens);
    case StopSession(key) => StopSessionCompletes(p, key);
    case StopAll => StopAllCompletes(p);
    case StartExport(i, slot, starts) => StartExportCompletes(p, i, slot, starts);
    case StopExport(i, slot) => StopSlotCompletes(p, i, slot);
    case AttachExternal(i, x) => AttachExternalCompletes(p, i, x);
    case DetachExternal(i, x) => DetachExternalCompletes(p, i, x);
    case NewExternal =>
      ExternalQuiescent(p, MakeExternal);
      CompletesOne(MakeExternal, p);
    case DeleteExternal(x) =>
      ExternalQuiescent(p, DropExternal(x));
      CompletesOne(DropExternal(x), p);
    case ChangeSelection(key) =>
      ExternalQuiescent(p, Select(key));
      CompletesOne(Select(key), p);
  }

  // ---- restart in place --------------------------------------------------------------

  /** Restart in place keeps the session: same position, id and key, every other record
      untouched, and no recorder or RTSP export carried over. */
  lemma RestartKeepsIdentity(p: App, kind: SourceKind, key: string, opens: bool)
    requires Quiescent(p) && FindSession(p.sessions, key) < |p.sessions|
    ensures Completes(StartProgram(p, kind, key, opens), p)
    ensures var i, q := FindSession(p.sessions, key), Exec(StartProgram(p, kind, key, opens), p);
      && |q.sessions| == |p.sessions|
      && q.sessions[i].id == p.sessions[i].id && q.sessions[i].key == key
      && q.sessions[i].recorder.None? && q.sessions[i].rtsp.None?
      && forall j :: 0 <= j < |p.sessions| && j != i ==> q.sessions[j] == p.sessions[j]
  {
    hide Quiescent, AllAllowed, Exec, StartProgram;
    FindSessionMeaning(p.sessions, key);
    StartCompletes(p, kind, key, opens);
  }

  /** After a restart in place an outside sink, such as the qualification tap, is still in the
      session's fanout, but the new source tees to nothing: it receives no frame until some
      sink is attached again. */
  lemma RestartSilencesOutsideSinks(p: App, kind: SourceKind, key: string, x: nat)
    requires Quiescent(p) && FindSession(p.sessions, key) < |p.sessions|
    requires var i := FindSession(p.sessions, key);
      p.sessions[i].id in p.fanouts && x in p.fanouts[p.sessions[i].id] && x in p.external
    ensures Completes(StartProgram(p, kind, key, true), p)
    ensures var i, q := FindSession(p.sessions, key), Exec(StartProgram(p, kind, key, true), p);
      && i < |q.sessions| && q.sessions[i].source.Some? && q.sessions[i].source.value in q.sources
      && q.sessions[i].id in q.fanouts && x in q.fanouts[q.sessions[i].id]
      && q.sources[q.sessions[i].source.value].tee == None
  {
    hide Quiescent, AllAllowed, Exec, StartProgram;
    StartCompletes(p, kind, key, true);
  }
}
