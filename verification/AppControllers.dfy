/** The session manager as the render thread runs it. Each method performs, action by action,
    the program that the interleaving proof assumes for its operation, or ends the process at the
    reset of a recorder whose pipeline could not be built. */
module AppControllers {
  import opened VideoFrames
  import opened TeeProtocol
  import opened SessionPrograms
  import opened ProcessEnds

  class AppController {
    var sessions: seq<Session>
    var selectedKey: string
    var nextId: nat

    // The objects the sessions point to.
    var sources: map<nat, Source>
    var fanouts: map<nat, seq<nat>>
    var sinks: set<nat>
    var external: set<nat>
    var ownedBy: map<nat, nat>
    var nextObject: nat

    /** What the recorders' writer threads did meanwhile, and whether the process is gone. */
    var failed: set<nat>
    var ended: bool

    /** Every action performed so far. */
    ghost var trace: seq<Action>

    function State(): App
      reads this
    {
      App(sessions, selectedKey, nextId, sources, fanouts, sinks, external, ownedBy, nextObject, failed)
    }

    constructor ()
      ensures State() == EMPTY_APP && trace == [] && !ended
    {
      sessions, selectedKey, nextId := [], "", 1;
      sources, fanouts, sinks, external, ownedBy, nextObject := map[], map[], {}, {}, map[], 0;
      failed, ended := {}, false;
      trace := [];
    }

    /** The process ended exactly if `prog` ends it; otherwise exactly the actions of `prog` were
        performed since `before`, and the manager is between operations again. */
    ghost predicate Did(prog: seq<Action>, before: App, traceBefore: seq<Action>)
      reads this
    {
      && Completes(prog, before)
      && (ended <==> EndsProcess(prog, before))
      && (!ended ==> State() == Exec(prog, before) && trace == traceBefore + prog)
    }

    /** Performs one action of a program whose remaining actions are `rest`. */
    method Do(a: Action, ghost rest: seq<Action>)
      requires !ended && AllAllowed([a] + rest, State())
      modifies this
      ensures ended == old(Fatal(a, State()))
      ensures old(Allowed(a, State())) && (!ended ==> State() == Apply(a, old(State())))
      ensures !ended ==> AllAllowed(rest, State()) && Exec(rest, State()) == old(Exec([a] + rest, State()))
      ensures ended ==> old(EndsProcess([a] + rest, State()))
      ensures !ended ==> (old(EndsProcess([a] + rest, State())) <==> EndsProcess(rest, State()))
      ensures !ended ==> trace == old(trace) + [a]
    {
      hide Allowed, Apply, Fatal, AllAllowed, Exec, EndsProcess;
      FirstAction(a, rest, State());
      if Fatal(a, State()) {
        ended := true;
        return;
      }
      var p := Apply(a, State());
      sessions, selectedKey, nextId := p.sessions, p.selected, p.nextId;
      sources, fanouts, sinks := p.sources, p.fanouts, p.sinks;
      external, ownedBy, nextObject, failed := p.external, p.ownedBy, p.nextObject, p.failed;
      trace := trace + [a];
    }

    /** AttachFrameSink for a sink of the caller's; refuses a session without a source. */
    method AttachFrameSink(i: nat, x: nat) returns (ok: bool)
      requires !ended && Quiescent(State()) && i < |sessions| && x in external
      modifies this
      ensures ok == old(sessions)[i].source.Some?
      ensures Did(Attach(old(sessions)[i], x), old(State()), old(trace))
    {
      hide Quiescent, Allowed, Apply;
      AttachExternalCompletes(State(), i, x);
      HarmlessSurvives(Attach(sessions[i], x), State());
      ok := Tee(i, x);
    }

    /** Into the fanout, then the fanout into the source. */
    method Tee(i: nat, x: nat) returns (ok: bool)
      requires !ended && i < |sessions| && AllAllowed(Attach(sessions[i], x), State())
      modifies this
      ensures !ended
      ensures ok == old(sessions)[i].source.Some?
      ensures State() == old(Exec(Attach(sessions[i], x), State()))
      ensures trace == old(trace) + Attach(old(sessions)[i], x)
    {
      hide Quiescent, Allowed, Apply;
      var s := sessions[i];
      if s.source.None? {
        return false;
      }
      assert Attach(s, x) == [AddSink(s.id, x)] + [SetTee(s.source.value, Some(s.id))];
      Do(AddSink(s.id, x), [SetTee(s.source.value, Some(s.id))]);
      assert [SetTee(s.source.value, Some(s.id))] == [SetTee(s.source.value, Some(s.id))] + [];
      Do(SetTee(s.source.value, Some(s.id)), []);
      return true;
    }

    method DetachFrameSink(i: nat, x: nat)
      requires !ended && Quiescent(State()) && i < |sessions| && x in external
      modifies this
      ensures Did([RemoveSink(old(sessions)[i].id, x)], old(State()), old(trace))
    {
      hide Quiescent, Allowed, Apply;
      DetachExternalCompletes(State(), i, x);
      HarmlessSurvives([RemoveSink(sessions[i].id, x)], State());
      assert [RemoveSink(sessions[i].id, x)] == [RemoveSink(sessions[i].id, x)] + [];
      Do(RemoveSink(sessions[i].id, x), []);
    }

    /** StopRecording and StopRtspExport. */
    method StopExport(i: nat, slot: Slot)
      requires !ended && Quiescent(State()) && i < |sessions|
      modifies this
      ensures Did(StopSlot(i, old(sessions)[i], slot), old(State()), old(trace))
      ensures !ended ==> State() == old(State()).(sessions := sessions, fanouts := fanouts, sinks := sinks)
      ensures !ended ==> sessions == old(sessions)[i := PutSink(old(sessions)[i], slot, None)]
    {
      hide Quiescent, Allowed, Apply;
      StopSlotCompletes(State(), i, slot);
      var s := sessions[i];
      match SinkIn(s, slot)
      case None =>
      case Some(x) =>
        var stop, destroy := StopSink(i, slot), DestroySink(i, slot);
        assert StopSlot(i, s, slot) == [RemoveSink(s.id, x)] + [stop, destroy];
        Do(RemoveSink(s.id, x), [stop, destroy]);
        assert [stop, destroy] == [stop] + [destroy];
        Do(stop, [destroy]);
        assert [destroy] == [destroy] + [];
        Do(destroy, []);
    }

    method TeardownSession(i: nat)
      requires !ended && Quiescent(State()) && i < |sessions|
      modifies this
      ensures Did(Teardown(i, old(sessions)[i]), old(State()), old(trace))
      ensures !ended ==> sessions == old(sessions)[i := Stripped(old(sessions)[i])]
      ensures !ended ==>
        selectedKey == old(selectedKey) && nextObject == old(nextObject) && nextId == old(nextId)
    {
      hide Quiescent, Allowed, Apply, AllAllowed, Exec, EndsProcess, StopSlot, StopSource;
      ghost var p := State();
      TeardownCompletes(p, i);
      StopSlotCompletes(p, i, Rtsp);
      StopExport(i, Rtsp);
      ghost var p1 := State();
      StopSlotCompletes(p1, i, Recorder);
      StopExport(i, Recorder);
      if ended {
        return;
      }
      ghost var p2 := State();
      ShutDownSource(i);
      TeardownSteps(p, i, p1, p2);
    }

    /** Clear the tee, stop and join the producer, then drop the source. */
    method ShutDownSource(i: nat)
      requires !ended && Quiescent(State()) && i < |sessions|
      requires sessions[i].recorder.None? && sessions[i].rtsp.None?
      modifies this
      ensures !ended
      ensures Did(StopSource(i, old(sessions)[i]), old(State()), old(trace))
    {
      hide Quiescent, Allowed, Apply;
      StopSourceCompletes(State(), i);
      SourceSurvives(State(), i);
      var s := sessions[i];
      if s.source.Some? {
        var src := s.source.value;
        var clear, join, drop := ClearRunning(src), JoinThread(src), DestroySource(i);
        assert StopSource(i, s) == [SetTee(src, None)] + [clear, join, drop];
        Do(SetTee(src, None), [clear, join, drop]);
        assert [clear, join, drop] == [clear] + [join, drop];
        Do(clear, [join, drop]);
        assert [join, drop] == [join] + [drop];
        Do(join, [drop]);
        assert [drop] == [drop] + [];
        Do(drop, []);
      }
    }

    /** StartV4l2 and StartGst: `opens` says whether the new source opened and started. A
        failure leaves the session idle, with what ran before already torn down. */
    method Start(kind: SourceKind, key: string, opens: bool)
      requires !ended && Quiescent(State())
      modifies this
      ensures Did(StartProgram(old(State()), kind, key, opens), old(State()), old(trace))
    {
      hide Quiescent, Allowed, Apply, Teardown;
      StartCompletes(State(), kind, key, false);
      StartCompletes(State(), kind, key, opens);
      var i := FindSession(sessions, key);
      FindSessionMeaning(sessions, key);
      ghost var p := State();
      ghost var ensure := StartProgram(p, kind, key, false);
      if i < |sessions| {
        TeardownCompletes(p, i);
        TeardownSession(i);
        StartEnds(p, kind, key, opens);
        if ended {
          return;
        }
        ghost var p1 := State();
        assert ensure == Teardown(i, p.sessions[i]) + [SetKind(i, kind)];
        Unfold(Teardown(i, p.sessions[i]), [SetKind(i, kind)], p);
        assert [SetKind(i, kind)] == [SetKind(i, kind)] + [];
        Do(SetKind(i, kind), []);
      } else {
        assert ensure == [PushSession(kind, key)] + [];
        StartEnds(p, kind, key, opens);
        Do(PushSession(kind, key), []);
      }
      if opens {
        ghost var adopt := [AdoptSource(i), Select(key)];
        assert StartProgram(p, kind, key, true) == ensure + adopt;
        Unfold(ensure, adopt, p);
        assert adopt == [AdoptSource(i)] + [Select(key)];
        Do(AdoptSource(i), [Select(key)]);
        assert [Select(key)] == [Select(key)] + [];
        Do(Select(key), []);
      }
    }

    /** StartRecording and StartRtspExport: replaces what runs in the slot. `starts` says
        whether the new sink started; a recorder that did not is never adopted. */
    method StartExport(i: nat, slot: Slot, starts: bool)
      requires !ended && Quiescent(State()) && i < |sessions|
      modifies this
      ensures Did(StartExportProgram(old(State()), i, slot, starts), old(State()), old(trace))
    {
      hide Quiescent, Allowed, Apply, StopSlot;
      ghost var p := State();
      StartExportCompletes(p, i, slot, starts);
      var s := sessions[i];
      if s.source.None? {
        return;
      }
      ghost var stop := StopSlot(i, s, slot);
      StopSlotCompletes(p, i, slot);
      StartExportEnds(p, i, slot, starts);
      StopExport(i, slot);
      if ended {
        return;
      }
      ghost var p1 := State();
      var x := nextObject;
      if starts {
        MakeAndAttachCompletes(p1, i, slot);
        assert MakeAndAttach(p1, i, slot) == [MakeSink(i, slot)] + Attach(s, x);
        assert StartExportProgram(p, i, slot, starts) == stop + ([MakeSink(i, slot)] + Attach(s, x));
        Unfold(stop, [MakeSink(i, slot)] + Attach(s, x), p);
        Do(MakeSink(i, slot), Attach(s, x));
        SinkMade(p1, i, slot);
        var ok := Tee(i, x);
      } else if slot.Rtsp? {
        var make, drop := MakeSink(i, slot), DestroySink(i, slot);
        assert StartExportProgram(p, i, slot, starts) == stop + [make, drop];
        Unfold(stop, [make, drop], p);
        assert [make, drop] == [make] + [drop];
        Do(make, [drop]);
        assert [drop] == [drop] + [];
        Do(drop, []);
      } else {
        assert StartExportProgram(p, i, slot, starts) == stop;
      }
    }

    method StopSession(key: string)
      requires !ended && Quiescent(State())
      modifies this
      ensures Did(StopSessionProgram(old(State()), key), old(State()), old(trace))
    {
      hide Quiescent, Allowed, Apply, Teardown;
      ghost var p := State();
      StopSessionCompletes(p, key);
      var i := FindSession(sessions, key);
      FindSessionMeaning(sessions, key);
      if i == |sessions| {
        return;
      }
      ghost var down := Teardown(i, p.sessions[i]);
      TeardownCompletes(p, i);
      StopSessionEnds(p, key);
      TeardownSession(i);
      if ended {
        return;
      }
      if selectedKey == key {
        assert StopSessionProgram(p, key) == down + ([EraseSession(i)] + [Select("")]);
        Unfold(down, [EraseSession(i)] + [Select("")], p);
        Do(EraseSession(i), [Select("")]);
        assert [Select("")] == [Select("")] + [];
        Do(Select(""), []);
      } else {
        assert StopSessionProgram(p, key) == down + ([EraseSession(i)] + []);
        Unfold(down, [EraseSession(i)] + [], p);
        Do(EraseSession(i), []);
      }
    }

    method StopAll()
      requires !ended && Quiescent(State())
      modifies this
      ensures Did(Program(Operation.StopAll, old(State())), old(State()), old(trace))
      ensures !ended ==> sessions == []
    {
      hide Quiescent, Allowed, AllAllowed, Exec, Teardown, EndsProcess;
      ghost var p := State();
      StopAllCompletes(p);
      StopAllEnds(p);
      CompletesNothing(p);
      TeardownAllEnds(p, 0);
      for i := 0 to |sessions|
        invariant !ended && |sessions| == |p.sessions|
        invariant Completes(TeardownAll(p.sessions, i), p) && State() == Exec(TeardownAll(p.sessions, i), p)
        invariant trace == old(trace) + TeardownAll(p.sessions, i)
        invariant !EndsProcess(TeardownAll(p.sessions, i), p)
      {
        TeardownAllCompletes(p, i);
        ExecKeepsFailed(TeardownAll(p.sessions, i), p);
        ghost var p1 := State();
        TeardownCompletes(p1, i);
        TeardownAllEnds(p, i);
        TeardownAllEnds(p, i + 1);
        TeardownSession(i);
        if ended {
          assert RecorderFailed(p, i);
          return;
        }
        CompletesThen(TeardownAll(p.sessions, i), Teardown(i, p.sessions[i]), p);
      }
      ghost var all := TeardownAll(p.sessions, |p.sessions|);
      TeardownAllCompletes(p, |p.sessions|);
      TeardownAllEnds(p, |p.sessions|);
      ClearSessionsQuiescent(State());
      CompletesOne(ClearSessions, State());
      CompletesThen(all, [ClearSessions], p);
      assert [ClearSessions] == [ClearSessions] + [];
      Do(ClearSessions, []);
      CompletesNothing(State());
    }
  }

  lemma FirstAction(a: Action, rest: seq<Action>, p: App)
    requires AllAllowed([a] + rest, p)
    ensures Allowed(a, p) && AllAllowed(rest, Apply(a, p))
    ensures Exec([a] + rest, p) == Exec(rest, Apply(a, p))
    ensures EndsProcess([a] + rest, p) <==> Fatal(a, p) || EndsProcess(rest, Apply(a, p))
  {
    hide Allowed, Apply, Fatal;
    assert ([a] + rest)[0] == a && ([a] + rest)[1..] == rest;
  }

  lemma SourceSurvives(p: App, i: nat)
    requires i < |p.sessions| && AllAllowed(StopSource(i, p.sessions[i]), p)
    ensures !EndsProcess(StopSource(i, p.sessions[i]), p)
  {
    hide AllAllowed;
    HarmlessSurvives(StopSource(i, p.sessions[i]), p);
  }

  lemma SinkMade(p: App, i: nat, slot: Slot)
    requires i < |p.sessions| && Allowed(MakeSink(i, slot), p)
    ensures var q := Apply(MakeSink(i, slot), p);
      |q.sessions| == |p.sessions| && Attach(q.sessions[i], p.nextObject) == Attach(p.sessions[i], p.nextObject)
  {
  }

  /** Stopping the RTSP export, the recording and the source in turn is the teardown program. */
  lemma TeardownSteps(p: App, i: nat, p1: App, p2: App)
    requires Quiescent(p) && i < |p.sessions|
    requires Completes(StopSlot(i, p.sessions[i], Rtsp), p) && p1 == Exec(StopSlot(i, p.sessions[i], Rtsp), p)
    requires p1.sessions == p.sessions[i := PutSink(p.sessions[i], Rtsp, None)]
    requires Completes(StopSlot(i, p1.sessions[i], Recorder), p1)
    requires p2 == Exec(StopSlot(i, p1.sessions[i], Recorder), p1)
    requires p2.sessions == p1.sessions[i := PutSink(p1.sessions[i], Recorder, None)]
    requires Completes(StopSource(i, p2.sessions[i]), p2)
    ensures Completes(Teardown(i, p.sessions[i]), p)
    ensures Exec(Teardown(i, p.sessions[i]), p) == Exec(StopSource(i, p2.sessions[i]), p2)
    ensures Teardown(i, p.sessions[i]) ==
      StopSlot(i, p.sessions[i], Rtsp) + StopSlot(i, p1.sessions[i], Recorder) + StopSource(i, p2.sessions[i])
  {
    hide Quiescent, Allowed, Apply, AllAllowed, Exec;
    var s := p.sessions[i];
    assert StopSlot(i, p1.sessions[i], Recorder) == StopSlot(i, s, Recorder);
    assert StopSource(i, p2.sessions[i]) == StopSource(i, s);
    CompletesThen(StopSlot(i, s, Rtsp), StopSlot(i, s, Recorder), p);
    CompletesThen(StopSlot(i, s, Rtsp) + StopSlot(i, s, Recorder), StopSource(i, s), p);
  }
}
