/** When an outside sink that is registered with a session receives its frames, operation by
    operation. */
module SinkFeeds {
  import opened VideoFrames
  import opened TeeProtocol
  import opened SessionPrograms

  /** A live source of the session tees to the session's fanout. */
  ghost predicate Fed(sources: map<nat, Source>, id: nat) {
    exists r: nat :: r in sources && sources[r].owner == id && sources[r].tee == Some(id)
  }

  predicate Registered(p: App, id: nat, x: nat) {
    id in p.fanouts && x in p.fanouts[id]
  }

  // ---- what each operation does to the sources ---------------------------------------------

  function WithoutSource(p: App, i: nat): map<nat, Source>
    requires i < |p.sessions|
  {
    match p.sessions[i].source
    case None => p.sources
    case Some(src) => p.sources - {src}
  }

  lemma TeardownSources(p: App, i: nat)
    requires Quiescent(p) && i < |p.sessions|
    ensures AllAllowed(Teardown(i, p.sessions[i]), p)
    ensures Exec(Teardown(i, p.sessions[i]), p).sources == WithoutSource(p, i)
  {
    hide Quiescent, Allowed, Apply, AllAllowed, Exec, EndsProcess;
    var s := p.sessions[i];
    TeardownCompletes(p, i);
    StopSlotCompletes(p, i, Rtsp);
    var p1 := Exec(StopSlot(i, s, Rtsp), p);
    StopSlotCompletes(p1, i, Recorder);
    assert StopSlot(i, p1.sessions[i], Recorder) == StopSlot(i, s, Recorder);
    var p2 := Exec(StopSlot(i, s, Recorder), p1);
    StopSourceCompletes(p2, i);
    assert StopSource(i, p2.sessions[i]) == StopSource(i, s);
    ExecConcat(StopSlot(i, s, Rtsp), StopSlot(i, s, Recorder), p);
    ExecConcat(StopSlot(i, s, Rtsp) + StopSlot(i, s, Recorder), StopSource(i, s), p);
  }

  /** Actions that leave every source as it is. */
  predicate NoSourceAction(a: Action) {
    !a.AdoptSource? && !a.SetTee? && !a.ClearRunning? && !a.JoinThread? && !a.DestroySource?
  }

  lemma {:induction false} SourcesUntouched(prog: seq<Action>, p: App)
    requires AllAllowed(prog, p) && forall a :: a in prog ==> NoSourceAction(a)
    ensures Exec(prog, p).sources == p.sources
  {
    hide Allowed;
    if |prog| > 0 {
      assert prog[0] in prog;
      SourcesUntouched(prog[1..], Apply(prog[0], p));
    }
  }

  lemma ThenUntouched(first: seq<Action>, rest: seq<Action>, p: App)
    requires AllAllowed(first + rest, p) && forall a :: a in rest ==> NoSourceAction(a)
    ensures AllAllowed(first, p) && Exec(first + rest, p).sources == Exec(first, p).sources
  {
    Unfold(first, rest, p);
    hide Allowed, AllAllowed, Exec, NoSourceAction;
    SourcesUntouched(rest, Exec(first, p));
  }

  /** A restart takes the old source away; the new one tees to nothing. */
  lemma StartSources(p: App, kind: SourceKind, key: string, opens: bool)
    requires Quiescent(p)
    ensures AllAllowed(StartProgram(p, kind, key, opens), p)
    ensures var i := FindSession(p.sessions, key);
      var kept := if i < |p.sessions| then WithoutSource(p, i) else p.sources;
      var q := Exec(StartProgram(p, kind, key, opens), p);
      && (!opens ==> q.sources == kept)
      && (opens ==> exists owner: nat :: q.sources == kept[p.nextObject := Source(owner, None, true, false)])
  {
    hide Quiescent, AllAllowed, Exec, Teardown, Allowed;
    StartCompletes(p, kind, key, opens);
    EnsureCompletes(p, kind, key);
    var i := FindSession(p.sessions, key);
    FindSessionMeaning(p.sessions, key);
    var ensure := StartProgram(p, kind, key, false);
    if i < |p.sessions| {
      TeardownSources(p, i);
      assert ensure == Teardown(i, p.sessions[i]) + [SetKind(i, kind)];
      ThenUntouched(Teardown(i, p.sessions[i]), [SetKind(i, kind)], p);
    } else {
      assert ensure == [PushSession(kind, key)];
      SourcesUntouched(ensure, p);
    }
    if opens {
      var p1 := Exec(ensure, p);
      AdoptSources(p1, i, key);
      assert StartProgram(p, kind, key, true) == ensure + [AdoptSource(i), Select(key)];
      Unfold(ensure, [AdoptSource(i), Select(key)], p);
    }
  }

  lemma AdoptSources(p: App, i: nat, key: string)
    requires Quiescent(p) && i < |p.sessions| && p.sessions[i].source.None?
    ensures AllAllowed([AdoptSource(i), Select(key)], p)
    ensures Exec([AdoptSource(i), Select(key)], p).sources
         == p.sources[p.nextObject := Source(p.sessions[i].id, None, true, false)]
  {
    AdoptCompletes(p, i, key);
    AdoptSourceQuiescent(p, i);
    hide Quiescent;
    ExecTwo(AdoptSource(i), Select(key), p);
  }

  lemma StopSessionSources(p: App, key: string)
    requires Quiescent(p)
    ensures AllAllowed(StopSessionProgram(p, key), p)
    ensures var i, q := FindSession(p.sessions, key), Exec(StopSessionProgram(p, key), p);
      if i < |p.sessions| then q.sources == WithoutSource(p, i) && p.sessions[i].id !in q.fanouts
      else q == p
  {
    hide Quiescent, AllAllowed, Exec, Teardown, Allowed;
    StopSessionCompletes(p, key);
    var i := FindSession(p.sessions, key);
    FindSessionMeaning(p.sessions, key);
    if i < |p.sessions| {
      TeardownCompletes(p, i);
      TeardownSources(p, i);
      var down := Teardown(i, p.sessions[i]);
      var rest := [EraseSession(i)] + if p.selected == key then [Select("")] else [];
      assert StopSessionProgram(p, key) == down + rest;
      ThenUntouched(down, rest, p);
      Unfold(down, rest, p);
      var p1, tail := Exec(down, p), if p.selected == key then [Select("")] else [];
      Unfold([EraseSession(i)], tail, p1);
      ErasesFanout(p1, i);
      SelectKeepsFanouts(tail, Exec([EraseSession(i)], p1));
    } else {
      EmptyProgram(StopSessionProgram(p, key), p);
    }
  }

  lemma EmptyProgram(prog: seq<Action>, p: App)
    requires |prog| == 0
    ensures AllAllowed(prog, p) && Exec(prog, p) == p
  {
  }

  lemma OneStep(a: Action, p: App)
    requires AllAllowed([a], p)
    ensures Allowed(a, p) && Exec([a], p) == Apply(a, p)
  {
    hide Allowed, Apply;
    assert |[a][1..]| == 0;
  }

  lemma ErasesFanout(p: App, i: nat)
    requires i < |p.sessions| && AllAllowed([EraseSession(i)], p)
    ensures p.sessions[i].id !in Exec([EraseSession(i)], p).fanouts
  {
    OneStep(EraseSession(i), p);
  }

  lemma {:induction false} SelectKeepsFanouts(prog: seq<Action>, p: App)
    requires AllAllowed(prog, p) && forall a :: a in prog ==> a.Select?
    ensures Exec(prog, p).fanouts == p.fanouts
  {
    if |prog| > 0 {
      assert prog[0] in prog;
      SelectKeepsFanouts(prog[1..], Apply(prog[0], p));
    }
  }

  /** Stopping everything leaves no session's fanout. */
  lemma StopAllUnregisters(p: App, i: nat)
    requires Quiescent(p) && i < |p.sessions|
    ensures AllAllowed(TeardownAll(p.sessions, |p.sessions|) + [ClearSessions], p)
    ensures p.sessions[i].id !in Exec(TeardownAll(p.sessions, |p.sessions|) + [ClearSessions], p).fanouts
  {
    hide Quiescent, AllAllowed, Exec, TeardownAll, Allowed;
    StopAllCompletes(p);
    var down := TeardownAll(p.sessions, |p.sessions|);
    TeardownAllCompletes(p, |p.sessions|);
    Unfold(down, [ClearSessions], p);
    var p1 := Exec(down, p);
    assert p1.sessions[i].id == p.sessions[i].id;
    ClearsFanout(p1, i);
  }

  lemma ClearsFanout(p: App, i: nat)
    requires i < |p.sessions| && AllAllowed([ClearSessions], p)
    ensures p.sessions[i].id !in Exec([ClearSessions], p).fanouts
  {
    OneStep(ClearSessions, p);
    assert p.sessions[i].id in SessionIds(p.sessions);
  }

  function TeedTo(p: App, i: nat): map<nat, Source>
    requires i < |p.sessions| && p.sessions[i].source.Some? && p.sessions[i].source.value in p.sources
  {
    var src := p.sessions[i].source.value;
    p.sources[src := p.sources[src].(tee := Some(p.sessions[i].id))]
  }

  lemma AttachSources(p: App, i: nat, x: nat)
    requires i < |p.sessions| && AllAllowed(Attach(p.sessions[i], x), p)
    ensures var s, q := p.sessions[i], Exec(Attach(p.sessions[i], x), p);
      if s.source.Some? then s.source.value in p.sources && q.sources == TeedTo(p, i) else q.sources == p.sources
  {
    var s := p.sessions[i];
    hide AllAllowed, Exec;
    if s.source.Some? {
      var add, tee := AddSink(s.id, x), SetTee(s.source.value, Some(s.id));
      assert Attach(s, x) == [add] + [tee];
      Unfold([add], [tee], p);
      OneStep(add, p);
      OneStep(tee, Exec([add], p));
    } else {
      EmptyProgram(Attach(s, x), p);
    }
  }

  lemma StartExportSources(p: App, i: nat, slot: Slot, starts: bool)
    requires Quiescent(p) && i < |p.sessions|
    ensures AllAllowed(StartExportProgram(p, i, slot, starts), p)
    ensures var s, q := p.sessions[i], Exec(StartExportProgram(p, i, slot, starts), p);
      if starts && s.source.Some? then s.source.value in p.sources && q.sources == TeedTo(p, i)
      else q.sources == p.sources
  {
    hide Quiescent, AllAllowed, Exec, Allowed, StopSlot, EndsProcess;
    StartExportCompletes(p, i, slot, starts);
    var s := p.sessions[i];
    if s.source.None? {
      EmptyProgram(StartExportProgram(p, i, slot, starts), p);
    } else {
      StopSlotCompletes(p, i, slot);
      var stop := StopSlot(i, s, slot);
      var p1 := Exec(stop, p);
      if starts {
        var make := [MakeSink(i, slot)];
        assert StartExportProgram(p, i, slot, starts) == stop + (make + Attach(s, p.nextObject));
        Unfold(stop, make + Attach(s, p.nextObject), p);
        Unfold(make, Attach(s, p.nextObject), p1);
        SourcesUntouched(make, p1);
        MadeSinkSession(p1, i, slot);
        AttachSources(Exec(make, p1), i, p.nextObject);
      } else {
        var rest := if slot.Rtsp? then [MakeSink(i, slot), DestroySink(i, slot)] else [];
        assert StartExportProgram(p, i, slot, starts) == stop + rest;
        ThenUntouched(stop, rest, p);
      }
    }
  }

  lemma MadeSinkSession(p: App, i: nat, slot: Slot)
    requires i < |p.sessions| && AllAllowed([MakeSink(i, slot)], p)
    ensures var q := Exec([MakeSink(i, slot)], p);
      i < |q.sessions| && q.sessions[i].id == p.sessions[i].id && q.sessions[i].source == p.sessions[i].source
  {
    OneStep(MakeSink(i, slot), p);
  }

  // ---- what that does to a session's sinks -----------------------------------------------------

  lemma RemovalFeeds(p: App, j: nat, i: nat)
    requires Quiescent(p) && i < |p.sessions| && j < |p.sessions|
    ensures Fed(WithoutSource(p, j), p.sessions[i].id) <==> Fed(p.sources, p.sessions[i].id) && i != j
  {
    var id, kept := p.sessions[i].id, WithoutSource(p, j);
    assert SessionOk(p, p.sessions[i]) && SessionOk(p, p.sessions[j]);
    if i != j && Fed(p.sources, id) {
      var r: nat :| r in p.sources && p.sources[r].owner == id && p.sources[r].tee == Some(id);
      assert r in kept && kept[r] == p.sources[r];
    }
  }

  lemma NewSourceFeeds(sources: map<nat, Source>, r: nat, owner: nat, id: nat)
    requires r !in sources
    ensures Fed(sources[r := Source(owner, None, true, false)], id) <==> Fed(sources, id)
  {
    var more := sources[r := Source(owner, None, true, false)];
    if Fed(sources, id) {
      var k: nat :| k in sources && sources[k].owner == id && sources[k].tee == Some(id);
      assert k in more && more[k] == sources[k];
    }
  }

  lemma TeeFeeds(p: App, j: nat, i: nat)
    requires Quiescent(p) && i < |p.sessions| && j < |p.sessions|
    requires p.sessions[j].source.Some? && p.sessions[j].source.value in p.sources
    ensures Fed(TeedTo(p, j), p.sessions[i].id) <==> Fed(p.sources, p.sessions[i].id) || i == j
  {
    var id, src, after := p.sessions[i].id, p.sessions[j].source.value, TeedTo(p, j);
    assert SessionOk(p, p.sessions[i]) && SessionOk(p, p.sessions[j]);
    assert src in after && after[src].owner == p.sessions[j].id && after[src].tee == Some(p.sessions[j].id);
    if Fed(p.sources, id) {
      var r: nat :| r in p.sources && p.sources[r].owner == id && p.sources[r].tee == Some(id);
      assert r in after && after[r].owner == id && (r != src ==> after[r] == p.sources[r]);
    }
  }

  // ---- when a registered sink is fed -------------------------------------------------------------

  /** The operation restarts session i in place. */
  predicate Restarts(op: Operation, p: App, i: nat) {
    i < |p.sessions| && op.Start? && op.key == p.sessions[i].key
  }

  /** The operation attaches some sink to session i, and its source is there. */
  predicate Attaches(op: Operation, p: App, i: nat) {
    && i < |p.sessions| && p.sessions[i].source.Some?
    && ((op.AttachExternal? && op.i == i) || (op.StartExport? && op.i == i && op.starts))
  }

  lemma StartFeeds(p: App, kind: SourceKind, key: string, opens: bool, i: nat)
    requires Quiescent(p) && i < |p.sessions|
    ensures AllAllowed(StartProgram(p, kind, key, opens), p)
    ensures Fed(Exec(StartProgram(p, kind, key, opens), p).sources, p.sessions[i].id)
       <==> Fed(p.sources, p.sessions[i].id) && key != p.sessions[i].key
  {
    StartSources(p, kind, key, opens);
    FindSessionMeaning(p.sessions, key);
    var j := FindSession(p.sessions, key);
    var kept := if j < |p.sessions| then WithoutSource(p, j) else p.sources;
    assert p.nextObject !in kept;
    assert j < |p.sessions| ==> (i == j <==> key == p.sessions[i].key);
    hide Quiescent, AllAllowed, Exec, StartProgram, Fed, WithoutSource;
    if j < |p.sessions| {
      RemovalFeeds(p, j, i);
    }
    if opens {
      var q := Exec(StartProgram(p, kind, key, opens), p);
      var owner: nat :| q.sources == kept[p.nextObject := Source(owner, None, true, false)];
      NewSourceFeeds(kept, p.nextObject, owner, p.sessions[i].id);
    }
  }

  lemma StopSessionFeeds(p: App, key: string, i: nat, x: nat)
    requires Quiescent(p) && i < |p.sessions|
    ensures AllAllowed(StopSessionProgram(p, key), p)
    ensures var q := Exec(StopSessionProgram(p, key), p);
      Registered(q, p.sessions[i].id, x) ==> (Fed(q.sources, p.sessions[i].id) <==> Fed(p.sources, p.sessions[i].id))
  {
    StopSessionSources(p, key);
    FindSessionMeaning(p.sessions, key);
    var j := FindSession(p.sessions, key);
    hide Quiescent, AllAllowed, Exec, StopSessionProgram, Fed, WithoutSource;
    if j < |p.sessions| {
      RemovalFeeds(p, j, i);
    }
  }

  lemma OtherFeeds(op: Operation, p: App, i: nat)
    requires Quiescent(p) && MayCall(op, p) && i < |p.sessions|
    requires op.StopExport? || op.DetachExternal? || op.NewExternal? || op.DeleteExternal? || op.ChangeSelection?
    ensures AllAllowed(Program(op, p), p)
    ensures Exec(Program(op, p), p).sources == p.sources
  {
    OperationCompletes(op, p);
    hide Quiescent, AllAllowed, Exec, Allowed, EndsProcess, Completes;
    if op.StopExport? {
      StopSlotCompletes(p, op.i, op.slot);
    } else {
      SourcesUntouched(Program(op, p), p);
    }
  }

  /** When an outside sink of session i that is still registered after an operation is fed: exactly
      if the operation attaches a sink to that session's source, or the session was fed before and
      was not restarted. So a fed sink falls silent exactly at a restart in place, and a silent one is
      fed again exactly at the next attachment. */
  lemma SinkIsFedIff(op: Operation, p: App, i: nat, x: nat)
    requires Quiescent(p) && MayCall(op, p) && i < |p.sessions|
    requires x in p.external && Registered(p, p.sessions[i].id, x)
    ensures AllAllowed(Program(op, p), p)
    ensures var id, q := p.sessions[i].id, Exec(Program(op, p), p);
      Registered(q, id, x) ==>
        (Fed(q.sources, id) <==> Attaches(op, p, i) || (Fed(p.sources, id) && !Restarts(op, p, i)))
  {
    OperationCompletes(op, p);
    hide Quiescent, AllAllowed, Exec, Allowed, Fed, Registered, TeedTo, Completes, TeardownAll, StartProgram,
      StopSessionProgram, StartExportProgram;
    var id := p.sessions[i].id;
    match op
    case Start(kind, key, opens) => StartFeeds(p, kind, key, opens, i);
    case StopSession(key) => StopSessionFeeds(p, key, i, x);
    case StopAll =>
      StopAllUnregisters(p, i);
      NotRegistered(Exec(Program(op, p), p), id, x);
    case StartExport(j, slot, starts) =>
      StartExportSources(p, j, slot, starts);
      if starts && p.sessions[j].source.Some? {
        TeeFeeds(p, j, i);
      }
    case AttachExternal(j, y) =>
      AttachSources(p, j, y);
      if p.sessions[j].source.Some? {
        TeeFeeds(p, j, i);
      }
    case _ => OtherFeeds(op, p, i);
  }

  lemma NotRegistered(p: App, id: nat, x: nat)
    requires id !in p.fanouts
    ensures !Registered(p, id, x)
  {
  }
}
