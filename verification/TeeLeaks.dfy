/** Nothing is left behind: between two operations every live source, fanout and sink has an owner, in
    every run of the interleaved tee. */
module TeeLeaks {
  import opened VideoFrames
  import opened TeeProtocol
  import opened SessionPrograms
  import opened SinkFeeds
  import opened TeeSafety

  predicate HasId(sessions: seq<Session>, f: nat) {
    exists i :: 0 <= i < |sessions| && sessions[i].id == f
  }

  predicate HasSource(sessions: seq<Session>, s: nat) {
    exists i :: 0 <= i < |sessions| && sessions[i].source == Some(s)
  }

  predicate HasSink(sessions: seq<Session>, x: nat) {
    exists i :: 0 <= i < |sessions| && (sessions[i].recorder == Some(x) || sessions[i].rtsp == Some(x))
  }

  /** Every live fanout and source belongs to a session, every live sink to a session or to an outside
      party. */
  ghost predicate NoOrphans(p: App) {
    && (forall f :: f in p.fanouts ==> HasId(p.sessions, f))
    && (forall s :: s in p.sources ==> HasSource(p.sessions, s))
    && (forall x :: x in p.sinks ==> x in p.external || HasSink(p.sessions, x))
  }

  lemma UpdateKeepsIds(sessions: seq<Session>, i: nat, t: Session, f: nat)
    requires i < |sessions| && t.id == sessions[i].id
    ensures HasId(sessions, f) ==> HasId(sessions[i := t], f)
  {
    if HasId(sessions, f) {
      var j :| 0 <= j < |sessions| && sessions[j].id == f;
      assert sessions[i := t][j].id == f;
    }
  }

  lemma UpdateKeepsSources(sessions: seq<Session>, i: nat, t: Session, s: nat)
    requires i < |sessions| && (sessions[i].source == Some(s) ==> t.source == Some(s))
    ensures HasSource(sessions, s) ==> HasSource(sessions[i := t], s)
    ensures t.source == Some(s) ==> HasSource(sessions[i := t], s)
  {
    if t.source == Some(s) {
      assert sessions[i := t][i].source == Some(s);
    } else if HasSource(sessions, s) {
      var j :| 0 <= j < |sessions| && sessions[j].source == Some(s);
      assert sessions[i := t][j].source == Some(s);
    }
  }

  predicate In(s: Session, x: nat) { s.recorder == Some(x) || s.rtsp == Some(x) }

  lemma UpdateKeepsSinks(sessions: seq<Session>, i: nat, t: Session, x: nat)
    requires i < |sessions| && (In(sessions[i], x) ==> In(t, x))
    ensures HasSink(sessions, x) ==> HasSink(sessions[i := t], x)
    ensures In(t, x) ==> HasSink(sessions[i := t], x)
  {
    if In(t, x) {
      assert In(sessions[i := t][i], x);
    } else if HasSink(sessions, x) {
      var j :| 0 <= j < |sessions| && In(sessions[j], x);
      assert In(sessions[i := t][j], x);
    }
  }

  lemma PushKeepsOwners(sessions: seq<Session>, t: Session, k: nat)
    ensures HasId(sessions, k) ==> HasId(sessions + [t], k)
    ensures HasSource(sessions, k) ==> HasSource(sessions + [t], k)
    ensures HasSink(sessions, k) ==> HasSink(sessions + [t], k)
    ensures HasId(sessions + [t], t.id)
  {
    var more := sessions + [t];
    assert more[|sessions|] == t;
    assert forall j :: 0 <= j < |sessions| ==> more[j] == sessions[j];
  }

  lemma PushLeavesNoOrphans(p: App, kind: SourceKind, key: string)
    requires NoOrphans(p) && Allowed(PushSession(kind, key), p)
    ensures NoOrphans(Apply(PushSession(kind, key), p))
  {
    var t := Session(p.nextId, kind, key, None, None, None);
    forall k: nat
      ensures HasId(p.sessions, k) ==> HasId(p.sessions + [t], k)
      ensures HasSource(p.sessions, k) ==> HasSource(p.sessions + [t], k)
      ensures HasSink(p.sessions, k) ==> HasSink(p.sessions + [t], k)
      ensures HasId(p.sessions + [t], t.id)
    {
      PushKeepsOwners(p.sessions, t, k);
    }
    hide HasId, HasSource, HasSink;
  }

  /** What an action that rewrites one session must keep. */
  lemma UpdateLeavesNoOrphans(p: App, q: App, i: nat, t: Session)
    requires NoOrphans(p) && i < |p.sessions| && q.sessions == p.sessions[i := t] && t.id == p.sessions[i].id
    requires q.fanouts.Keys == p.fanouts.Keys
    requires forall s :: s in q.sources ==>
      t.source == Some(s) || (s in p.sources && p.sessions[i].source != Some(s))
    requires forall x :: x in q.sinks ==>
      x in q.external || In(t, x) || (x in p.sinks && x !in p.external && !In(p.sessions[i], x))
    ensures NoOrphans(q)
  {
    forall f | f in q.fanouts
      ensures HasId(q.sessions, f)
    {
      UpdateKeepsIds(p.sessions, i, t, f);
    }
    forall s | s in q.sources
      ensures HasSource(q.sessions, s)
    {
      UpdateKeepsSources(p.sessions, i, t, s);
    }
    forall x | x in q.sinks
      ensures x in q.external || HasSink(q.sessions, x)
    {
      if x !in q.external {
        UpdateKeepsSinks(p.sessions, i, t, x);
      }
    }
  }

  lemma SinkActionLeavesNoOrphans(a: Action, p: App)
    requires NoOrphans(p) && Allowed(a, p) && (a.MakeSink? || a.DestroySink?)
    ensures NoOrphans(Apply(a, p))
  {
    var q, s := Apply(a, p), p.sessions[a.i];
    hide NoOrphans;
    SinkUpdate(a, p);
    UpdateLeavesNoOrphans(p, q, a.i, q.sessions[a.i]);
  }

  lemma SinkUpdate(a: Action, p: App)
    requires NoOrphans(p) && Allowed(a, p) && (a.MakeSink? || a.DestroySink?)
    ensures var q := Apply(a, p);
      var t := q.sessions[a.i];
      && q.sessions == p.sessions[a.i := t] && t.id == p.sessions[a.i].id && q.fanouts == p.fanouts
      && (forall s :: s in q.sources ==> t.source == Some(s) || (s in p.sources && p.sessions[a.i].source != Some(s)))
      && (forall x :: x in q.sinks ==>
            x in q.external || In(t, x) || (x in p.sinks && x !in p.external && !In(p.sessions[a.i], x)))
  {
  }

  lemma SourceActionLeavesNoOrphans(a: Action, p: App)
    requires NoOrphans(p) && Allowed(a, p) && (a.SetKind? || a.AdoptSource? || a.DestroySource?)
    ensures NoOrphans(Apply(a, p))
  {
    var q, s := Apply(a, p), p.sessions[a.i];
    hide NoOrphans;
    SourceUpdate(a, p);
    UpdateLeavesNoOrphans(p, q, a.i, q.sessions[a.i]);
  }

  lemma SourceUpdate(a: Action, p: App)
    requires NoOrphans(p) && Allowed(a, p) && (a.SetKind? || a.AdoptSource? || a.DestroySource?)
    ensures var q := Apply(a, p);
      var t := q.sessions[a.i];
      && q.sessions == p.sessions[a.i := t] && t.id == p.sessions[a.i].id && q.fanouts == p.fanouts
      && (forall s :: s in q.sources ==> t.source == Some(s) || (s in p.sources && p.sessions[a.i].source != Some(s)))
      && (forall x :: x in q.sinks ==>
            x in q.external || In(t, x) || (x in p.sinks && x !in p.external && !In(p.sessions[a.i], x)))
  {
  }

  /** The remaining actions change no session and make no fanout, source or owned sink. */
  lemma OtherActionLeavesNoOrphans(a: Action, p: App)
    requires NoOrphans(p) && Allowed(a, p)
    requires a.AddSink? || a.RemoveSink? || a.StopSink? || a.SetTee? || a.ClearRunning? || a.JoinThread? || a.Select?
      || a.MakeExternal? || a.DropExternal?
    ensures NoOrphans(Apply(a, p))
  {
    hide HasId, HasSource, HasSink;
  }

  lemma ActionLeavesNoOrphans(a: Action, p: App)
    requires NoOrphans(p) && Allowed(a, p) && !a.EraseSession? && !a.ClearSessions?
    ensures NoOrphans(Apply(a, p))
  {
    hide NoOrphans, Allowed, Apply;
    match a
    case PushSession(kind, key) => PushLeavesNoOrphans(p, kind, key);
    case SetKind(_, _) => SourceActionLeavesNoOrphans(a, p);
    case AdoptSource(_) => SourceActionLeavesNoOrphans(a, p);
    case DestroySource(_) => SourceActionLeavesNoOrphans(a, p);
    case MakeSink(_, _) => SinkActionLeavesNoOrphans(a, p);
    case DestroySink(_, _) => SinkActionLeavesNoOrphans(a, p);
    case _ => OtherActionLeavesNoOrphans(a, p);
  }

  predicate KeepsSessions(prog: seq<Action>) {
    forall a :: a in prog ==> !a.EraseSession? && !a.ClearSessions?
  }

  lemma {:induction false} ProgramLeavesNoOrphans(prog: seq<Action>, p: App)
    requires NoOrphans(p) && AllAllowed(prog, p) && KeepsSessions(prog)
    ensures NoOrphans(Exec(prog, p))
  {
    hide NoOrphans, Allowed, Apply;
    if |prog| > 0 {
      assert prog[0] in prog;
      ActionLeavesNoOrphans(prog[0], p);
      ProgramLeavesNoOrphans(prog[1..], Apply(prog[0], p));
    }
  }

  // ---- sessions that go ----------------------------------------------------------------------------

  predicate Bare(s: Session) { s.source.None? && s.recorder.None? && s.rtsp.None? }

  lemma EraseLeavesNoOrphans(p: App, i: nat)
    requires NoOrphans(p) && Allowed(EraseSession(i), p) && Bare(p.sessions[i])
    ensures NoOrphans(Apply(EraseSession(i), p))
  {
    var q := Apply(EraseSession(i), p);
    forall k: nat
      ensures HasId(p.sessions, k) && k != p.sessions[i].id ==> HasId(q.sessions, k)
      ensures HasSource(p.sessions, k) ==> HasSource(q.sessions, k)
      ensures HasSink(p.sessions, k) ==> HasSink(q.sessions, k)
    {
      ErasedOwners(p.sessions, i, k);
    }
    hide HasId, HasSource, HasSink;
  }

  lemma ErasedOwners(sessions: seq<Session>, i: nat, k: nat)
    requires i < |sessions| && Bare(sessions[i])
    ensures var rest := sessions[..i] + sessions[i + 1..];
      && (HasId(sessions, k) && k != sessions[i].id ==> HasId(rest, k))
      && (HasSource(sessions, k) ==> HasSource(rest, k))
      && (HasSink(sessions, k) ==> HasSink(rest, k))
  {
    var rest := sessions[..i] + sessions[i + 1..];
    forall j | 0 <= j < |sessions| && j != i
      ensures sessions[j] in rest
    {
      assert rest[if j < i then j else j - 1] == sessions[j];
    }
    assert forall t :: t in rest ==> exists n :: 0 <= n < |rest| && rest[n] == t;
  }

  lemma ClearLeavesNoOrphans(p: App)
    requires NoOrphans(p) && Allowed(ClearSessions, p) && forall i :: 0 <= i < |p.sessions| ==> Bare(p.sessions[i])
    ensures NoOrphans(Apply(ClearSessions, p))
  {
    forall f | f in p.fanouts
      ensures f in SessionIds(p.sessions)
    {
      var i :| 0 <= i < |p.sessions| && p.sessions[i].id == f;
    }
    assert forall s :: s in p.sources ==> HasSource(p.sessions, s);
  }

  // ---- operations ------------------------------------------------------------------------------------

  lemma TeardownKeepsSessions(i: nat, s: Session)
    ensures KeepsSessions(Teardown(i, s))
  {
  }

  lemma {:induction false} TeardownAllKeepsSessions(sessions: seq<Session>, n: nat)
    requires n <= |sessions|
    ensures KeepsSessions(TeardownAll(sessions, n))
  {
    if n > 0 {
      TeardownAllKeepsSessions(sessions, n - 1);
      TeardownKeepsSessions(n - 1, sessions[n - 1]);
    }
  }

  lemma StopSessionLeavesNoOrphans(p: App, key: string)
    requires Quiescent(p) && NoOrphans(p)
    ensures AllAllowed(StopSessionProgram(p, key), p) && NoOrphans(Exec(StopSessionProgram(p, key), p))
  {
    hide Quiescent, NoOrphans, AllAllowed, Exec, Teardown, Allowed, Apply, KeepsExternal, EndsProcess;
    StopSessionCompletes(p, key);
    FindSessionMeaning(p.sessions, key);
    var i := FindSession(p.sessions, key);
    if i < |p.sessions| {
      TeardownCompletes(p, i);
      TeardownKeepsSessions(i, p.sessions[i]);
      var down := Teardown(i, p.sessions[i]);
      var tail := if p.selected == key then [Select("")] else [];
      assert StopSessionProgram(p, key) == down + ([EraseSession(i)] + tail);
      Unfold(down, [EraseSession(i)] + tail, p);
      ProgramLeavesNoOrphans(down, p);
      var p1 := Exec(down, p);
      Unfold([EraseSession(i)], tail, p1);
      OneStep(EraseSession(i), p1);
      EraseLeavesNoOrphans(p1, i);
      ProgramLeavesNoOrphans(tail, Exec([EraseSession(i)], p1));
    } else {
      EmptyProgram(StopSessionProgram(p, key), p);
    }
  }

  lemma StopAllLeavesNoOrphans(p: App)
    requires Quiescent(p) && NoOrphans(p)
    ensures AllAllowed(TeardownAll(p.sessions, |p.sessions|) + [ClearSessions], p)
    ensures NoOrphans(Exec(TeardownAll(p.sessions, |p.sessions|) + [ClearSessions], p))
  {
    hide Quiescent, NoOrphans, AllAllowed, Exec, TeardownAll, Allowed, Apply;
    StopAllCompletes(p);
    TeardownAllCompletes(p, |p.sessions|);
    TeardownAllKeepsSessions(p.sessions, |p.sessions|);
    var down := TeardownAll(p.sessions, |p.sessions|);
    Unfold(down, [ClearSessions], p);
    ProgramLeavesNoOrphans(down, p);
    OneStep(ClearSessions, Exec(down, p));
    ClearLeavesNoOrphans(Exec(down, p));
  }

  lemma OthersKeepSessions(op: Operation, p: App)
    requires MayCall(op, p) && !op.StopSession? && !op.StopAll?
    ensures KeepsSessions(Program(op, p))
  {
    hide Teardown;
    if op.Start? {
      FindSessionMeaning(p.sessions, op.key);
      var i := FindSession(p.sessions, op.key);
      if i < |p.sessions| {
        TeardownKeepsSessions(i, p.sessions[i]);
      }
    }
  }

  /** No operation leaves an orphan. */
  lemma OperationLeavesNoOrphans(op: Operation, p: App)
    requires Quiescent(p) && NoOrphans(p) && MayCall(op, p)
    ensures AllAllowed(Program(op, p), p) && NoOrphans(Exec(Program(op, p), p))
  {
    OperationCompletes(op, p);
    hide Quiescent, NoOrphans, AllAllowed, Exec, StopSessionProgram, TeardownAll;
    if op.StopSession? {
      StopSessionLeavesNoOrphans(p, op.key);
    } else if op.StopAll? {
      StopAllLeavesNoOrphans(p);
    } else {
      OthersKeepSessions(op, p);
      hide Program;
      ProgramLeavesNoOrphans(Program(op, p), p);
    }
  }

  // ---- over whole runs -------------------------------------------------------------------------------

  /** The rest of the current operation will leave no orphan. */
  ghost predicate WillLeaveNone(w: World) {
    !w.ended ==> AllAllowed(w.todo, w.app) && NoOrphans(Exec(w.todo, w.app))
  }

  lemma NothingToDo(w: World)
    requires |w.todo| == 0
    ensures AllAllowed(w.todo, w.app) && Exec(w.todo, w.app) == w.app
  {
  }

  lemma StepLeavesNone(w: World, w': World)
    requires Inv(w) && WillLeaveNone(w) && Step(w, w')
    ensures WillLeaveNone(w')
  {
    hide Inv, NoOrphans, Allowed, Apply, MayCall, Program;
    if op :| BeginOperation(w, w', op) {
      NothingToDo(w);
      InvIsSafe(w);
      OperationLeavesNoOrphans(op, w.app);
    } else if RenderStep(w, w') {
    } else if x :| PipelineFails(w, w', x) {
      FailedCommutes(w.todo, w.app, w'.app.failed);
      FailedIsNoOwner(Exec(w.todo, w.app), w'.app.failed);
    } else {
      assert w'.app == w.app && w'.todo == w.todo && w'.ended == w.ended;
    }
  }

  lemma FailedIsNoOwner(p: App, failed: set<nat>)
    requires NoOrphans(p)
    ensures NoOrphans(p.(failed := failed))
  {
    hide HasId, HasSource, HasSink;
  }

  lemma {:induction false} RunLeavesNone(run: seq<World>, n: nat)
    requires IsRun(run) && n < |run|
    ensures WillLeaveNone(run[n])
  {
    hide Step, Inv, WillLeaveNone;
    if n == 0 {
      EmptyWorldLeavesNone(run[0]);
    } else {
      RunLeavesNone(run, n - 1);
      RunInv(run, n - 1);
      StepLeavesNone(run[n - 1], run[n]);
    }
  }

  lemma EmptyWorldLeavesNone(w: World)
    requires w.app == EMPTY_APP && |w.todo| == 0
    ensures WillLeaveNone(w)
  {
  }

  /** In every run, whenever the render thread is between operations, every live source and fanout is
      that of a session and every live sink is in a session's slot or an outside party's. */
  lemma TeeNeverLeaks(run: seq<World>, n: nat)
    requires IsRun(run) && n < |run| && !run[n].ended && |run[n].todo| == 0
    ensures NoOrphans(run[n].app)
  {
    RunLeavesNone(run, n);
    NothingToDo(run[n]);
  }
}
