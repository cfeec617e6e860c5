/** What each operation of the session manager leaves behind: the session records, the selection, which
    outside sinks are registered where, and nothing that nobody owns. */
module SessionOutcomes {
  import opened VideoFrames
  import opened TeeProtocol
  import opened SessionPrograms
  import opened SinkFeeds

  // ---- records and selection -------------------------------------------------------------------------

  /** The list of sessions after an operation. */
  function RecordsAfter(op: Operation, p: App): seq<Session> {
    match op
    case Start(kind, key, opens) =>
      var i, source := FindSession(p.sessions, key), if opens then Some(p.nextObject) else None;
      if i < |p.sessions| then p.sessions[i := Session(p.sessions[i].id, kind, key, source, None, None)]
      else p.sessions + [Session(p.nextId, kind, key, source, None, None)]
    case StopSession(key) =>
      var i := FindSession(p.sessions, key);
      if i < |p.sessions| then p.sessions[..i] + p.sessions[i + 1..] else p.sessions
    case StopAll => []
    case StartExport(i, slot, starts) =>
      if i < |p.sessions| && p.sessions[i].source.Some?
      then p.sessions[i := PutSink(p.sessions[i], slot, if starts then Some(p.nextObject) else None)] else p.sessions
    case StopExport(i, slot) =>
      if i < |p.sessions| then p.sessions[i := PutSink(p.sessions[i], slot, None)] else p.sessions
    case _ => p.sessions
  }

  /** The key of the selected session after an operation. A start that failed does not select, and
      stopping everything leaves the selection as it was. */
  function SelectedAfter(op: Operation, p: App): string {
    match op
    case Start(_, key, opens) => if opens then key else p.selected
    case StopSession(key) =>
      if p.selected == key && exists i :: 0 <= i < |p.sessions| && p.sessions[i].key == key then "" else p.selected
    case ChangeSelection(key) => key
    case _ => p.selected
  }

  /** The live sinks of other parties after an operation. */
  function ExternalAfter(op: Operation, p: App): set<nat> {
    match op
    case NewExternal => p.external + {p.nextObject}
    case DeleteExternal(x) => p.external - {x}
    case _ => p.external
  }

  predicate Plain(a: Action) { !a.Select? && !a.MakeExternal? && !a.DropExternal? }

  lemma {:induction false} PlainKeeps(prog: seq<Action>, p: App)
    requires AllAllowed(prog, p) && forall a :: a in prog ==> Plain(a)
    ensures Exec(prog, p).selected == p.selected && Exec(prog, p).external == p.external
  {
    hide Allowed;
    if |prog| > 0 {
      assert prog[0] in prog;
      PlainKeeps(prog[1..], Apply(prog[0], p));
    }
  }

  lemma SelectLast(prog: seq<Action>, key: string, p: App)
    requires AllAllowed(prog + [Select(key)], p) && forall a :: a in prog ==> Plain(a)
    ensures AllAllowed(prog, p)
    ensures Exec(prog + [Select(key)], p) == Exec(prog, p).(selected := key)
    ensures Exec(prog, p).external == p.external
  {
    Unfold(prog, [Select(key)], p);
    PlainKeeps(prog, p);
    hide Allowed, AllAllowed, Exec;
    OneStep(Select(key), Exec(prog, p));
  }

  /** The outcome of an operation in the fields above. */
  ghost predicate HasOutcome(op: Operation, p: App, q: App) {
    && q.sessions == RecordsAfter(op, p) && q.selected == SelectedAfter(op, p) && q.external == ExternalAfter(op, p)
  }

  lemma TeardownIsPlain(i: nat, s: Session)
    ensures forall a :: a in Teardown(i, s) ==> Plain(a)
  {
  }

  lemma StartOutcome(p: App, kind: SourceKind, key: string, opens: bool)
    requires Quiescent(p)
    ensures AllAllowed(StartProgram(p, kind, key, opens), p)
    ensures HasOutcome(Operation.Start(kind, key, opens), p, Exec(StartProgram(p, kind, key, opens), p))
  {
    hide Quiescent, AllAllowed, Exec, Teardown, Allowed, Apply, KeepsExternal;
    StartCompletes(p, kind, key, opens);
    EnsureCompletes(p, kind, key);
    FindSessionMeaning(p.sessions, key);
    var i, ensure := FindSession(p.sessions, key), StartProgram(p, kind, key, false);
    if i < |p.sessions| {
      TeardownIsPlain(i, p.sessions[i]);
      assert ensure == Teardown(i, p.sessions[i]) + [SetKind(i, kind)];
    } else {
      assert ensure == [PushSession(kind, key)];
    }
    PlainKeeps(ensure, p);
    if opens {
      var p1 := Exec(ensure, p);
      AdoptCompletes(p1, i, key);
      assert StartProgram(p, kind, key, true) == ensure + [AdoptSource(i), Select(key)];
      Unfold(ensure, [AdoptSource(i), Select(key)], p);
      assert [AdoptSource(i), Select(key)] == [AdoptSource(i)] + [Select(key)];
      SelectLast([AdoptSource(i)], key, p1);
    }
  }

  lemma StopSessionOutcome(p: App, key: string)
    requires Quiescent(p)
    ensures AllAllowed(StopSessionProgram(p, key), p)
    ensures HasOutcome(Operation.StopSession(key), p, Exec(StopSessionProgram(p, key), p))
  {
    hide Quiescent, AllAllowed, Exec, Teardown, Allowed, Apply, KeepsExternal, EndsProcess;
    StopSessionCompletes(p, key);
    FindSessionMeaning(p.sessions, key);
    var i := FindSession(p.sessions, key);
    if i < |p.sessions| {
      var erased := Teardown(i, p.sessions[i]) + [EraseSession(i)];
      TeardownIsPlain(i, p.sessions[i]);
      if p.selected == key {
        assert StopSessionProgram(p, key) == erased + [Select("")];
        SelectLast(erased, "", p);
      } else {
        assert StopSessionProgram(p, key) == erased;
        PlainKeeps(erased, p);
      }
      ErasedRecords(p, i);
    } else {
      EmptyProgram(StopSessionProgram(p, key), p);
    }
  }

  lemma ErasedRecords(p: App, i: nat)
    requires Quiescent(p) && i < |p.sessions| && AllAllowed(Teardown(i, p.sessions[i]) + [EraseSession(i)], p)
    ensures Exec(Teardown(i, p.sessions[i]) + [EraseSession(i)], p).sessions
         == p.sessions[..i] + p.sessions[i + 1..]
  {
    hide Quiescent, AllAllowed, Exec, Teardown, Allowed, KeepsExternal, EndsProcess;
    TeardownCompletes(p, i);
    var down := Teardown(i, p.sessions[i]);
    Unfold(down, [EraseSession(i)], p);
    OneStep(EraseSession(i), Exec(down, p));
  }

  lemma {:induction false} TeardownAllIsPlain(sessions: seq<Session>, n: nat)
    requires n <= |sessions|
    ensures forall a :: a in TeardownAll(sessions, n) ==> Plain(a)
  {
    if n > 0 {
      TeardownAllIsPlain(sessions, n - 1);
      TeardownIsPlain(n - 1, sessions[n - 1]);
    }
  }

  lemma StopAllOutcome(p: App)
    requires Quiescent(p)
    ensures AllAllowed(TeardownAll(p.sessions, |p.sessions|) + [ClearSessions], p)
    ensures HasOutcome(Operation.StopAll, p, Exec(TeardownAll(p.sessions, |p.sessions|) + [ClearSessions], p))
  {
    hide Quiescent, AllAllowed, Exec, TeardownAll, Allowed;
    StopAllCompletes(p);
    var down := TeardownAll(p.sessions, |p.sessions|);
    TeardownAllIsPlain(p.sessions, |p.sessions|);
    PlainKeeps(down + [ClearSessions], p);
    Unfold(down, [ClearSessions], p);
    OneStep(ClearSessions, Exec(down, p));
  }

  lemma StartExportOutcome(p: App, i: nat, slot: Slot, starts: bool)
    requires Quiescent(p) && i < |p.sessions|
    ensures AllAllowed(StartExportProgram(p, i, slot, starts), p)
    ensures HasOutcome(Operation.StartExport(i, slot, starts), p, Exec(StartExportProgram(p, i, slot, starts), p))
  {
    hide Quiescent, AllAllowed, Exec, Allowed, Apply, StopSlot, EndsProcess, KeepsExternal;
    StartExportCompletes(p, i, slot, starts);
    StartExportIsPlain(p, i, slot, starts);
    PlainKeeps(StartExportProgram(p, i, slot, starts), p);
    var s := p.sessions[i];
    if s.source.None? {
      EmptyProgram(StartExportProgram(p, i, slot, starts), p);
    } else {
      StopSlotCompletes(p, i, slot);
      var stop := StopSlot(i, s, slot);
      var p1 := Exec(stop, p);
      PutSinkTwice(s, slot);
      if starts {
        MakeAndAttachCompletes(p1, i, slot);
        assert MakeAndAttach(p1, i, slot) == [MakeSink(i, slot)] + Attach(s, p.nextObject);
        assert StartExportProgram(p, i, slot, starts) == stop + MakeAndAttach(p1, i, slot);
        Unfold(stop, MakeAndAttach(p1, i, slot), p);
      } else if slot.Rtsp? {
        MakeAndDropCompletes(p1, i, slot);
        assert StartExportProgram(p, i, slot, starts) == stop + [MakeSink(i, slot), DestroySink(i, slot)];
        Unfold(stop, [MakeSink(i, slot), DestroySink(i, slot)], p);
        MakeAndDropSessions(p1, i, slot);
      } else {
        assert StartExportProgram(p, i, slot, starts) == stop;
      }
    }
  }

  lemma PutSinkTwice(s: Session, slot: Slot)
    ensures SinkIn(PutSink(s, slot, None), slot).None? && PutSink(s, slot, None).source == s.source
    ensures forall x :: PutSink(PutSink(s, slot, None), slot, x) == PutSink(s, slot, x)
  {
  }

  lemma MakeAndDropSessions(p: App, i: nat, slot: Slot)
    requires i < |p.sessions| && SinkIn(p.sessions[i], slot).None?
    requires AllAllowed([MakeSink(i, slot), DestroySink(i, slot)], p)
    ensures Exec([MakeSink(i, slot), DestroySink(i, slot)], p).sessions == p.sessions
  {
    hide Allowed, AllAllowed, Exec;
    assert [MakeSink(i, slot), DestroySink(i, slot)] == [MakeSink(i, slot)] + [DestroySink(i, slot)];
    Unfold([MakeSink(i, slot)], [DestroySink(i, slot)], p);
    OneStep(MakeSink(i, slot), p);
    OneStep(DestroySink(i, slot), Exec([MakeSink(i, slot)], p));
  }

  lemma StartExportIsPlain(p: App, i: nat, slot: Slot, starts: bool)
    requires i < |p.sessions|
    ensures forall a :: a in StartExportProgram(p, i, slot, starts) ==> Plain(a)
  {
  }

  predicate Wiring(a: Action) { a.AddSink? || a.RemoveSink? || a.SetTee? }

  lemma {:induction false} WiringKeeps(prog: seq<Action>, p: App)
    requires AllAllowed(prog, p) && forall a :: a in prog ==> Wiring(a)
    ensures var q := Exec(prog, p); q.sessions == p.sessions && q.selected == p.selected && q.external == p.external
  {
    hide Allowed;
    if |prog| > 0 {
      assert prog[0] in prog;
      WiringKeeps(prog[1..], Apply(prog[0], p));
    }
  }

  lemma StopExportOutcome(p: App, i: nat, slot: Slot)
    requires Quiescent(p) && i < |p.sessions|
    ensures AllAllowed(StopSlot(i, p.sessions[i], slot), p)
    ensures HasOutcome(Operation.StopExport(i, slot), p, Exec(StopSlot(i, p.sessions[i], slot), p))
  {
    hide Quiescent, AllAllowed, Exec, EndsProcess, KeepsExternal, StopSlot;
    StopSlotCompletes(p, i, slot);
  }

  lemma SingleOutcome(op: Operation, a: Action, p: App)
    requires op.NewExternal? || op.DeleteExternal? || op.ChangeSelection?
    requires a == match op
      case NewExternal => MakeExternal
      case DeleteExternal(x) => DropExternal(x)
      case ChangeSelection(key) => Select(key)
    requires Allowed(a, p)
    ensures HasOutcome(op, p, Apply(a, p))
  {
    hide Allowed;
  }

  lemma OutsideOutcome(op: Operation, p: App)
    requires Quiescent(p) && MayCall(op, p)
    requires op.NewExternal? || op.DeleteExternal? || op.ChangeSelection?
    ensures AllAllowed(Program(op, p), p) && HasOutcome(op, p, Exec(Program(op, p), p))
  {
    hide Quiescent, AllAllowed, Exec, Allowed, Apply, HasOutcome, EndsProcess;
    OperationCompletes(op, p);
    var a := Program(op, p)[0];
    assert Program(op, p) == [a];
    OneStep(a, p);
    SingleOutcome(op, a, p);
  }

  lemma WiringOutcome(op: Operation, p: App)
    requires Quiescent(p) && MayCall(op, p) && (op.AttachExternal? || op.DetachExternal?)
    ensures AllAllowed(Program(op, p), p) && HasOutcome(op, p, Exec(Program(op, p), p))
  {
    OperationCompletes(op, p);
    hide Quiescent, AllAllowed, Exec, Allowed;
    WiringKeeps(Program(op, p), p);
  }

  /** Every operation leaves exactly these records, this selection and these outside sinks. */
  lemma OperationOutcome(op: Operation, p: App)
    requires Quiescent(p) && MayCall(op, p)
    ensures AllAllowed(Program(op, p), p) && HasOutcome(op, p, Exec(Program(op, p), p))
  {
    hide Quiescent, AllAllowed, Exec, HasOutcome, StartProgram, StopSessionProgram, StartExportProgram, TeardownAll;
    match op
    case Start(kind, key, opens) => StartOutcome(p, kind, key, opens);
    case StopSession(key) => StopSessionOutcome(p, key);
    case StopAll => StopAllOutcome(p);
    case StartExport(i, slot, starts) => StartExportOutcome(p, i, slot, starts);
    case StopExport(i, slot) => StopExportOutcome(p, i, slot);
    case AttachExternal(_, _) => WiringOutcome(op, p);
    case DetachExternal(_, _) => WiringOutcome(op, p);
    case _ => OutsideOutcome(op, p);
  }

  // ---- where outside sinks are registered ----------------------------------------------------------

  /** The action does not itself register or unregister x with fanout f. */
  predicate LeavesRegistration(a: Action, f: nat, x: nat) {
    a != AddSink(f, x) && a != RemoveSink(f, x)
  }

  lemma ActionKeepsRegistration(a: Action, p: App, f: nat, x: nat)
    requires Allowed(a, p) && f < p.nextId && LeavesRegistration(a, f, x)
    ensures var q := Apply(a, p);
      && f < q.nextId && (f in q.fanouts ==> f in p.fanouts && (x in q.fanouts[f] <==> x in p.fanouts[f]))
  {
  }

  lemma {:induction false} ProgramKeepsRegistration(prog: seq<Action>, p: App, f: nat, x: nat)
    requires AllAllowed(prog, p) && f < p.nextId && forall a :: a in prog ==> LeavesRegistration(a, f, x)
    ensures var q := Exec(prog, p);
      f in q.fanouts ==> f in p.fanouts && (x in q.fanouts[f] <==> x in p.fanouts[f])
  {
    hide Allowed, Apply;
    if |prog| > 0 {
      assert prog[0] in prog;
      ActionKeepsRegistration(prog[0], p, f, x);
      ProgramKeepsRegistration(prog[1..], Apply(prog[0], p), f, x);
    }
  }

  lemma OwnedIsNotExternal(p: App, i: nat, x: nat)
    requires Quiescent(p) && i < |p.sessions| && x in p.external
    ensures p.sessions[i].id < p.nextId && x < p.nextObject
    ensures p.sessions[i].recorder != Some(x) && p.sessions[i].rtsp != Some(x)
  {
    assert SessionOk(p, p.sessions[i]);
  }

  lemma TeardownLeavesRegistration(p: App, i: nat, f: nat, x: nat)
    requires Quiescent(p) && i < |p.sessions| && x in p.external
    ensures forall a :: a in Teardown(i, p.sessions[i]) ==> LeavesRegistration(a, f, x)
  {
    OwnedIsNotExternal(p, i, x);
  }

  lemma {:induction false} TeardownAllLeavesRegistration(p: App, n: nat, f: nat, x: nat)
    requires Quiescent(p) && n <= |p.sessions| && x in p.external
    ensures forall a :: a in TeardownAll(p.sessions, n) ==> LeavesRegistration(a, f, x)
  {
    hide Quiescent, Teardown;
    if n > 0 {
      TeardownAllLeavesRegistration(p, n - 1, f, x);
      TeardownLeavesRegistration(p, n - 1, f, x);
    }
  }

  lemma ExportLeavesRegistration(p: App, i: nat, slot: Slot, starts: bool, f: nat, x: nat)
    requires Quiescent(p) && i < |p.sessions| && x in p.external
    ensures forall a :: a in StartExportProgram(p, i, slot, starts) ==> LeavesRegistration(a, f, x)
    ensures forall a :: a in StopSlot(i, p.sessions[i], slot) ==> LeavesRegistration(a, f, x)
  {
    OwnedIsNotExternal(p, i, x);
    hide Quiescent;
  }

  lemma OperationLeavesRegistration(op: Operation, p: App, f: nat, x: nat)
    requires Quiescent(p) && MayCall(op, p) && x in p.external
    requires op.AttachExternal? ==> op.x != x || p.sessions[op.i].id != f
    requires op.DetachExternal? ==> op.x != x || p.sessions[op.i].id != f
    ensures forall a :: a in Program(op, p) ==> LeavesRegistration(a, f, x)
  {
    hide Quiescent, Teardown, TeardownAll, StopSlot, StartExportProgram, LeavesRegistration;
    match op
    case Start(kind, key, opens) =>
      FindSessionMeaning(p.sessions, key);
      StartLeavesRegistration(p, kind, key, opens, f, x);
    case StopSession(key) =>
      FindSessionMeaning(p.sessions, key);
      StopLeavesRegistration(p, key, f, x);
    case StopAll =>
      TeardownAllLeavesRegistration(p, |p.sessions|, f, x);
      OneLeavesRegistration(ClearSessions, f, x);
    case StartExport(i, slot, starts) => ExportLeavesRegistration(p, i, slot, starts, f, x);
    case StopExport(i, slot) => ExportLeavesRegistration(p, i, slot, false, f, x);
    case AttachExternal(i, y) => AttachLeavesRegistration(p.sessions[i], y, f, x);
    case DetachExternal(i, y) => OneLeavesRegistration(RemoveSink(p.sessions[i].id, y), f, x);
    case NewExternal => OneLeavesRegistration(MakeExternal, f, x);
    case DeleteExternal(y) => OneLeavesRegistration(DropExternal(y), f, x);
    case ChangeSelection(key) => OneLeavesRegistration(Select(key), f, x);
  }

  lemma OneLeavesRegistration(a: Action, f: nat, x: nat)
    requires (!a.AddSink? && !a.RemoveSink?) || a.x != x || a.f != f
    ensures LeavesRegistration(a, f, x)
  {
  }

  lemma AttachLeavesRegistration(s: Session, y: nat, f: nat, x: nat)
    requires y != x || s.id != f
    ensures forall a :: a in Attach(s, y) ==> LeavesRegistration(a, f, x)
  {
  }

  lemma StartLeavesRegistration(p: App, kind: SourceKind, key: string, opens: bool, f: nat, x: nat)
    requires Quiescent(p) && x in p.external
    ensures forall a :: a in StartProgram(p, kind, key, opens) ==> LeavesRegistration(a, f, x)
  {
    hide Quiescent, Teardown;
    var i := FindSession(p.sessions, key);
    FindSessionMeaning(p.sessions, key);
    if i < |p.sessions| {
      TeardownLeavesRegistration(p, i, f, x);
    }
  }

  lemma StopLeavesRegistration(p: App, key: string, f: nat, x: nat)
    requires Quiescent(p) && x in p.external
    ensures forall a :: a in StopSessionProgram(p, key) ==> LeavesRegistration(a, f, x)
  {
    hide Quiescent, Teardown;
    var i := FindSession(p.sessions, key);
    FindSessionMeaning(p.sessions, key);
    if i < |p.sessions| {
      TeardownLeavesRegistration(p, i, f, x);
    }
  }

  /** An outside sink is registered with a session after an operation that keeps the session exactly if
      the operation attached it there, or it was registered and not detached: no other operation, not
      even a restart, adds or removes it. */
  lemma RegisteredAfterIff(op: Operation, p: App, i: nat, x: nat)
    requires Quiescent(p) && MayCall(op, p) && i < |p.sessions| && x in p.external
    ensures AllAllowed(Program(op, p), p)
    ensures var id, q := p.sessions[i].id, Exec(Program(op, p), p);
      id in q.fanouts ==>
        (Registered(q, id, x) <==>
          || (op == AttachExternal(i, x) && p.sessions[i].source.Some?)
          || (Registered(p, id, x) && op != DetachExternal(i, x)))
  {
    OperationCompletes(op, p);
    OwnedIsNotExternal(p, i, x);
    SameIdSameSession(op, p, i);
    var id := p.sessions[i].id;
    if (op.AttachExternal? || op.DetachExternal?) && op.x == x && op.i == i {
      hide Quiescent, Completes, AllAllowed, Exec, Allowed;
      if op.DetachExternal? {
        OneStep(RemoveSink(id, x), p);
      } else {
        AttachRegisters(p, i, x);
      }
    } else {
      hide Quiescent, Completes, AllAllowed, Exec, LeavesRegistration, Program;
      OperationLeavesRegistration(op, p, id, x);
      ProgramKeepsRegistration(Program(op, p), p, id, x);
    }
  }

  lemma SameIdSameSession(op: Operation, p: App, i: nat)
    requires Quiescent(p) && MayCall(op, p) && i < |p.sessions|
    ensures op.AttachExternal? || op.DetachExternal? ==> (p.sessions[op.i].id == p.sessions[i].id <==> op.i == i)
  {
    hide SessionOk, WellLinked;
  }

  lemma AttachRegisters(p: App, i: nat, x: nat)
    requires i < |p.sessions| && p.sessions[i].id < p.nextId && AllAllowed(Attach(p.sessions[i], x), p)
    ensures var id, q := p.sessions[i].id, Exec(Attach(p.sessions[i], x), p);
      id in q.fanouts ==>
        (Registered(q, id, x) <==> p.sessions[i].source.Some? || Registered(p, id, x))
  {
    var s := p.sessions[i];
    hide AllAllowed, Exec, Allowed;
    if s.source.Some? {
      var add, tee := AddSink(s.id, x), SetTee(s.source.value, Some(s.id));
      assert Attach(s, x) == [add] + [tee];
      Unfold([add], [tee], p);
      OneStep(add, p);
      OneStep(tee, Exec([add], p));
      ActionKeepsRegistration(tee, Exec([add], p), s.id, x);
    } else {
      EmptyProgram(Attach(s, x), p);
    }
  }
}
