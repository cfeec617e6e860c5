/** Which of the session manager's operations end the process, and exactly when: resetting a
    recorder whose pipeline could not be built destroys a thread that Stop did not join. */
module ProcessEnds {
  import opened VideoFrames
  import opened TeeProtocol
  import opened SessionPrograms

  /** The operation resets the recorder of session i, if it has one. */
  predicate Resets(op: Operation, p: App, i: nat) {
    i < |p.sessions| &&
    match op
    case Start(_, key, _) => p.sessions[i].key == key
    case StopSession(key) => p.sessions[i].key == key
    case StopAll => true
    case StartExport(j, slot, _) => j == i && slot.Recorder? && p.sessions[i].source.Some?
    case StopExport(j, slot) => j == i && slot.Recorder?
    case _ => false
  }

  lemma StartEnds(p: App, kind: SourceKind, key: string, opens: bool)
    requires Quiescent(p)
    ensures AllAllowed(StartProgram(p, kind, key, opens), p)
    ensures EndsProcess(StartProgram(p, kind, key, opens), p) <==> RecorderFailed(p, FindSession(p.sessions, key))
  {
    hide Quiescent, AllAllowed, Exec, Teardown, Allowed, Apply, EndsProcess;
    StartCompletes(p, kind, key, opens);
    StartCompletes(p, kind, key, false);
    var i := FindSession(p.sessions, key);
    FindSessionMeaning(p.sessions, key);
    var ensure := StartProgram(p, kind, key, false);
    var adopt := [AdoptSource(i), Select(key)];
    if opens {
      assert StartProgram(p, kind, key, true) == ensure + adopt;
      TailSurvives(ensure, adopt, p);
    }
    if i < |p.sessions| {
      TeardownCompletes(p, i);
      assert ensure == Teardown(i, p.sessions[i]) + [SetKind(i, kind)];
      TailSurvives(Teardown(i, p.sessions[i]), [SetKind(i, kind)], p);
    } else {
      assert ensure == [PushSession(kind, key)];
      HarmlessSurvives(ensure, p);
    }
  }

  lemma StopSessionEnds(p: App, key: string)
    requires Quiescent(p)
    ensures AllAllowed(StopSessionProgram(p, key), p)
    ensures EndsProcess(StopSessionProgram(p, key), p) <==> RecorderFailed(p, FindSession(p.sessions, key))
  {
    hide Quiescent, AllAllowed, Exec, Teardown, Allowed, Apply;
    StopSessionCompletes(p, key);
    var i := FindSession(p.sessions, key);
    FindSessionMeaning(p.sessions, key);
    if i < |p.sessions| {
      TeardownCompletes(p, i);
      var rest := [EraseSession(i)] + if p.selected == key then [Select("")] else [];
      assert StopSessionProgram(p, key) == Teardown(i, p.sessions[i]) + rest;
      TailSurvives(Teardown(i, p.sessions[i]), rest, p);
    }
  }

  lemma {:induction false} TeardownAllEnds(p: App, n: nat)
    requires Quiescent(p) && n <= |p.sessions|
    ensures AllAllowed(TeardownAll(p.sessions, n), p)
    ensures EndsProcess(TeardownAll(p.sessions, n), p) <==> exists k :: 0 <= k < n && RecorderFailed(p, k)
  {
    hide Quiescent, Allowed, Apply, AllAllowed, Exec, Teardown;
    TeardownAllCompletes(p, n);
    if n > 0 {
      TeardownAllCompletes(p, n - 1);
      TeardownAllEnds(p, n - 1);
      var before, last := TeardownAll(p.sessions, n - 1), Teardown(n - 1, p.sessions[n - 1]);
      var p1 := Exec(before, p);
      ExecKeepsFailed(before, p);
      TeardownCompletes(p1, n - 1);
      hide EndsProcess;
      EndsConcat(before, last, p);
      assert RecorderFailed(p1, n - 1) <==> RecorderFailed(p, n - 1);
    }
  }

  lemma StopAllEnds(p: App)
    requires Quiescent(p)
    ensures AllAllowed(TeardownAll(p.sessions, |p.sessions|) + [ClearSessions], p)
    ensures EndsProcess(TeardownAll(p.sessions, |p.sessions|) + [ClearSessions], p) <==>
      exists k :: 0 <= k < |p.sessions| && RecorderFailed(p, k)
  {
    hide Quiescent, Allowed, Apply, AllAllowed, Exec, TeardownAll, EndsProcess;
    StopAllCompletes(p);
    TeardownAllEnds(p, |p.sessions|);
    TailSurvives(TeardownAll(p.sessions, |p.sessions|), [ClearSessions], p);
  }

  lemma StartExportEnds(p: App, i: nat, slot: Slot, starts: bool)
    requires Quiescent(p) && i < |p.sessions|
    ensures AllAllowed(StartExportProgram(p, i, slot, starts), p)
    ensures EndsProcess(StartExportProgram(p, i, slot, starts), p) <==>
      slot.Recorder? && p.sessions[i].source.Some? && RecorderFailed(p, i)
  {
    hide Quiescent, AllAllowed, Exec, Allowed, Apply, StopSlot;
    StartExportCompletes(p, i, slot, starts);
    var s := p.sessions[i];
    if s.source.Some? {
      StopSlotCompletes(p, i, slot);
      var rest := if starts then [MakeSink(i, slot)] + Attach(s, p.nextObject)
                  else if slot.Rtsp? then [MakeSink(i, slot), DestroySink(i, slot)]
                  else [];
      TailSurvives(StopSlot(i, s, slot), rest, p);
    }
  }

  /** The session with a key, by its unique key. */
  lemma KeyDecides(p: App, key: string)
    requires Quiescent(p)
    ensures RecorderFailed(p, FindSession(p.sessions, key)) <==>
      exists i: nat :: i < |p.sessions| && p.sessions[i].key == key && RecorderFailed(p, i)
  {
    FindSessionMeaning(p.sessions, key);
  }

  ghost predicate ResetsFailed(op: Operation, p: App) {
    exists i: nat :: Resets(op, p, i) && RecorderFailed(p, i)
  }

  lemma ResetsOne(op: Operation, p: App, i: nat)
    requires forall k: nat :: Resets(op, p, k) ==> k == i
    ensures ResetsFailed(op, p) <==> Resets(op, p, i) && RecorderFailed(p, i)
  {
  }

  lemma ResetsByKey(op: Operation, p: App, key: string)
    requires Quiescent(p) && ((op.Start? && op.key == key) || (op.StopSession? && op.key == key))
    ensures ResetsFailed(op, p) <==> RecorderFailed(p, FindSession(p.sessions, key))
  {
    hide Quiescent;
    KeyDecides(p, key);
    assert forall i: nat :: Resets(op, p, i) <==> i < |p.sessions| && p.sessions[i].key == key;
  }

  lemma ResetsNothing(op: Operation, p: App)
    requires forall k: nat :: !Resets(op, p, k)
    ensures !ResetsFailed(op, p)
  {
  }

  /** Exactly the operations that reset a failed recorder end the process; that is, those called on a
      session whose recorder stopped running by itself. */
  lemma OperationEndsProcessIff(op: Operation, p: App)
    requires Quiescent(p) && MayCall(op, p)
    ensures AllAllowed(Program(op, p), p)
    ensures EndsProcess(Program(op, p), p) <==> ResetsFailed(op, p)
  {
    OperationCompletes(op, p);
    hide Quiescent, AllAllowed, Exec, EndsProcess, ResetsFailed, StartProgram, StopSessionProgram, StartExportProgram,
      StopSlot, TeardownAll, Completes, RecorderFailed, Allowed;
    match op
    case Start(kind, key, opens) =>
      StartEnds(p, kind, key, opens);
      ResetsByKey(op, p, key);
    case StopSession(key) =>
      StopSessionEnds(p, key);
      ResetsByKey(op, p, key);
    case StopAll => StopAllResets(p);
    case StartExport(i, slot, starts) =>
      StartExportEnds(p, i, slot, starts);
      ResetsOne(op, p, i);
    case StopExport(i, slot) =>
      StopSlotCompletes(p, i, slot);
      ResetsOne(op, p, i);
    case _ => OtherSurvives(op, p);
  }

  lemma StopAllResets(p: App)
    requires Quiescent(p)
    ensures AllAllowed(Program(Operation.StopAll, p), p)
    ensures EndsProcess(Program(Operation.StopAll, p), p) <==> ResetsFailed(Operation.StopAll, p)
  {
    hide Quiescent, AllAllowed, EndsProcess, TeardownAll, RecorderFailed;
    StopAllEnds(p);
    if k: nat :| k < |p.sessions| && RecorderFailed(p, k) {
      assert Resets(Operation.StopAll, p, k);
    }
  }

  lemma OtherSurvives(op: Operation, p: App)
    requires MayCall(op, p) && AllAllowed(Program(op, p), p)
    requires op.AttachExternal? || op.DetachExternal? || op.NewExternal? || op.DeleteExternal? || op.ChangeSelection?
    ensures !EndsProcess(Program(op, p), p) && !ResetsFailed(op, p)
  {
    hide AllAllowed, EndsProcess, Allowed;
    HarmlessSurvives(Program(op, p), p);
    ResetsNothing(op, p);
  }
}
