/** What the checks that tune controls share, and the lock check. Each leaves the camera as it found
    it, as far as the driver and the walks let it. */
module ControlChecks {
  import opened VideoFrames
  import opened Controls
  import opened ControlSets

  /** What a check may rely on: the cached list is current for both controls, their registers hold
      representable values, and the target's access depends on auto but not on itself. */
  ghost predicate WellBehaved(env: Environment, c: Camera, auto: nat, target: nat) {
    && Tunable(env, auto, target) && auto != target
    && Coherent(env, c, target) && Representable(c, target)
    && (auto != 0 ==> Coherent(env, c, auto) && Representable(c, auto))
  }

  /** Both originals can be read before the first write. */
  predicate OriginalsReadable(env: Environment, c: Camera, auto: nat, target: nat) {
    GetStatus(env, c, target).Ok? && (auto != 0 ==> GetStatus(env, AfterGet(c), auto).Ok?)
  }

  /** If the originals were read, the driver takes the restore writes, which begin in state `at`, and
      no introspection was cut short, every register is back, whatever else failed or drifted in
      between. */
  ghost predicate LeftAsFound(env: Environment, before: Camera, at: Camera, after: Camera, auto: nat, target: nat) {
    (WellBehaved(env, before, auto, target) && OriginalsReadable(env, before, auto, target)
     && AllComplete(env, before.tick, after.tick) && HonestWhile(env, at.tick, after.tick))
    ==> after.values == before.values
  }

  /** The register holds what its control can, and no walk lists the control with another width. */
  ghost predicate Regular(env: Environment, before: Camera, id: nat) {
    Fits(before, id) && WidthFixed(env, before, id)
  }

  /** Exactly when the registers are back, on a driver that takes the restore writes: the guards of
      the two writes let them through wherever something was moved. */
  ghost predicate RestoredIff(env: Environment, before: Camera, at: Camera, after: Camera, auto: nat, target: nat) {
    (auto != target && Regular(env, before, target) && (auto != 0 ==> Regular(env, before, auto))
     && HonestWhile(env, at.tick, after.tick))
    ==> (after.values == before.values
         <==> RestoreReaches(env, before, at, auto, target, OriginalsRead(env, before, auto, target)))
  }

  /** A check that has reached c from c0 can still keep its promise. */
  ghost predicate Steady(env: Environment, c0: Camera, c: Camera, auto: nat, target: nat, o: Originals) {
    WellBehaved(env, c0, auto, target) && Read(o, auto) && AllComplete(env, c0.tick, c.tick)
  }

  lemma SteadyEarlier(env: Environment, c0: Camera, c: Camera, c': Camera, auto: nat, target: nat, o: Originals)
    requires c.tick <= c'.tick && Steady(env, c0, c', auto, target, o)
    ensures Steady(env, c0, c, auto, target, o)
    ensures c0.tick <= c.tick < c'.tick ==> Complete(env, c.tick)
  {
  }

  /** What every step keeps, whatever the driver does. */
  ghost predicate Reached(env: Environment, c0: Camera, c: Camera, auto: nat, target: nat) {
    && OnlyTuned(c0, c, auto, target) && c0.tick <= c.tick
    && (WidthFixed(env, c0, target) ==> SameWidth(c0, c.controls, target))
    && (auto != 0 && WidthFixed(env, c0, auto) ==> SameWidth(c0, c.controls, auto))
  }

  /** A check that started in c0, where it read `o`, has reached c. */
  ghost predicate Tuning(env: Environment, c0: Camera, c: Camera, auto: nat, target: nat, o: Originals) {
    && o == OriginalsRead(env, c0, auto, target) && Reached(env, c0, c, auto, target)
    && (Steady(env, c0, c, auto, target, o) ==> Restorable(env, c0, c, auto, target))
  }

  lemma ReachedBySet(env: Environment, c0: Camera, c: Camera, auto: nat, target: nat, id: nat, v: int)
    requires Reached(env, c0, c, auto, target) && (id == target || (id == auto && auto != 0))
    ensures Reached(env, c0, AfterSet(env, c, id, v), auto, target)
  {
    hide FindIn, Refusal, SameWidth;
    var values := c.values[id := env.stored(c.tick, Narrowed(c.controls, id, v))];
    assert WidthFixed(env, c0, target) ==> SameWidth(c0, env.introspect(c.tick, values), target);
    assert WidthFixed(env, c0, auto) ==> SameWidth(c0, env.introspect(c.tick, values), auto);
  }

  function Read(o: Originals, auto: nat): bool {
    o.haveTarget && (auto != 0 ==> o.haveAuto)
  }

  /** After reading the originals: only the clock has moved. */
  function AfterReads(c: Camera, auto: nat): Camera {
    if auto != 0 then AfterGet(AfterGet(c)) else AfterGet(c)
  }

  /** After the switch to manual, if there is an auto mode. */
  function AfterSwitch(env: Environment, c: Camera, auto: nat, manual: int): Camera {
    if auto != 0 then AfterSet(env, AfterReads(c, auto), auto, manual) else AfterReads(c, auto)
  }

  predicate HasControls(c: Camera, auto: nat, target: nat) {
    FindIn(c.controls, target).Some? && (auto != 0 ==> FindIn(c.controls, auto).Some?)
  }

  /** The switch to manual mode is accepted, if there is an auto mode. */
  predicate ManualAccepted(env: Environment, c: Camera, auto: nat, manual: int) {
    auto != 0 ==> SetStatus(env, AfterReads(c, auto), auto, manual).Ok?
  }

  method ReadOriginals(cs: ControlSet, auto: nat, target: nat) returns (o: Originals)
    modifies cs
    ensures o == OriginalsRead(cs.env, old(cs.State()), auto, target)
    ensures cs.State() == AfterReads(old(cs.State()), auto)
    ensures Tuning(cs.env, old(cs.State()), cs.State(), auto, target, o)
  {
    hide Restorable, WellBehaved, Coherent, Representable, Tunable, FindIn, Wide;
    ghost var c0 := cs.State();
    var st, origTarget := cs.Get(target);
    var haveTarget := st.Ok?;
    var origAuto, haveAuto := 0, false;
    if auto != 0 {
      st, origAuto := cs.Get(auto);
      haveAuto := st.Ok?;
    }
    o := Originals(haveTarget, origTarget, haveAuto, origAuto);
    OriginalsAreTuning(cs.env, c0, auto, target);
  }

  lemma OriginalsAreTuning(env: Environment, c0: Camera, auto: nat, target: nat)
    ensures Tuning(env, c0, AfterReads(c0, auto), auto, target, OriginalsRead(env, c0, auto, target))
  {
    hide Settable, Wide, Tunable, Restorable, FindIn;
    if Steady(env, c0, AfterReads(c0, auto), auto, target, OriginalsRead(env, c0, auto, target)) {
      StartRestorable(env, c0, auto, target);
      GetRestorable(env, c0, c0, auto, target);
      if auto != 0 {
        GetRestorable(env, c0, AfterGet(c0), auto, target);
      }
    }
  }

  /** Target first, while manual mode keeps it writable; then auto. */
  method RestoreOriginals(cs: ControlSet, ghost c0: Camera, auto: nat, target: nat, o: Originals)
    returns (ghost at: Camera)
    requires Tuning(cs.env, c0, cs.State(), auto, target, o)
    modifies cs
    ensures at == old(cs.State()) && cs.State() == AfterRestore(cs.env, at, auto, target, o)
    ensures LeftAsFound(cs.env, c0, at, cs.State(), auto, target)
    ensures RestoredIff(cs.env, c0, at, cs.State(), auto, target)
  {
    hide Restorable, WellBehaved, AfterSet, RestoredIff, LeftAsFound, Tuning;
    at := cs.State();
    if o.haveTarget {
      var _ := cs.Set(target, o.target);
    }
    if auto != 0 && o.haveAuto {
      var _ := cs.Set(auto, o.auto);
    }
    LeavesAsFound(cs.env, c0, at, auto, target, o);
    RestoresIff(cs.env, c0, at, auto, target, o);
  }

  lemma LeavesAsFound(env: Environment, c0: Camera, c: Camera, auto: nat, target: nat, o: Originals)
    requires Tuning(env, c0, c, auto, target, o)
    ensures LeftAsFound(env, c0, c, AfterRestore(env, c, auto, target, o), auto, target)
  {
    hide Restorable, Tunable, Coherent, Narrowed, AfterSet, Honest, Complete, OnlyTuned, SameWidth, WidthFixed;
    var end := AfterRestore(env, c, auto, target, o);
    TicksGrow(env, c, target, o.target);
    TicksGrow(env, c, auto, o.auto);
    TicksGrow(env, AfterSet(env, c, target, o.target), auto, o.auto);
    if WellBehaved(env, c0, auto, target) && OriginalsReadable(env, c0, auto, target)
      && AllComplete(env, c0.tick, end.tick) && HonestWhile(env, c.tick, end.tick) {
      assert Steady(env, c0, c, auto, target, o);
      RestoreReturns(env, c0, c, auto, target);
    }
  }

  lemma RestoresIff(env: Environment, c0: Camera, c: Camera, auto: nat, target: nat, o: Originals)
    requires Tuning(env, c0, c, auto, target, o)
    ensures RestoredIff(env, c0, c, AfterRestore(env, c, auto, target, o), auto, target)
  {
    hide Restorable, AfterSet, Steady, HonestWhile, WidthFixed, SameWidth, Fits;
    if auto != target && Regular(env, c0, target) && (auto != 0 ==> Regular(env, c0, auto))
      && HonestWhile(env, c.tick, AfterRestore(env, c, auto, target, o).tick) {
      ReachedBySet(env, c0, c, auto, target, target, o.target);
      RestoreReturnsIff(env, c0, c, auto, target);
    }
  }

  /** Switching to manual before the target has been touched. */
  method SwitchToManual(cs: ControlSet, ghost c0: Camera, auto: nat, manual: int, target: nat, o: Originals)
    returns (st: Status)
    requires auto != 0 && cs.values == c0.values
    requires Tuning(cs.env, c0, cs.State(), auto, target, o)
    modifies cs
    ensures Tuning(cs.env, c0, cs.State(), auto, target, o)
    ensures st == SetStatus(cs.env, old(cs.State()), auto, manual)
    ensures cs.State() == AfterSet(cs.env, old(cs.State()), auto, manual)
  {
    hide Restorable, WellBehaved, AfterSet, Refusal, Tuning;
    ghost var c := cs.State();
    st := cs.Set(auto, manual);
    SwitchKeeps(cs.env, c0, c, auto, manual, target, o);
  }

  lemma SwitchKeeps(env: Environment, c0: Camera, c: Camera, auto: nat, manual: int, target: nat, o: Originals)
    requires auto != 0 && c.values == c0.values && Tuning(env, c0, c, auto, target, o)
    ensures Tuning(env, c0, AfterSet(env, c, auto, manual), auto, target, o)
  {
    hide AfterSet, Tunable, Coherent, Representable, Complete, OriginalsRead, WidthFixed, SameWidth;
    var c' := AfterSet(env, c, auto, manual);
    TicksGrow(env, c, auto, manual);
    ReachedBySet(env, c0, c, auto, target, auto, manual);
    if Steady(env, c0, c', auto, target, o) {
      SteadyEarlier(env, c0, c, c', auto, target, o);
      if c'.tick > c.tick {
        SetAutoRestorable(env, c0, c, auto, target, manual);
      } else {
        RefusedUnchanged(env, c, auto, manual);
      }
    }
  }

  /** Whether the target can drift without becoming unwritable. */
  predicate Writable(c: Camera, target: nat) {
    Settable(c.controls, target)
  }

  method WriteTarget(cs: ControlSet, ghost c0: Camera, auto: nat, target: nat, v: int, o: Originals)
    returns (st: Status)
    requires Tuning(cs.env, c0, cs.State(), auto, target, o)
    modifies cs
    ensures Tuning(cs.env, c0, cs.State(), auto, target, o)
    ensures st == SetStatus(cs.env, old(cs.State()), target, v)
    ensures cs.State() == AfterSet(cs.env, old(cs.State()), target, v)
    ensures st.Ok? && Steady(cs.env, c0, cs.State(), auto, target, o) ==> Writable(cs.State(), target)
  {
    hide Restorable, WellBehaved, AfterSet, Refusal, SetStatus, Writable, Tuning;
    ghost var c := cs.State();
    st := cs.Set(target, v);
    WriteKeeps(cs.env, c0, c, auto, target, v, o);
  }

  lemma WriteKeeps(env: Environment, c0: Camera, c: Camera, auto: nat, target: nat, v: int, o: Originals)
    requires Tuning(env, c0, c, auto, target, o)
    ensures Tuning(env, c0, AfterSet(env, c, target, v), auto, target, o)
    ensures SetStatus(env, c, target, v).Ok? && Steady(env, c0, AfterSet(env, c, target, v), auto, target, o) ==>
      Writable(AfterSet(env, c, target, v), target)
  {
    hide AfterSet, SetStatus, Settable, Tunable, Coherent, Representable, Complete, OriginalsRead, WidthFixed,
      SameWidth;
    var c' := AfterSet(env, c, target, v);
    TicksGrow(env, c, target, v);
    OkTakesATick(env, c, target, v);
    ReachedBySet(env, c0, c, auto, target, target, v);
    if Steady(env, c0, c', auto, target, o) {
      SteadyEarlier(env, c0, c, c', auto, target, o);
      if c'.tick > c.tick {
        SetTargetRestorable(env, c0, c, auto, target, v);
      } else {
        RefusedUnchanged(env, c, target, v);
      }
    }
  }

  lemma OkTakesATick(env: Environment, c: Camera, id: nat, v: int)
    ensures SetStatus(env, c, id, v).Ok? ==> AfterSet(env, c, id, v).tick == c.tick + 1
  {
  }

  method PauseWriting(cs: ControlSet, ghost c0: Camera, auto: nat, target: nat, o: Originals)
    requires Tuning(cs.env, c0, cs.State(), auto, target, o)
    requires Steady(cs.env, c0, cs.State(), auto, target, o) ==> Writable(cs.State(), target)
    modifies cs
    ensures Tuning(cs.env, c0, cs.State(), auto, target, o)
    ensures Steady(cs.env, c0, cs.State(), auto, target, o) ==> Writable(cs.State(), target)
    ensures cs.State() == AfterPause(cs.env, old(cs.State()), target)
  {
    hide Restorable, WellBehaved, Settable, Tuning;
    ghost var c := cs.State();
    cs.Pause(target);
    PauseKeeps(cs.env, c0, c, auto, target, o);
  }

  lemma PauseKeeps(env: Environment, c0: Camera, c: Camera, auto: nat, target: nat, o: Originals)
    requires Tuning(env, c0, c, auto, target, o)
    requires Steady(env, c0, c, auto, target, o) ==> Writable(c, target)
    ensures Tuning(env, c0, AfterPause(env, c, target), auto, target, o)
    ensures Steady(env, c0, AfterPause(env, c, target), auto, target, o) ==>
      Writable(AfterPause(env, c, target), target)
  {
    hide Settable, Tunable, Coherent, Representable, Restorable, Complete, OriginalsRead, WidthFixed, SameWidth;
    if Steady(env, c0, AfterPause(env, c, target), auto, target, o) {
      SteadyEarlier(env, c0, c, AfterPause(env, c, target), auto, target, o);
      PauseRestorable(env, c0, c, auto, target);
    }
  }

  lemma GetKeeps(env: Environment, c0: Camera, c: Camera, auto: nat, target: nat, o: Originals)
    requires Tuning(env, c0, c, auto, target, o)
    requires Steady(env, c0, c, auto, target, o) ==> Writable(c, target)
    ensures Tuning(env, c0, AfterGet(c), auto, target, o)
    ensures Steady(env, c0, AfterGet(c), auto, target, o) ==> Writable(AfterGet(c), target)
  {
    hide Restorable, WellBehaved, Complete, Settable, OriginalsRead, WidthFixed, SameWidth;
    if Steady(env, c0, AfterGet(c), auto, target, o) {
      SteadyEarlier(env, c0, c, AfterGet(c), auto, target, o);
      GetRestorable(env, c0, c, auto, target);
    }
  }

  lemma NothingTouched(env: Environment, c: Camera, auto: nat, target: nat)
    ensures LeftAsFound(env, c, c, c, auto, target) && RestoredIff(env, c, c, c, auto, target)
  {
  }

  // ---- lock ----------------------------------------------------------------------------------

  const LOCK_INTERVAL_MS: nat := 100

  datatype LockVerdict =
    | NoTarget | NoAuto | SwitchFailed | StillInactive | WriteFailed
    | ReadFailed(sample: nat) | Drifted(sample: nat, value: int) | Volatile | Held(count: nat)

  function LockSamples(holdMs: int): nat {
    if holdMs / LOCK_INTERVAL_MS > 1 then holdMs / LOCK_INTERVAL_MS else 1
  }

  predicate ReadsInactive(controls: seq<ControlInfo>, id: nat) {
    FindIn(controls, id).Some? && FindIn(controls, id).value.IsInactive()
  }

  predicate ReportsVolatile(controls: seq<ControlInfo>, id: nat) {
    FindIn(controls, id).Some? && FindIn(controls, id).value.IsVolatile()
  }

  /** After n rounds of waiting and reading back. */
  function AfterHold(env: Environment, c: Camera, target: nat, n: nat): Camera {
    if n == 0 then c else AfterGet(AfterPause(env, AfterHold(env, c, target, n - 1), target))
  }

  /** The k-th value read back while holding from state c. */
  function Sample(env: Environment, c: Camera, target: nat, k: nat): Option<int> {
    var waited := AfterPause(env, AfterHold(env, c, target, k), target);
    if GetStatus(env, waited, target).Ok? then Some(Narrowed(waited.controls, target, waited.values[target])) else None
  }

  predicate HeldFor(env: Environment, c: Camera, target: nat, value: int, n: nat) {
    forall k :: 0 <= k < n ==> Sample(env, c, target, k) == Some(value)
  }

  /** The verdict on holding from state c: the first sample that fails, or all of them hold. */
  predicate HoldJudged(v: LockVerdict, env: Environment, c: Camera, target: nat, value: int, holdMs: int) {
    match v
    case Held(n) =>
      n == LockSamples(holdMs) && HeldFor(env, c, target, value, n) && !ReportsVolatile(c.controls, target)
    case Volatile => HeldFor(env, c, target, value, LockSamples(holdMs)) && ReportsVolatile(c.controls, target)
    case Drifted(i, x) =>
      i < LockSamples(holdMs) && HeldFor(env, c, target, value, i) && Sample(env, c, target, i) == Some(x) && x != value
    case ReadFailed(i) =>
      i < LockSamples(holdMs) && HeldFor(env, c, target, value, i) && Sample(env, c, target, i).None?
    case _ => false
  }

  function HoldRounds(v: LockVerdict, holdMs: int): nat {
    match v
    case Drifted(i, _) => i + 1
    case ReadFailed(i) => i + 1
    case _ => LockSamples(holdMs)
  }

  /** Exactly when each verdict is given: the first step that fails, or the verdict on the hold. */
  predicate LockJudged(v: LockVerdict, env: Environment, before: Camera, auto: nat, manual: int,
                       target: nat, value: int, holdMs: int)
  {
    var manualMode := AfterSwitch(env, before, auto, manual);
    match v
    case NoTarget => FindIn(before.controls, target).None?
    case NoAuto => FindIn(before.controls, target).Some? && auto != 0 && FindIn(before.controls, auto).None?
    case SwitchFailed => HasControls(before, auto, target) && !ManualAccepted(env, before, auto, manual)
    case StillInactive =>
      && HasControls(before, auto, target) && ManualAccepted(env, before, auto, manual)
      && auto != 0 && ReadsInactive(manualMode.controls, target)
    case WriteFailed =>
      && HasControls(before, auto, target) && ManualAccepted(env, before, auto, manual)
      && (auto != 0 ==> !ReadsInactive(manualMode.controls, target))
      && !SetStatus(env, manualMode, target, value).Ok?
    case _ =>
      && HasControls(before, auto, target) && ManualAccepted(env, before, auto, manual)
      && (auto != 0 ==> !ReadsInactive(manualMode.controls, target))
      && SetStatus(env, manualMode, target, value).Ok?
      && HoldJudged(v, env, AfterSet(env, manualMode, target, value), target, value, holdMs)
  }

  /** Where the check stands when it starts restoring. */
  function LockReached(v: LockVerdict, env: Environment, before: Camera, auto: nat, manual: int,
                       target: nat, value: int, holdMs: int): Camera
  {
    var manualMode := AfterSwitch(env, before, auto, manual);
    var written := AfterSet(env, manualMode, target, value);
    match v
    case NoTarget => before
    case NoAuto => before
    case SwitchFailed => manualMode
    case StillInactive => manualMode
    case WriteFailed => written
    case _ => AfterHold(env, written, target, HoldRounds(v, holdMs))
  }

  /** Of two verdicts on one hold the earlier failure is the only one. */
  lemma HoldVerdictIsUnique(v: LockVerdict, w: LockVerdict, env: Environment, c: Camera, target: nat, value: int,
                            holdMs: int)
    requires HoldJudged(v, env, c, target, value, holdMs) && HoldJudged(w, env, c, target, value, holdMs)
    ensures v == w
  {
    hide Sample, LockSamples, ReportsVolatile;
  }

  /** The conditions exclude each other: what the camera does decides the verdict. */
  lemma LockVerdictIsUnique(v: LockVerdict, w: LockVerdict, env: Environment, before: Camera, auto: nat, manual: int,
                            target: nat, value: int, holdMs: int)
    requires LockJudged(v, env, before, auto, manual, target, value, holdMs)
    requires LockJudged(w, env, before, auto, manual, target, value, holdMs)
    ensures v == w
  {
    hide FindIn, SetStatus, AfterSet, AfterSwitch, ManualAccepted, ReadsInactive, HoldJudged;
    var written := AfterSet(env, AfterSwitch(env, before, auto, manual), target, value);
    if HoldJudged(v, env, written, target, value, holdMs) && HoldJudged(w, env, written, target, value, holdMs) {
      HoldVerdictIsUnique(v, w, env, written, target, value, holdMs);
    }
  }

  method CheckControlLock(cs: ControlSet, auto: nat, manual: int, target: nat, value: int, holdMs: int)
    returns (verdict: LockVerdict, ghost at: Camera)
    modifies cs
    ensures LockJudged(verdict, cs.env, old(cs.State()), auto, manual, target, value, holdMs)
    ensures at == LockReached(verdict, cs.env, old(cs.State()), auto, manual, target, value, holdMs)
    ensures cs.State() == if verdict.NoTarget? || verdict.NoAuto? then old(cs.State())
      else AfterRestore(cs.env, at, auto, target, OriginalsRead(cs.env, old(cs.State()), auto, target))
    ensures LeftAsFound(cs.env, old(cs.State()), at, cs.State(), auto, target)
    ensures RestoredIff(cs.env, old(cs.State()), at, cs.State(), auto, target)
  {
    hide LeftAsFound, RestoredIff, Tuning, Writable, FindIn, SetStatus, AfterSet, Refusal, Steady, OriginalsRead,
      AfterRestore, AfterHold, HoldJudged;
    ghost var c0 := cs.State();
    at := c0;
    NothingTouched(cs.env, c0, auto, target);
    var t := cs.Find(target);
    if t.None? {
      return NoTarget, at;
    }
    if auto != 0 {
      var a := cs.Find(auto);
      if a.None? {
        return NoAuto, at;
      }
    }
    var o := ReadOriginals(cs, auto, target);
    if auto != 0 {
      var s := SwitchToManual(cs, c0, auto, manual, target, o);
      if !s.Ok? {
        at := RestoreOriginals(cs, c0, auto, target, o);
        return SwitchFailed, at;
      }
      t := cs.Find(target);
      if t.Some? && t.value.IsInactive() {
        at := RestoreOriginals(cs, c0, auto, target, o);
        return StillInactive, at;
      }
    }
    var s := WriteTarget(cs, c0, auto, target, value, o);
    if !s.Ok? {
      at := RestoreOriginals(cs, c0, auto, target, o);
      return WriteFailed, at;
    }
    verdict := HoldTarget(cs, c0, auto, target, value, holdMs, o);
    at := RestoreOriginals(cs, c0, auto, target, o);
  }

  lemma StartHold(env: Environment, c: Camera, target: nat)
    ensures AfterHold(env, c, target, 0) == c
  {
  }

  lemma HoldStep(env: Environment, c: Camera, target: nat, k: nat, waited: Camera)
    requires waited == AfterPause(env, AfterHold(env, c, target, k), target)
    ensures AfterHold(env, c, target, k + 1) == AfterGet(waited)
    ensures waited.controls == AfterHold(env, c, target, k).controls
    ensures Sample(env, c, target, k) == if !GetStatus(env, waited, target).Ok? then None
      else Some(Narrowed(waited.controls, target, waited.values[target]))
  {
  }

  /** Read the target back every 100 ms. A control that reports VOLATILE while it holds fails. */
  method HoldTarget(cs: ControlSet, ghost c0: Camera, auto: nat, target: nat, value: int, holdMs: int, o: Originals)
    returns (verdict: LockVerdict)
    requires Tuning(cs.env, c0, cs.State(), auto, target, o)
    requires Steady(cs.env, c0, cs.State(), auto, target, o) ==> Writable(cs.State(), target)
    modifies cs
    ensures Tuning(cs.env, c0, cs.State(), auto, target, o)
    ensures verdict.ReadFailed? || verdict.Drifted? || verdict.Volatile? || verdict.Held?
    ensures HoldJudged(verdict, cs.env, old(cs.State()), target, value, holdMs)
    ensures cs.State() == AfterHold(cs.env, old(cs.State()), target, HoldRounds(verdict, holdMs))
  {
    hide Tuning, Writable, FindIn, Steady, Wide, AfterHold, Sample, AfterPause;
    ghost var c := cs.State();
    StartHold(cs.env, c, target);
    var volatileSeen, i := false, 0;
    while i < LockSamples(holdMs)
      invariant 0 <= i <= LockSamples(holdMs)
      invariant HeldFor(cs.env, c, target, value, i)
      invariant cs.State() == AfterHold(cs.env, c, target, i) && cs.controls == c.controls
      invariant volatileSeen <==> i > 0 && ReportsVolatile(cs.controls, target)
      invariant Tuning(cs.env, c0, cs.State(), auto, target, o)
      invariant Steady(cs.env, c0, cs.State(), auto, target, o) ==> Writable(cs.State(), target)
    {
      PauseWriting(cs, c0, auto, target, o);
      ghost var waited := cs.State();
      var g, x := cs.Get(target);
      GetKeeps(cs.env, c0, waited, auto, target, o);
      HoldStep(cs.env, c, target, i, waited);
      if !g.Ok? {
        return ReadFailed(i);
      }
      if x != value {
        return Drifted(i, x);
      }
      var t := cs.Find(target);
      if t.Some? && t.value.IsVolatile() {
        volatileSeen := true;
      }
      i := i + 1;
    }
    return if volatileSeen then Volatile else Held(i);
  }

  // ---- the hold in numbers -------------------------------------------------------------------------

  /** One sample for every full 100 ms of the hold, and at least one. */
  lemma SamplesFillHold(holdMs: int)
    ensures var n := LockSamples(holdMs);
      n >= 1 && if holdMs < 200 then n == 1 else 100 * n <= holdMs < 100 * (n + 1)
  {
  }

  /** The driver's flag bits behind the verdicts: INACTIVE is 0x10 and VOLATILE 0x80. */
  lemma FlagsDecide(controls: seq<ControlInfo>, id: nat)
    ensures ReadsInactive(controls, id) <==>
      FindIn(controls, id).Some? && FindIn(controls, id).value.flags & 0x0010 == 0x0010
    ensures ReportsVolatile(controls, id) <==>
      FindIn(controls, id).Some? && FindIn(controls, id).value.flags & 0x0080 == 0x0080
  {
    hide FindIn;
  }
}
