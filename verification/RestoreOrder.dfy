/** Why the checks restore in the order they do, and a run on which even that order fails. */
module RestoreOrder {
  import opened VideoFrames
  import opened Controls
  import opened ControlSets
  import opened ControlChecks

  /** The other order: auto first, then target. */
  function AfterReverseRestore(
      env: Environment, c: Camera, target: nat, origTarget: int, auto: nat, origAuto: int): Camera
  {
    AfterSet(env, AfterSet(env, c, auto, origAuto), target, origTarget)
  }

  /** On an honest driver the reverse order restores everything exactly when the target was not
      disturbed or is still writable once auto mode is back. */
  lemma ReverseRestoreIff(env: Environment, c0: Camera, c: Camera, auto: nat, target: nat)
    requires Restorable(env, c0, c, auto, target) && Tunable(env, auto, target) && auto != 0 && auto != target
    requires Representable(c0, target) && Representable(c0, auto)
    requires (forall t :: Honest(env, t)) && Complete(env, c.tick)
    ensures AfterReverseRestore(env, c, target, c0.values[target], auto, c0.values[auto]).values == c0.values
      <==> c.values[target] == c0.values[target] || Settable(AfterSet(env, c, auto, c0.values[auto]).controls, target)
  {
    hide FindIn, Tunable, Coherent, Settable, Wide, Representable, AfterSet, Honest, Complete;
    var mid := AfterSet(env, c, auto, c0.values[auto]);
    HonestWrite(env, c0, c, auto);
    AutoKeepsTarget(env, c0, c, auto, target, c0.values[auto]);
    HonestWrite(env, c0, mid, target);
  }

  lemma AutoKeepsTarget(env: Environment, c0: Camera, c: Camera, auto: nat, target: nat, v: int)
    requires Restorable(env, c0, c, auto, target) && Tunable(env, auto, target) && auto != 0 && auto != target
    requires Complete(env, c.tick)
    ensures var mid := AfterSet(env, c, auto, v);
      mid.open && target in mid.values && mid.values[target] == c.values[target]
      && (Wide(mid.controls, target) <==> Wide(c.controls, target))
  {
    hide FindIn;
    var x := env.stored(c.tick, Narrowed(c.controls, auto, v));
    assert WidthKept(env, c.values, auto, x, target);
    hide Refusal, Settable, Wide;
  }

  // A camera whose exposure is writable only in manual mode.
  const AUTO_EXPOSURE: nat := 1
  const EXPOSURE: nat := 2
  const MANUAL: int := 1

  function Plain(id: nat, inactive: bool): ControlInfo {
    ControlInfo(id, "", Integer, 0, 10000, 1, 0, if inactive then 0x0010 else 0, [])
  }

  function AutoExposureCamera(m: map<nat, int>): seq<ControlInfo> {
    [Plain(AUTO_EXPOSURE, false), Plain(EXPOSURE, AUTO_EXPOSURE in m && m[AUTO_EXPOSURE] != MANUAL)]
  }

  function HonestDriver(): Environment {
    Environment(AutoExposureCamera, (t, m) => AutoExposureCamera(m), t => true, (t, v) => v, t => true, t => None)
  }

  lemma AutoExposureAccess(m: map<nat, int>)
    ensures var list := AutoExposureCamera(m);
      && FindIn(list, AUTO_EXPOSURE).Some? && FindIn(list, EXPOSURE).Some?
      && Settable(list, AUTO_EXPOSURE) && !Wide(list, AUTO_EXPOSURE) && !Wide(list, EXPOSURE)
      && (Settable(list, EXPOSURE) <==> !(AUTO_EXPOSURE in m && m[AUTO_EXPOSURE] != MANUAL))
  {
    var list := AutoExposureCamera(m);
    assert list[1..][0] == list[1];
    assert FindIn(list[1..], EXPOSURE) == Some(list[1]);
  }

  /** On that camera the checks' order always works, and the reverse order loses the exposure. */
  lemma ReverseOrderLosesExposure(before: Camera, during: Camera)
    requires before == Camera(true, map[AUTO_EXPOSURE := 3, EXPOSURE := 100], AutoExposureCamera(before.values), 0)
    requires during == Camera(true, map[AUTO_EXPOSURE := MANUAL, EXPOSURE := 50], AutoExposureCamera(during.values), 4)
    ensures Tunable(HonestDriver(), AUTO_EXPOSURE, EXPOSURE)
    ensures var o := OriginalsRead(HonestDriver(), before, AUTO_EXPOSURE, EXPOSURE);
      && AfterRestore(HonestDriver(), during, AUTO_EXPOSURE, EXPOSURE, o).values == before.values
      && AfterReverseRestore(HonestDriver(), during, EXPOSURE, o.target, AUTO_EXPOSURE, o.auto).values != before.values
  {
    var env := HonestDriver();
    AutoExposureTunable(env);
    forall t: nat
      ensures Honest(env, t) && Complete(env, t)
    {
      HonestDriverIsHonest(env, t);
    }
    AutoExposureAccess(before.values);
    AutoExposureAccess(during.values);
    AutoExposureAccess(during.values[AUTO_EXPOSURE := 3]);
    hide Tunable, Settable, Wide, AutoExposureCamera, Honest, Complete;
    assert Restorable(env, before, during, AUTO_EXPOSURE, EXPOSURE);
    RestoreReturns(env, before, during, AUTO_EXPOSURE, EXPOSURE);
    ReverseRestoreIff(env, before, during, AUTO_EXPOSURE, EXPOSURE);
    AfterHonestSet(env, during, AUTO_EXPOSURE, 3);
  }

  lemma AfterHonestSet(env: Environment, c: Camera, id: nat, v: int)
    requires env == HonestDriver() && c.open && id in c.values && Settable(c.controls, id) && Int32(v) == v
    requires !Wide(c.controls, id)
    ensures AfterSet(env, c, id, v).controls == AutoExposureCamera(c.values[id := v])
  {
    RefusedUnlessSettable(c, id);
  }

  lemma HonestDriverIsHonest(env: Environment, t: nat)
    requires env == HonestDriver()
    ensures Honest(env, t) && Complete(env, t)
  {
  }

  lemma AutoExposureTunable(env: Environment)
    requires env.describe == AutoExposureCamera
    ensures Tunable(env, AUTO_EXPOSURE, EXPOSURE)
  {
    forall m: map<nat, int>, v: int
      ensures AccessKept(env, m, EXPOSURE, v, EXPOSURE) && AccessKept(env, m, EXPOSURE, v, AUTO_EXPOSURE)
      ensures AccessKept(env, m, AUTO_EXPOSURE, v, AUTO_EXPOSURE) && WidthKept(env, m, AUTO_EXPOSURE, v, EXPOSURE)
    {
      AutoExposureAccess(m);
      AutoExposureAccess(m[EXPOSURE := v]);
      AutoExposureAccess(m[AUTO_EXPOSURE := v]);
      hide Settable, Wide, AutoExposureCamera;
    }
  }

  // ---- a walk cut short ------------------------------------------------------------------------

  const CUT: nat := 3

  /** The same camera and an honest driver, but one walk, the one after the target is written, lists
      nothing. */
  function CutWalkDriver(): Environment {
    HonestDriver().(introspect := (t, m) => if t == CUT then [] else AutoExposureCamera(m))
  }

  predicate InAutoMode(c: Camera) {
    c == Camera(true, map[AUTO_EXPOSURE := 3, EXPOSURE := 100], AutoExposureCamera(c.values), 0)
  }

  lemma OnlyOneWalkIsCut(before: Camera)
    requires InAutoMode(before)
    ensures var env := CutWalkDriver();
      && (forall t :: Honest(env, t) && (t != CUT ==> Complete(env, t)))
      && WellBehaved(env, before, AUTO_EXPOSURE, EXPOSURE)
      && Regular(env, before, AUTO_EXPOSURE) && Regular(env, before, EXPOSURE)
      && OriginalsRead(env, before, AUTO_EXPOSURE, EXPOSURE) == Originals(true, 100, true, 3)
  {
    var env := CutWalkDriver();
    AutoExposureTunable(env);
    AutoExposureAccess(before.values);
    forall t: nat, m: map<nat, int>
      ensures SameWidth(before, env.introspect(t, m), AUTO_EXPOSURE)
      ensures SameWidth(before, env.introspect(t, m), EXPOSURE)
    {
      AutoExposureAccess(m);
    }
    hide AutoExposureCamera, Settable, Wide, SameWidth;
  }

  /** The check's own reads, switch and write end with manual mode, the value written, and no list. */
  lemma CutWrite(before: Camera, value: int)
    requires InAutoMode(before) && Int32(value) == value
    ensures var env := CutWalkDriver();
      var manualMode := AfterSwitch(env, before, AUTO_EXPOSURE, MANUAL);
      && HasControls(before, AUTO_EXPOSURE, EXPOSURE) && ManualAccepted(env, before, AUTO_EXPOSURE, MANUAL)
      && !ReadsInactive(manualMode.controls, EXPOSURE) && SetStatus(env, manualMode, EXPOSURE, value).Ok?
      && AfterSet(env, manualMode, EXPOSURE, value) ==
         Camera(true, map[AUTO_EXPOSURE := MANUAL, EXPOSURE := value], [], 4)
  {
    var env := CutWalkDriver();
    var manualMode := AfterSwitch(env, before, AUTO_EXPOSURE, MANUAL);
    var values := map[AUTO_EXPOSURE := MANUAL, EXPOSURE := 100];
    AutoExposureAccess(before.values);
    AutoExposureAccess(values);
    SettableIsActive(AutoExposureCamera(values), EXPOSURE);
    hide AutoExposureCamera, Wide, FindIn;
    RefusedUnlessSettable(AfterReads(before, AUTO_EXPOSURE), AUTO_EXPOSURE);
    assert before.values[AUTO_EXPOSURE := MANUAL] == values;
    assert manualMode == Camera(true, values, AutoExposureCamera(values), CUT);
    RefusedUnlessSettable(manualMode, EXPOSURE);
    assert values[EXPOSURE := value] == map[AUTO_EXPOSURE := MANUAL, EXPOSURE := value];
  }

  lemma SettableIsActive(controls: seq<ControlInfo>, id: nat)
    requires Settable(controls, id)
    ensures !ReadsInactive(controls, id)
  {
  }

  /** Holding moves nothing on that driver, and no walk renews the list. */
  lemma {:induction false} CutHold(written: Camera, value: int, n: nat)
    requires written == Camera(true, map[AUTO_EXPOSURE := MANUAL, EXPOSURE := value], [], 4) && Int32(value) == value
    ensures var held := AfterHold(CutWalkDriver(), written, EXPOSURE, n);
      held == written.(tick := held.tick) && held.tick >= 4
    ensures Sample(CutWalkDriver(), written, EXPOSURE, n) == Some(value)
  {
    if n > 0 {
      CutHold(written, value, n - 1);
    }
  }

  /** One walk cut short is enough to break the promise: on an honest driver that loses only the list
      after the target's write, the lock check passes, both restore writes are refused as unknown
      controls, and the camera stays in manual mode with the value written. */
  lemma CutWalkStrandsExposure(before: Camera, value: int, holdMs: int, v: LockVerdict)
    requires InAutoMode(before) && Int32(value) == value
    requires LockJudged(v, CutWalkDriver(), before, AUTO_EXPOSURE, MANUAL, EXPOSURE, value, holdMs)
    ensures v == Held(LockSamples(holdMs))
    ensures var env, o := CutWalkDriver(), OriginalsRead(CutWalkDriver(), before, AUTO_EXPOSURE, EXPOSURE);
      var at := LockReached(v, env, before, AUTO_EXPOSURE, MANUAL, EXPOSURE, value, holdMs);
      && Read(o, AUTO_EXPOSURE) && !RestoreReaches(env, before, at, AUTO_EXPOSURE, EXPOSURE, o)
      && SetStatus(env, at, EXPOSURE, o.target) == SetStatus(env, at, AUTO_EXPOSURE, o.auto) == NotFound
      && AfterRestore(env, at, AUTO_EXPOSURE, EXPOSURE, o).values == map[AUTO_EXPOSURE := MANUAL, EXPOSURE := value]
  {
    hide AfterHold, Sample, AfterSwitch, ManualAccepted, ReadsInactive, LockSamples;
    var env := CutWalkDriver();
    OnlyOneWalkIsCut(before);
    CutWrite(before, value);
    var written := AfterSet(env, AfterSwitch(env, before, AUTO_EXPOSURE, MANUAL), EXPOSURE, value);
    forall n: nat
      ensures Sample(env, written, EXPOSURE, n) == Some(value)
    {
      CutHold(written, value, n);
    }
    CutHold(written, value, HoldRounds(v, holdMs));
  }
}
