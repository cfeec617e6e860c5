/** The checks that look for a control's effect in the picture: the sweep and the latency of a write. */
module EffectChecks {
  import opened VideoFrames
  import opened Controls
  import opened ControlSets
  import opened ControlChecks
  import opened ExposureSweep
  import opened TapHistory

  /** `ratioOf` plays the role of pow: the cube root of hi / lo for each control. */
  ghost predicate IsCubeRoot(ratioOf: ControlInfo -> real) {
    forall info :: IsSweepRatio(info, ratioOf(info))
  }

  /** The values to write, from the descriptor at hand before the first write. */
  function SweepFor(c: Camera, target: nat, ratioOf: ControlInfo -> real): seq<int> {
    match FindIn(c.controls, target)
    case None => []
    case Some(info) => SweepValues(info, ratioOf(info))
  }

  // ---- effect sweep ----------------------------------------------------------------------------

  datatype EffectVerdict =
    | NoTargetControl | NoAutoControl | TooNarrow | ManualFailed | SetFailed(value: int)
    | Decreased(step: nat) | TooWeak | Rose

  const EFFECT_EPSILON: real := 1.0

  /** Step i does not lose more than the tolerated luma. */
  predicate HoldsUp(means: seq<real>, i: nat)
    requires 0 < i < |means|
  {
    means[i] >= means[i - 1] - EFFECT_EPSILON
  }

  predicate NeverDrops(means: seq<real>) {
    |means| >= 3 && forall k :: 0 < k < |means| ==> HoldsUp(means, k)
  }

  predicate MeansJudged(v: EffectVerdict, means: seq<real>, minDelta: real) {
    match v
    case Decreased(i) => 0 < i < |means| && !HoldsUp(means, i) && forall k :: 0 < k < i ==> HoldsUp(means, k)
    case TooWeak => NeverDrops(means) && means[|means| - 1] - means[0] < minDelta
    case Rose => NeverDrops(means) && means[|means| - 1] - means[0] >= minDelta
    case _ => false
  }

  /** After the first k values: each is written, then the picture settles and is sampled. */
  function AfterSweep(env: Environment, c: Camera, target: nat, sweep: seq<int>, k: nat): Camera
    requires k <= |sweep|
  {
    if k == 0 then c
    else
      var written := AfterSet(env, AfterSweep(env, c, target, sweep, k - 1), target, sweep[k - 1]);
      AfterPause(env, AfterPause(env, written, target), target)
  }

  predicate Accepted(env: Environment, c: Camera, target: nat, sweep: seq<int>, k: nat)
    requires k < |sweep|
  {
    SetStatus(env, AfterSweep(env, c, target, sweep, k), target, sweep[k]).Ok?
  }

  /** The first k values are accepted, and the next, if there is one, is not. */
  predicate AcceptsJust(env: Environment, c: Camera, target: nat, sweep: seq<int>, k: nat) {
    && k <= |sweep| && (forall j :: 0 <= j < k ==> Accepted(env, c, target, sweep, j))
    && (k < |sweep| ==> !Accepted(env, c, target, sweep, k))
  }

  function Windows(windowMean: nat -> real, n: nat): seq<real> { seq(n, (k: nat) => windowMean(k)) }

  /** Exactly when each verdict is given. `done` counts the sampled windows. */
  predicate EffectJudged(v: EffectVerdict, env: Environment, before: Camera, auto: nat, manual: int, target: nat,
                         sweep: seq<int>, windowMean: nat -> real, minDelta: real, done: nat)
  {
    var manualMode := AfterSwitch(env, before, auto, manual);
    match v
    case NoTargetControl => FindIn(before.controls, target).None?
    case NoAutoControl => FindIn(before.controls, target).Some? && auto != 0 && FindIn(before.controls, auto).None?
    case TooNarrow => HasControls(before, auto, target) && |sweep| < 3
    case ManualFailed =>
      HasControls(before, auto, target) && |sweep| >= 3 && !ManualAccepted(env, before, auto, manual)
    case SetFailed(x) =>
      && HasControls(before, auto, target) && |sweep| >= 3 && ManualAccepted(env, before, auto, manual)
      && AcceptsJust(env, manualMode, target, sweep, done) && done < |sweep| && x == sweep[done]
    case _ =>
      && HasControls(before, auto, target) && |sweep| >= 3 && ManualAccepted(env, before, auto, manual)
      && AcceptsJust(env, manualMode, target, sweep, done) && done == |sweep|
      && MeansJudged(v, Windows(windowMean, done), minDelta)
  }

  /** Where the sweep stands when it starts restoring. */
  function EffectReached(v: EffectVerdict, env: Environment, before: Camera, auto: nat, manual: int, target: nat,
                         sweep: seq<int>, done: nat): Camera
    requires done <= |sweep| && (v.SetFailed? ==> done < |sweep|)
  {
    var manualMode := AfterSwitch(env, before, auto, manual);
    match v
    case NoTargetControl => before
    case NoAutoControl => before
    case TooNarrow => before
    case ManualFailed => manualMode
    case SetFailed(_) => AfterSet(env, AfterSweep(env, manualMode, target, sweep, done), target, sweep[done])
    case _ => AfterSweep(env, manualMode, target, sweep, done)
  }

  lemma MeansVerdictIsUnique(v: EffectVerdict, w: EffectVerdict, means: seq<real>, minDelta: real)
    requires MeansJudged(v, means, minDelta) && MeansJudged(w, means, minDelta)
    ensures v == w
  {
    hide HoldsUp;
  }

  lemma RefusalIsUnique(env: Environment, c: Camera, target: nat, sweep: seq<int>, j: nat, k: nat)
    requires AcceptsJust(env, c, target, sweep, j) && AcceptsJust(env, c, target, sweep, k)
    ensures j == k
  {
    hide Accepted;
  }

  /** What the camera and the picture do decides verdict and number of windows. */
  lemma EffectVerdictIsUnique(v: EffectVerdict, w: EffectVerdict, env: Environment, before: Camera, auto: nat,
                              manual: int, target: nat, sweep: seq<int>, windowMean: nat -> real, minDelta: real,
                              j: nat, k: nat)
    requires EffectJudged(v, env, before, auto, manual, target, sweep, windowMean, minDelta, j)
    requires EffectJudged(w, env, before, auto, manual, target, sweep, windowMean, minDelta, k)
    ensures v == w
  {
    hide FindIn, ManualAccepted, AfterSwitch, AcceptsJust, MeansJudged, Windows;
    var manualMode := AfterSwitch(env, before, auto, manual);
    if AcceptsJust(env, manualMode, target, sweep, j) && AcceptsJust(env, manualMode, target, sweep, k) {
      RefusalIsUnique(env, manualMode, target, sweep, j, k);
      var means := Windows(windowMean, j);
      if MeansJudged(v, means, minDelta) && MeansJudged(w, means, minDelta) {
        MeansVerdictIsUnique(v, w, means, minDelta);
      }
    }
  }

  predicate Untouched(v: EffectVerdict) { v.NoTargetControl? || v.NoAutoControl? || v.TooNarrow? }

  /** `windowMean(k)` is the mean luma of the k-th sampling window. */
  method CheckControlEffect(cs: ControlSet, auto: nat, manual: int, target: nat, ratioOf: ControlInfo -> real,
                            windowMean: nat -> real, minDelta: real)
    returns (verdict: EffectVerdict, ghost done: nat, ghost at: Camera)
    requires IsCubeRoot(ratioOf)
    modifies cs
    ensures var before, sweep := old(cs.State()), SweepFor(old(cs.State()), target, ratioOf);
      && EffectJudged(verdict, cs.env, before, auto, manual, target, sweep, windowMean, minDelta, done)
      && done <= |sweep| && (verdict.SetFailed? ==> done < |sweep|) && StrictlyAscending(sweep)
      && at == EffectReached(verdict, cs.env, before, auto, manual, target, sweep, done)
      && cs.State() == (if Untouched(verdict) then before
                        else AfterRestore(cs.env, at, auto, target, OriginalsRead(cs.env, before, auto, target)))
    ensures LeftAsFound(cs.env, old(cs.State()), at, cs.State(), auto, target)
    ensures RestoredIff(cs.env, old(cs.State()), at, cs.State(), auto, target)
  {
    hide LeftAsFound, RestoredIff, Tuning, Writable, FindIn, SetStatus, AfterSet, Refusal, Steady, OriginalsRead,
      AfterRestore, AfterSweep, AcceptsJust, Windows, IsSweepRatio, SweepValues, MeansJudged,
      CoversRange;
    ghost var c0 := cs.State();
    at, done := c0, 0;
    NothingTouched(cs.env, c0, auto, target);
    var t := cs.Find(target);
    if t.None? {
      return NoTargetControl, done, at;
    }
    SweepAscends(t.value, ratioOf(t.value));
    if auto != 0 {
      var a := cs.Find(auto);
      if a.None? {
        return NoAutoControl, done, at;
      }
    }
    var sweep := DeriveSweepValues(t.value, ratioOf(t.value));
    if |sweep| < 3 {
      return TooNarrow, done, at;
    }
    var o := ReadOriginals(cs, auto, target);
    if auto != 0 {
      var s := SwitchToManual(cs, c0, auto, manual, target, o);
      if !s.Ok? {
        at := RestoreOriginals(cs, c0, auto, target, o);
        return ManualFailed, done, at;
      }
    }
    var means := SweepTarget(cs, c0, auto, target, sweep, windowMean, o);
    done := |means|;
    at := RestoreOriginals(cs, c0, auto, target, o);
    if |means| < |sweep| {
      return SetFailed(sweep[|means|]), done, at;
    }
    verdict := JudgeEffect(means, minDelta);
  }

  lemma SweepAscends(info: ControlInfo, ratio: real)
    requires IsSweepRatio(info, ratio)
    ensures StrictlyAscending(SweepValues(info, ratio))
  {
    SweepCoversRange(info, ratio);
  }

  /** Write each sweep value and average a fresh window after it, up to the first refusal. */
  method SweepTarget(cs: ControlSet, ghost c0: Camera, auto: nat, target: nat, sweep: seq<int>,
                     windowMean: nat -> real, o: Originals) returns (means: seq<real>)
    requires Tuning(cs.env, c0, cs.State(), auto, target, o)
    modifies cs
    ensures Tuning(cs.env, c0, cs.State(), auto, target, o)
    ensures |means| <= |sweep| && AcceptsJust(cs.env, old(cs.State()), target, sweep, |means|)
    ensures means == Windows(windowMean, |means|)
    ensures var swept := AfterSweep(cs.env, old(cs.State()), target, sweep, |means|);
      cs.State() == if |means| == |sweep| then swept else AfterSet(cs.env, swept, target, sweep[|means|])
  {
    hide Tuning, Writable, SetStatus, AfterSet, AfterPause, Refusal, Steady, AfterSweep;
    ghost var c := cs.State();
    StartSweep(cs.env, c, target, sweep);
    means := [];
    var i := 0;
    while i < |sweep|
      invariant i == |means| <= |sweep|
      invariant Tuning(cs.env, c0, cs.State(), auto, target, o)
      invariant forall j :: 0 <= j < i ==> Accepted(cs.env, c, target, sweep, j)
      invariant cs.State() == AfterSweep(cs.env, c, target, sweep, i)
      invariant means == Windows(windowMean, i)
    {
      var s := WriteTarget(cs, c0, auto, target, sweep[i], o);
      if !s.Ok? {
        return means;
      }
      PauseWriting(cs, c0, auto, target, o);
      PauseWriting(cs, c0, auto, target, o);
      SweepContinues(cs.env, c, target, sweep, i);
      means := means + [windowMean(i)];
      i := i + 1;
    }
  }

  lemma StartSweep(env: Environment, c: Camera, target: nat, sweep: seq<int>)
    ensures AfterSweep(env, c, target, sweep, 0) == c
  {
  }

  lemma SweepContinues(env: Environment, c: Camera, target: nat, sweep: seq<int>, k: nat)
    requires k < |sweep|
    ensures var written := AfterSet(env, AfterSweep(env, c, target, sweep, k), target, sweep[k]);
      AfterSweep(env, c, target, sweep, k + 1) == AfterPause(env, AfterPause(env, written, target), target)
  {
  }

  method JudgeEffect(means: seq<real>, minDelta: real) returns (verdict: EffectVerdict)
    requires |means| >= 3
    ensures verdict.Decreased? || verdict.TooWeak? || verdict.Rose?
    ensures MeansJudged(verdict, means, minDelta)
  {
    var delta := means[|means| - 1] - means[0];
    var i := 1;
    while i < |means|
      invariant 1 <= i <= |means|
      invariant forall k :: 0 < k < i ==> HoldsUp(means, k)
    {
      if means[i] < means[i - 1] - EFFECT_EPSILON {
        return Decreased(i);
      }
      i := i + 1;
    }
    return if delta < minDelta then TooWeak else Rose;
  }

  // ---- write-to-effect latency -------------------------------------------------------------------

  datatype LatencyVerdict =
    | NoExposure | NoAutoMode | Narrow | NotManual | LowFailed | NoFrames | HighFailed | NoResponse
    | Responded(hitPts: int, framesAfter: nat)

  predicate Responds(m: MeanSample, t0: int, threshold: real) {
    m.ptsNs > t0 && m.meanY > threshold
  }

  /** The first response of a poll, oldest sample first. */
  predicate FirstResponse(poll: seq<MeanSample>, t0: int, threshold: real, k: nat) {
    k < |poll| && Responds(poll[k], t0, threshold) && forall j :: 0 <= j < k ==> !Responds(poll[j], t0, threshold)
  }

  predicate Silent(poll: seq<MeanSample>, t0: int, threshold: real) {
    forall j :: 0 <= j < |poll| ==> !Responds(poll[j], t0, threshold)
  }

  function Threshold(base: real): real {
    base + if 0.25 * base > 10.0 then 0.25 * base else 10.0
  }

  function FramesWithin(poll: seq<MeanSample>, t0: int, hit: int): nat {
    if |poll| == 0 then 0
    else FramesWithin(poll[..|poll| - 1], t0, hit) + if t0 < poll[|poll| - 1].ptsNs <= hit then 1 else 0
  }

  method FindResponse(poll: seq<MeanSample>, t0: int, threshold: real) returns (hit: Option<int>, ghost k: nat)
    ensures hit.None? ==> Silent(poll, t0, threshold)
    ensures hit.Some? ==> FirstResponse(poll, t0, threshold, k) && hit.value == poll[k].ptsNs
  {
    var i := 0;
    while i < |poll|
      invariant i <= |poll|
      invariant forall j :: 0 <= j < i ==> !Responds(poll[j], t0, threshold)
    {
      if poll[i].ptsNs > t0 && poll[i].meanY > threshold {
        return Some(poll[i].ptsNs), i;
      }
      i := i + 1;
    }
    return None, 0;
  }

  method CountFrames(poll: seq<MeanSample>, t0: int, hit: int) returns (n: nat)
    ensures n == FramesWithin(poll, t0, hit)
  {
    n := 0;
    var i := 0;
    assert poll[..0] == [];
    while i < |poll|
      invariant i <= |poll| && n == FramesWithin(poll[..i], t0, hit)
    {
      assert poll[..i + 1][..i] == poll[..i];
      if t0 < poll[i].ptsNs && poll[i].ptsNs <= hit {
        n := n + 1;
      }
      i := i + 1;
    }
    assert poll[..|poll|] == poll;
  }

  /** A response's own frame is among those counted. */
  lemma {:induction false} ResponseIsCounted(poll: seq<MeanSample>, t0: int, threshold: real, k: nat)
    requires k < |poll| && Responds(poll[k], t0, threshold)
    ensures FramesWithin(poll, t0, poll[k].ptsNs) >= 1
  {
    if k < |poll| - 1 {
      ResponseIsCounted(poll[..|poll| - 1], t0, threshold, k);
    }
  }

  /** The verdict is that of the first poll with a response, after `looks` silent ones. */
  ghost predicate PollsJudged(v: LatencyVerdict, poll: nat -> seq<MeanSample>, polls: nat, t0: int, threshold: real,
                              looks: nat)
  {
    && (forall q :: 0 <= q < looks ==> Silent(poll(q), t0, threshold))
    && match v
       case NoResponse => looks == polls
       case Responded(hit, n) =>
         && looks < polls && n == FramesWithin(poll(looks), t0, hit) && n >= 1
         && exists k: nat :: FirstResponse(poll(looks), t0, threshold, k) && hit == poll(looks)[k].ptsNs
       case _ => false
  }

  /** The low exposure is written, and the picture settles. */
  function AfterLow(env: Environment, c: Camera, target: nat, low: int): Camera {
    AfterPause(env, AfterSet(env, c, target, low), target)
  }

  /** After n pauses between two polls. */
  function AfterPolls(env: Environment, c: Camera, target: nat, n: nat): Camera {
    if n == 0 then c else AfterPause(env, AfterPolls(env, c, target, n - 1), target)
  }

  /** Exactly when each verdict is given: the first step that fails, or the verdict on the polls. */
  ghost predicate LatencyJudged(v: LatencyVerdict, env: Environment, before: Camera, auto: nat, manual: int,
                                target: nat, sweep: seq<int>, baseline: seq<MeanSample>, poll: nat -> seq<MeanSample>,
                                polls: nat, t0: int, looks: nat)
  {
    var manualMode := AfterSwitch(env, before, auto, manual);
    match v
    case NoExposure => FindIn(before.controls, target).None?
    case NoAutoMode => FindIn(before.controls, target).Some? && auto != 0 && FindIn(before.controls, auto).None?
    case Narrow => HasControls(before, auto, target) && |sweep| < 3
    case NotManual => HasControls(before, auto, target) && |sweep| >= 3 && !ManualAccepted(env, before, auto, manual)
    case _ =>
      && HasControls(before, auto, target) && |sweep| >= 3 && ManualAccepted(env, before, auto, manual)
      && WritesJudged(v, env, manualMode, target, sweep[0], sweep[|sweep| - 1], baseline, poll, polls, t0, looks)
  }

  /** The part after the switch: low write, baseline, high write, polls. */
  ghost predicate WritesJudged(v: LatencyVerdict, env: Environment, c: Camera, target: nat, low: int, high: int,
                               baseline: seq<MeanSample>, poll: nat -> seq<MeanSample>, polls: nat, t0: int, looks: nat)
  {
    match v
    case LowFailed => !SetStatus(env, c, target, low).Ok?
    case NoFrames => SetStatus(env, c, target, low).Ok? && |baseline| == 0
    case HighFailed =>
      && SetStatus(env, c, target, low).Ok? && |baseline| > 0
      && !SetStatus(env, AfterLow(env, c, target, low), target, high).Ok?
    case _ =>
      && SetStatus(env, c, target, low).Ok? && |baseline| > 0
      && SetStatus(env, AfterLow(env, c, target, low), target, high).Ok?
      && PollsJudged(v, poll, polls, t0, Threshold(baseline[|baseline| - 1].meanY), looks)
  }

  function WritesReached(v: LatencyVerdict, env: Environment, c: Camera, target: nat, low: int, high: int,
                         looks: nat): Camera
  {
    var stepped := AfterSet(env, AfterLow(env, c, target, low), target, high);
    match v
    case LowFailed => AfterSet(env, c, target, low)
    case NoFrames => AfterLow(env, c, target, low)
    case HighFailed => stepped
    case _ => AfterPolls(env, stepped, target, looks)
  }

  /** Where the check stands when it starts restoring. */
  function LatencyReached(v: LatencyVerdict, env: Environment, before: Camera, auto: nat, manual: int, target: nat,
                          sweep: seq<int>, looks: nat): Camera
  {
    var manualMode := AfterSwitch(env, before, auto, manual);
    if SkipsLatency(v) || |sweep| == 0 then before
    else if v.NotManual? then manualMode
    else WritesReached(v, env, manualMode, target, sweep[0], sweep[|sweep| - 1], looks)
  }

  lemma PollsVerdictIsUnique(v: LatencyVerdict, w: LatencyVerdict, poll: nat -> seq<MeanSample>, polls: nat, t0: int,
                             threshold: real, j: nat, k: nat)
    requires PollsJudged(v, poll, polls, t0, threshold, j) && PollsJudged(w, poll, polls, t0, threshold, k)
    ensures v == w && j == k
  {
    hide FramesWithin, Responds;
    if v.Responded? {
      ResponseIsNotSilent(v, poll, polls, t0, threshold, j);
    }
    if w.Responded? {
      ResponseIsNotSilent(w, poll, polls, t0, threshold, k);
    }
    if v.Responded? && w.Responded? {
      var a: nat :| FirstResponse(poll(j), t0, threshold, a) && v.hitPts == poll(j)[a].ptsNs;
      var b: nat :| FirstResponse(poll(k), t0, threshold, b) && w.hitPts == poll(k)[b].ptsNs;
      assert a == b;
    }
  }

  lemma ResponseIsNotSilent(v: LatencyVerdict, poll: nat -> seq<MeanSample>, polls: nat, t0: int, threshold: real,
                            j: nat)
    requires PollsJudged(v, poll, polls, t0, threshold, j) && v.Responded?
    ensures !Silent(poll(j), t0, threshold)
  {
    hide FramesWithin, Responds;
    var a: nat :| FirstResponse(poll(j), t0, threshold, a) && v.hitPts == poll(j)[a].ptsNs;
  }

  /** What the camera and the picture do decides the verdict. */
  lemma LatencyVerdictIsUnique(v: LatencyVerdict, w: LatencyVerdict, env: Environment, before: Camera, auto: nat,
                               manual: int, target: nat, sweep: seq<int>, baseline: seq<MeanSample>,
                               poll: nat -> seq<MeanSample>, polls: nat, t0: int, j: nat, k: nat)
    requires LatencyJudged(v, env, before, auto, manual, target, sweep, baseline, poll, polls, t0, j)
    requires LatencyJudged(w, env, before, auto, manual, target, sweep, baseline, poll, polls, t0, k)
    ensures v == w
  {
    hide FindIn, ManualAccepted, AfterSwitch, SetStatus, PollsJudged, AfterLow, Threshold;
    if |baseline| > 0 {
      var threshold := Threshold(baseline[|baseline| - 1].meanY);
      if PollsJudged(v, poll, polls, t0, threshold, j) && PollsJudged(w, poll, polls, t0, threshold, k) {
        PollsVerdictIsUnique(v, w, poll, polls, t0, threshold, j, k);
      }
    }
  }

  predicate SkipsLatency(v: LatencyVerdict) { v.NoExposure? || v.NoAutoMode? || v.Narrow? }

  /** `baseline` is the ring of recent means after the low write, `poll(q)` the ring at the q-th
      look, `polls` the looks that fit before the deadline, `t0` the time of the high write. */
  method CheckWriteEffectLatency(cs: ControlSet, auto: nat, manual: int, target: nat, ratioOf: ControlInfo -> real,
                                 baseline: seq<MeanSample>, poll: nat -> seq<MeanSample>, polls: nat, t0: nat)
    returns (verdict: LatencyVerdict, ghost looks: nat, ghost at: Camera)
    requires IsCubeRoot(ratioOf)
    modifies cs
    ensures var before, sweep := old(cs.State()), SweepFor(old(cs.State()), target, ratioOf);
      && LatencyJudged(verdict, cs.env, before, auto, manual, target, sweep, baseline, poll, polls, t0, looks)
      && at == LatencyReached(verdict, cs.env, before, auto, manual, target, sweep, looks)
      && cs.State() == (if SkipsLatency(verdict) then before
                        else AfterRestore(cs.env, at, auto, target, OriginalsRead(cs.env, before, auto, target)))
    ensures LeftAsFound(cs.env, old(cs.State()), at, cs.State(), auto, target)
    ensures RestoredIff(cs.env, old(cs.State()), at, cs.State(), auto, target)
  {
    hide LeftAsFound, RestoredIff, Tuning, Writable, FindIn, SetStatus, AfterSet, Refusal, Steady, OriginalsRead,
      AfterRestore, WritesJudged, WritesReached, IsSweepRatio, SweepValues, CoversRange;
    ghost var c0 := cs.State();
    at, looks := c0, 0;
    NothingTouched(cs.env, c0, auto, target);
    var t := cs.Find(target);
    if t.None? {
      return NoExposure, looks, at;
    }
    if auto != 0 {
      var a := cs.Find(auto);
      if a.None? {
        return NoAutoMode, looks, at;
      }
    }
    var sweep := DeriveSweepValues(t.value, ratioOf(t.value));
    if |sweep| < 3 {
      return Narrow, looks, at;
    }
    var o := ReadOriginals(cs, auto, target);
    if auto != 0 {
      var s := SwitchToManual(cs, c0, auto, manual, target, o);
      if !s.Ok? {
        at := RestoreOriginals(cs, c0, auto, target, o);
        return NotManual, looks, at;
      }
    }
    verdict, looks := WriteLowHigh(cs, c0, auto, target, sweep[0], sweep[|sweep| - 1], baseline, poll, polls, t0, o);
    at := RestoreOriginals(cs, c0, auto, target, o);
  }

  /** From the low write to the end of the polls; what follows is the restore. */
  method WriteLowHigh(cs: ControlSet, ghost c0: Camera, auto: nat, target: nat, low: int, high: int,
                      baseline: seq<MeanSample>, poll: nat -> seq<MeanSample>, polls: nat, t0: nat, o: Originals)
    returns (verdict: LatencyVerdict, ghost looks: nat)
    requires Tuning(cs.env, c0, cs.State(), auto, target, o)
    modifies cs
    ensures Tuning(cs.env, c0, cs.State(), auto, target, o)
    ensures !SkipsLatency(verdict) && !verdict.NotManual?
    ensures WritesJudged(verdict, cs.env, old(cs.State()), target, low, high, baseline, poll, polls, t0, looks)
    ensures cs.State() == WritesReached(verdict, cs.env, old(cs.State()), target, low, high, looks)
  {
    hide Tuning, Writable, SetStatus, AfterSet, Refusal, Steady, AfterPolls, PollsJudged, AfterPause;
    looks := 0;
    var s := WriteTarget(cs, c0, auto, target, low, o);
    if !s.Ok? {
      return LowFailed, looks;
    }
    PauseWriting(cs, c0, auto, target, o);
    if |baseline| == 0 {
      return NoFrames, looks;
    }
    var threshold := Threshold(baseline[|baseline| - 1].meanY);
    s := WriteTarget(cs, c0, auto, target, high, o);
    if !s.Ok? {
      return HighFailed, looks;
    }
    verdict, looks := AwaitResponse(cs, c0, auto, target, o, poll, polls, t0, threshold);
  }

  method AwaitResponse(cs: ControlSet, ghost c0: Camera, auto: nat, target: nat, o: Originals,
                       poll: nat -> seq<MeanSample>, polls: nat, t0: int, threshold: real)
    returns (v: LatencyVerdict, ghost looks: nat)
    requires Tuning(cs.env, c0, cs.State(), auto, target, o)
    requires Steady(cs.env, c0, cs.State(), auto, target, o) ==> Writable(cs.State(), target)
    modifies cs
    ensures Tuning(cs.env, c0, cs.State(), auto, target, o)
    ensures v.NoResponse? || v.Responded?
    ensures PollsJudged(v, poll, polls, t0, threshold, looks)
    ensures cs.State() == AfterPolls(cs.env, old(cs.State()), target, looks)
  {
    hide Tuning, Writable, Steady, AfterPause;
    ghost var c := cs.State();
    var q := 0;
    while q < polls
      invariant q <= polls
      invariant forall p :: 0 <= p < q ==> Silent(poll(p), t0, threshold)
      invariant cs.State() == AfterPolls(cs.env, c, target, q)
      invariant Tuning(cs.env, c0, cs.State(), auto, target, o)
      invariant Steady(cs.env, c0, cs.State(), auto, target, o) ==> Writable(cs.State(), target)
    {
      var recent := poll(q);
      var hit;
      ghost var k;
      hit, k := FindResponse(recent, t0, threshold);
      if hit.Some? {
        var n := CountFrames(recent, t0, hit.value);
        ResponseIsCounted(recent, t0, threshold, k);
        return Responded(hit.value, n), q;
      }
      PauseWriting(cs, c0, auto, target, o);
      q := q + 1;
    }
    return NoResponse, q;
  }

  // ---- the verdicts in numbers ---------------------------------------------------------------------

  /** What each verdict on the windows means: no step down by more than one level and a rise of at
      least `minDelta`, or the first step down by more, or too small a rise. */
  lemma EffectInNumbers(v: EffectVerdict, means: seq<real>, minDelta: real)
    requires MeansJudged(v, means, minDelta)
    ensures match v
      case Rose =>
        |means| >= 3 && means[|means| - 1] - means[0] >= minDelta
        && forall k :: 0 < k < |means| ==> means[k - 1] - means[k] <= 1.0
      case TooWeak =>
        |means| >= 3 && means[|means| - 1] - means[0] < minDelta
        && forall k :: 0 < k < |means| ==> means[k - 1] - means[k] <= 1.0
      case Decreased(i) =>
        0 < i < |means| && means[i - 1] - means[i] > 1.0
        && forall k :: 0 < k < i ==> means[k - 1] - means[k] <= 1.0
      case _ => false
  {
    assert forall k :: 0 < k < |means| && HoldsUp(means, k) ==> means[k - 1] - means[k] <= 1.0;
  }

  /** Captured after the write, and brighter than the baseline by more than 10 levels and by more than
      a quarter. */
  predicate Brightened(m: MeanSample, t0: int, base: real) {
    m.ptsNs > t0 && m.meanY - base > 10.0 && 4.0 * (m.meanY - base) > base
  }

  predicate NoneBrightened(poll: seq<MeanSample>, n: nat, t0: int, base: real)
    requires n <= |poll|
  {
    forall j :: 0 <= j < n ==> !Brightened(poll[j], t0, base)
  }

  lemma RespondsIffBrightened(m: MeanSample, t0: int, base: real)
    ensures Responds(m, t0, Threshold(base)) <==> Brightened(m, t0, base)
  {
  }

  lemma SilentIffNoneBrightened(poll: seq<MeanSample>, t0: int, base: real)
    ensures Silent(poll, t0, Threshold(base)) <==> NoneBrightened(poll, |poll|, t0, base)
  {
    hide Responds, Threshold, Brightened;
    forall j | 0 <= j < |poll|
      ensures Responds(poll[j], t0, Threshold(base)) <==> Brightened(poll[j], t0, base)
    {
      RespondsIffBrightened(poll[j], t0, base);
    }
  }

  /** The answer in numbers, from the verdict alone: the response is the very first sample after the
      write that is brighter by more than 10 levels and more than a quarter, over all polls in order;
      no response means that there is none in any poll. */
  lemma LatencyInNumbers(
      v: LatencyVerdict, env: Environment, before: Camera, auto: nat, manual: int, target: nat, sweep: seq<int>,
      baseline: seq<MeanSample>, poll: nat -> seq<MeanSample>, polls: nat, t0: int, looks: nat)
    requires LatencyJudged(v, env, before, auto, manual, target, sweep, baseline, poll, polls, t0, looks)
    ensures v.Responded? || v.NoResponse? ==> |baseline| > 0
    ensures v.NoResponse? ==>
      forall q :: 0 <= q < polls ==> NoneBrightened(poll(q), |poll(q)|, t0, baseline[|baseline| - 1].meanY)
    ensures v.Responded? ==>
      var base := baseline[|baseline| - 1].meanY;
      && looks < polls && (forall q :: 0 <= q < looks ==> NoneBrightened(poll(q), |poll(q)|, t0, base))
      && exists k: nat :: k < |poll(looks)| && poll(looks)[k].ptsNs == v.hitPts
           && Brightened(poll(looks)[k], t0, base) && NoneBrightened(poll(looks), k, t0, base)
  {
    if v.Responded? || v.NoResponse? {
      var base := baseline[|baseline| - 1].meanY;
      hide Responds, Threshold, Brightened, SetStatus, AfterSwitch, HasControls, ManualAccepted, Silent, NoneBrightened,
        AfterLow, FramesWithin;
      forall q | 0 <= q < looks
        ensures NoneBrightened(poll(q), |poll(q)|, t0, base)
      {
        SilentIffNoneBrightened(poll(q), t0, base);
      }
      if v.Responded? {
        var k: nat :| FirstResponse(poll(looks), t0, Threshold(base), k) && v.hitPts == poll(looks)[k].ptsNs;
        FirstIsBrightened(poll(looks), t0, base, k);
      }
    }
  }

  lemma FirstIsBrightened(poll: seq<MeanSample>, t0: int, base: real, k: nat)
    requires FirstResponse(poll, t0, Threshold(base), k)
    ensures k < |poll| && Brightened(poll[k], t0, base) && NoneBrightened(poll, k, t0, base)
  {
    hide Responds, Threshold, Brightened;
    forall j | 0 <= j <= k
      ensures Responds(poll[j], t0, Threshold(base)) <==> Brightened(poll[j], t0, base)
    {
      RespondsIffBrightened(poll[j], t0, base);
    }
  }
}
