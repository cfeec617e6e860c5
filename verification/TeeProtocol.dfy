/** The frame tee as a protocol between the render thread, which runs the session
    manager's operations, and one producer thread per live source.

    Every operation of the session manager is a program of atomic actions; producers may
    take a step between any two of them. The state below is the memory both sides share. */
module TeeProtocol {
  import opened VideoFrames

  datatype SourceKind = V4l2 | Gst

  /** The session record of the render thread: what it owns. */
  datatype Session = Session(
    id: nat, kind: SourceKind, key: string,
    source: Option<nat>, recorder: Option<nat>, rtsp: Option<nat>)

  /** A live source object: the session that owns it, the sink pointer its producer loads,
      the running flag, and whether its thread was joined. */
  datatype Source = Source(owner: nat, tee: Option<nat>, running: bool, joined: bool)

  /** `sources`, `fanouts` (by session id) and `sinks` are the objects currently alive;
      `ownedBy` records for which session a recorder or RTSP sink was made; `failed` are the
      recorders whose writer left, before any Stop, because no pipeline could be built. */
  datatype App = App(
    sessions: seq<Session>, selected: string, nextId: nat,
    sources: map<nat, Source>, fanouts: map<nat, seq<nat>>,
    sinks: set<nat>, external: set<nat>, ownedBy: map<nat, nat>, nextObject: nat, failed: set<nat>)

  const EMPTY_APP := App([], "", 1, map[], map[], {}, {}, map[], 0, {})

  datatype Slot = Recorder | Rtsp

  datatype Action =
    | PushSession(kind: SourceKind, key: string)
    | SetKind(i: nat, kind: SourceKind)
    | AdoptSource(i: nat)
    | Select(key: string)
    | MakeSink(i: nat, slot: Slot)
    | AddSink(f: nat, x: nat)
    | RemoveSink(f: nat, x: nat)
    | StopSink(i: nat, slot: Slot)
    | DestroySink(i: nat, slot: Slot)
    | SetTee(s: nat, t: Option<nat>)
    | ClearRunning(s: nat)
    | JoinThread(s: nat)
    | DestroySource(i: nat)
    | EraseSession(i: nat)
    | ClearSessions
    | MakeExternal
    | DropExternal(x: nat)

  function SinkIn(s: Session, slot: Slot): Option<nat> {
    match slot
    case Recorder => s.recorder
    case Rtsp => s.rtsp
  }

  function PutSink(s: Session, slot: Slot, x: Option<nat>): Session {
    match slot
    case Recorder => s.(recorder := x)
    case Rtsp => s.(rtsp := x)
  }

  function Without(s: seq<nat>, x: nat): (r: seq<nat>)
    ensures forall y :: y in r <==> y in s && y != x
  {
    if |s| == 0 then []
    else
      var rest := Without(s[..|s| - 1], x);
      assert s == s[..|s| - 1] + [s[|s| - 1]];
      if s[|s| - 1] == x then rest else rest + [s[|s| - 1]]
  }

  function With(s: seq<nat>, x: nat): (r: seq<nat>)
    ensures forall y :: y in r <==> y in s || y == x
  {
    if x in s then s else s + [x]
  }

  /** What may not be done: using an object that is gone, destroying one that the other
      thread can still reach, or forgetting a source whose thread was not joined. */
  ghost predicate Allowed(a: Action, p: App) {
    match a
    case PushSession(_, _) => p.nextId !in p.fanouts
    case SetKind(i, _) => i < |p.sessions|
    case AdoptSource(i) => i < |p.sessions| && p.sessions[i].source.None? && p.sessions[i].id in p.fanouts
    case Select(_) => true
    case MakeSink(i, slot) => i < |p.sessions| && SinkIn(p.sessions[i], slot).None?
    case AddSink(f, x) =>
      f in p.fanouts && x in p.sinks && (x in p.external || (x in p.ownedBy && p.ownedBy[x] == f))
    case RemoveSink(f, x) => f in p.fanouts
    case StopSink(i, slot) =>
      i < |p.sessions| && SinkIn(p.sessions[i], slot).Some? && SinkIn(p.sessions[i], slot).value in p.sinks
    case DestroySink(i, slot) =>
      && i < |p.sessions| && SinkIn(p.sessions[i], slot).Some?
      && var x := SinkIn(p.sessions[i], slot).value;
         x in p.sinks && x in p.ownedBy && forall f :: f in p.fanouts ==> x !in p.fanouts[f]
    case SetTee(s, t) => s in p.sources && (t.Some? ==> t.value == p.sources[s].owner)
    case ClearRunning(s) => s in p.sources
    case JoinThread(s) => s in p.sources && !p.sources[s].running
    case DestroySource(i) =>
      && i < |p.sessions| && p.sessions[i].source.Some?
      && p.sessions[i].source.value in p.sources && p.sources[p.sessions[i].source.value].joined
    case EraseSession(i) =>
      && i < |p.sessions| && p.sessions[i].id in p.fanouts
      && forall s :: s in p.sources ==> p.sources[s].owner != p.sessions[i].id
    case ClearSessions =>
      forall s, i :: s in p.sources && 0 <= i < |p.sessions| ==> p.sources[s].owner != p.sessions[i].id
    case MakeExternal => true
    case DropExternal(x) => x in p.external && forall f :: f in p.fanouts ==> x !in p.fanouts[f]
  }

  /** Destroying a failed recorder ends the process: Stop did not join its thread. */
  predicate Fatal(a: Action, p: App) {
    && a.DestroySink? && a.slot.Recorder? && a.i < |p.sessions|
    && p.sessions[a.i].recorder.Some? && p.sessions[a.i].recorder.value in p.failed
  }

  function SessionIds(sessions: seq<Session>): set<nat> {
    set i | 0 <= i < |sessions| :: sessions[i].id
  }

  function Apply(a: Action, p: App): App
    requires Allowed(a, p)
  {
    match a
    case PushSession(kind, key) =>
      p.(sessions := p.sessions + [Session(p.nextId, kind, key, None, None, None)],
         fanouts := p.fanouts[p.nextId := []],
         nextId := p.nextId + 1)
    case SetKind(i, kind) => p.(sessions := p.sessions[i := p.sessions[i].(kind := kind)])
    case AdoptSource(i) =>
      p.(sessions := p.sessions[i := p.sessions[i].(source := Some(p.nextObject))],
         sources := p.sources[p.nextObject := Source(p.sessions[i].id, None, true, false)],
         nextObject := p.nextObject + 1)
    case Select(key) => p.(selected := key)
    case MakeSink(i, slot) =>
      p.(sessions := p.sessions[i := PutSink(p.sessions[i], slot, Some(p.nextObject))],
         sinks := p.sinks + {p.nextObject},
         ownedBy := p.ownedBy[p.nextObject := p.sessions[i].id],
         nextObject := p.nextObject + 1)
    case AddSink(f, x) => p.(fanouts := p.fanouts[f := With(p.fanouts[f], x)])
    case RemoveSink(f, x) => p.(fanouts := p.fanouts[f := Without(p.fanouts[f], x)])
    case StopSink(_, _) => p
    case DestroySink(i, slot) =>
      p.(sessions := p.sessions[i := PutSink(p.sessions[i], slot, None)],
         sinks := p.sinks - {SinkIn(p.sessions[i], slot).value})
    case SetTee(s, t) => p.(sources := p.sources[s := p.sources[s].(tee := t)])
    case ClearRunning(s) => p.(sources := p.sources[s := p.sources[s].(running := false)])
    case JoinThread(s) => p.(sources := p.sources[s := p.sources[s].(joined := true)])
    case DestroySource(i) =>
      p.(sessions := p.sessions[i := p.sessions[i].(source := None)],
         sources := p.sources - {p.sessions[i].source.value})
    case EraseSession(i) =>
      p.(sessions := p.sessions[..i] + p.sessions[i + 1..],
         fanouts := p.fanouts - {p.sessions[i].id})
    case ClearSessions => p.(sessions := [], fanouts := p.fanouts - SessionIds(p.sessions))
    case MakeExternal =>
      p.(sinks := p.sinks + {p.nextObject}, external := p.external + {p.nextObject},
         nextObject := p.nextObject + 1)
    case DropExternal(x) => p.(sinks := p.sinks - {x}, external := p.external - {x})
  }

  // ---- what holds between any two actions ----------------------------------------

  /** Nothing alive points to something dead, and fresh names are fresh. */
  ghost predicate WellLinked(p: App) {
    && (forall s :: s in p.sources ==> p.sources[s].owner in p.fanouts)
    && (forall s :: s in p.sources && p.sources[s].tee.Some? ==> p.sources[s].tee.value == p.sources[s].owner)
    && (forall s :: s in p.sources && p.sources[s].joined ==> !p.sources[s].running)
    && (forall f, x :: f in p.fanouts && x in p.fanouts[f] ==> x in p.sinks)
    && (forall f, x :: f in p.fanouts && x in p.fanouts[f] ==>
          x in p.external || (x in p.ownedBy && p.ownedBy[x] == f))
    && (forall f :: f in p.fanouts ==> f < p.nextId)
    && (forall s :: s in p.sources ==> s < p.nextObject)
    && (forall x :: x in p.sinks ==> x < p.nextObject)
    && (forall x :: x in p.ownedBy ==> x < p.nextObject)
    && (forall x :: x in p.external ==> x in p.sinks && x !in p.ownedBy)
  }

  lemma NewSinkKeepsLinks(a: Action, p: App)
    requires WellLinked(p) && Allowed(a, p)
    requires a.MakeSink? || a.MakeExternal?
    ensures WellLinked(Apply(a, p))
  {
  }

  lemma SinkGoneKeepsLinks(a: Action, p: App)
    requires WellLinked(p) && Allowed(a, p)
    requires a.DestroySink? || a.DropExternal?
    ensures WellLinked(Apply(a, p))
  {
  }

  lemma FanoutActionKeepsLinks(a: Action, p: App)
    requires WellLinked(p) && Allowed(a, p)
    requires a.AddSink? || a.RemoveSink?
    ensures WellLinked(Apply(a, p))
  {
  }

  lemma SourceActionKeepsLinks(a: Action, p: App)
    requires WellLinked(p) && Allowed(a, p)
    requires a.AdoptSource? || a.SetTee? || a.ClearRunning? || a.JoinThread? || a.DestroySource?
    ensures WellLinked(Apply(a, p))
  {
  }

  /** No allowed action leaves a pointer to a dead object. */
  lemma ApplyKeepsLinks(a: Action, p: App)
    requires WellLinked(p) && Allowed(a, p)
    ensures WellLinked(Apply(a, p))
  {
    if a.MakeSink? || a.MakeExternal? {
      NewSinkKeepsLinks(a, p);
    } else if a.DestroySink? || a.DropExternal? {
      SinkGoneKeepsLinks(a, p);
    } else if a.AddSink? || a.RemoveSink? {
      FanoutActionKeepsLinks(a, p);
    } else if a.AdoptSource? || a.SetTee? || a.ClearRunning? || a.JoinThread? || a.DestroySource? {
      SourceActionKeepsLinks(a, p);
    }
  }

  // ---- what holds between any two operations -------------------------------------

  /** An owned sink is alive, made for this session, and in its fanout, and the session's
      current source is live and tees to that fanout. */
  ghost predicate SinkAttached(p: App, s: Session, x: nat) {
    && x in p.sinks && x in p.ownedBy && p.ownedBy[x] == s.id
    && s.id in p.fanouts && x in p.fanouts[s.id]
    && s.source.Some? && s.source.value in p.sources && p.sources[s.source.value].tee == Some(s.id)
  }

  ghost predicate SessionOk(p: App, s: Session) {
    && s.id < p.nextId && s.id in p.fanouts
    && (s.source.Some? ==>
         s.source.value in p.sources && p.sources[s.source.value].owner == s.id
         && !p.sources[s.source.value].joined)
    && (s.recorder.Some? ==> SinkAttached(p, s, s.recorder.value))
    && (s.rtsp.Some? ==> SinkAttached(p, s, s.rtsp.value))
    && (s.recorder.Some? ==> s.recorder != s.rtsp)
    && (forall x :: x in p.fanouts[s.id] ==> x in p.external || s.recorder == Some(x) || s.rtsp == Some(x))
    && (forall r :: r in p.sources && p.sources[r].owner == s.id ==> s.source == Some(r))
  }

  /** The session manager's invariant. */
  ghost predicate Quiescent(p: App) {
    && WellLinked(p)
    && (forall i :: 0 <= i < |p.sessions| ==> SessionOk(p, p.sessions[i]))
    && (forall i, j :: 0 <= i < j < |p.sessions| ==> p.sessions[i].id != p.sessions[j].id)
    && (forall i, j :: 0 <= i < j < |p.sessions| ==> p.sessions[i].key != p.sessions[j].key)
  }

  // ---- programs ------------------------------------------------------------------

  ghost predicate AllAllowed(prog: seq<Action>, p: App) {
    |prog| == 0 || (Allowed(prog[0], p) && AllAllowed(prog[1..], Apply(prog[0], p)))
  }

  ghost function Exec(prog: seq<Action>, p: App): App
    requires AllAllowed(prog, p)
  {
    if |prog| == 0 then p else Exec(prog[1..], Apply(prog[0], p))
  }

  lemma {:induction false} ExecConcat(a: seq<Action>, b: seq<Action>, p: App)
    requires AllAllowed(a, p) && AllAllowed(b, Exec(a, p))
    ensures AllAllowed(a + b, p)
    ensures Exec(a + b, p) == Exec(b, Exec(a, p))
  {
    if |a| == 0 {
      assert a + b == b;
    } else {
      ExecConcat(a[1..], b, Apply(a[0], p));
      assert (a + b)[1..] == a[1..] + b;
    }
  }

  /** A program that runs through, runs through part by part. */
  lemma {:induction false} Unfold(first: seq<Action>, second: seq<Action>, p: App)
    requires AllAllowed(first + second, p)
    ensures AllAllowed(first, p) && AllAllowed(second, Exec(first, p))
    ensures Exec(first + second, p) == Exec(second, Exec(first, p))
  {
    if |first| == 0 {
      assert first + second == second;
    } else {
      assert (first + second)[1..] == first[1..] + second;
      Unfold(first[1..], second, Apply(first[0], p));
    }
  }

  lemma ExecStep(a: Action, rest: seq<Action>, p: App)
    requires Allowed(a, p) && AllAllowed(rest, Apply(a, p))
    ensures AllAllowed([a] + rest, p)
    ensures Exec([a] + rest, p) == Exec(rest, Apply(a, p))
  {
    assert ([a] + rest)[1..] == rest;
  }

  lemma ExecOne(a: Action, p: App)
    requires Allowed(a, p)
    ensures AllAllowed([a], p) && Exec([a], p) == Apply(a, p)
  {
    assert [a][1..] == [];
  }

  // ---- programs that end the process -------------------------------------------------

  /** Some action of the program ends the process before the program is through. */
  ghost predicate EndsProcess(prog: seq<Action>, p: App)
    requires AllAllowed(prog, p)
  {
    |prog| > 0 && (Fatal(prog[0], p) || EndsProcess(prog[1..], Apply(prog[0], p)))
  }

  lemma {:induction false} EndsConcat(a: seq<Action>, b: seq<Action>, p: App)
    requires AllAllowed(a, p) && AllAllowed(b, Exec(a, p))
    ensures AllAllowed(a + b, p)
    ensures EndsProcess(a + b, p) <==> EndsProcess(a, p) || EndsProcess(b, Exec(a, p))
  {
    hide Allowed, Apply, Fatal;
    ExecConcat(a, b, p);
    if |a| == 0 {
      assert a + b == b;
    } else {
      EndsConcat(a[1..], b, Apply(a[0], p));
      assert (a + b)[1..] == a[1..] + b;
    }
  }

  predicate Harmless(prog: seq<Action>) {
    forall a :: a in prog ==> !a.DestroySink? || a.slot.Rtsp?
  }

  lemma {:induction false} HarmlessSurvives(prog: seq<Action>, p: App)
    requires AllAllowed(prog, p) && Harmless(prog)
    ensures !EndsProcess(prog, p)
  {
    hide Allowed, Apply;
    if |prog| > 0 {
      assert prog[0] in prog;
      HarmlessSurvives(prog[1..], Apply(prog[0], p));
    }
  }

  /** A harmless rest does not matter. */
  lemma TailSurvives(a: seq<Action>, b: seq<Action>, p: App)
    requires AllAllowed(a + b, p) && Harmless(b)
    ensures AllAllowed(a, p)
    ensures EndsProcess(a + b, p) <==> EndsProcess(a, p)
  {
    hide AllAllowed, Exec, EndsProcess, Harmless;
    Unfold(a, b, p);
    EndsConcat(a, b, p);
    HarmlessSurvives(b, Exec(a, p));
  }

  lemma {:induction false} ExecKeepsFailed(prog: seq<Action>, p: App)
    requires AllAllowed(prog, p)
    ensures Exec(prog, p).failed == p.failed
  {
    hide Allowed;
    if |prog| > 0 {
      ExecKeepsFailed(prog[1..], Apply(prog[0], p));
    }
  }
}
