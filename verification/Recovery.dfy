/** Hot-plug recovery of a capture device, and the controller's rebuild of the controls. */
module Recovery {
  import opened VideoFrames

  /** What one candidate path answers in one round: does it open, which card does it report (None:
      the query failed), can the format be negotiated and the buffers set up. */
  datatype Answer = Answer(opens: bool, card: Option<string>, negotiates: bool, buffers: bool)

  /** The outside world: answers per round and path, and the round at which Stop() is seen. */
  datatype World = World(answer: (nat, string) -> Answer, stopRound: nat)

  const FIRST_BACKOFF_MS: nat := 200
  const MAX_BACKOFF_MS: nat := 2000

  predicate Viable(card: string, a: Answer) {
    a.opens && (card != "" ==> a.card == Some(card)) && a.negotiates && a.buffers
  }

  /** by-path, by-id, original node; an unknown link is left out. */
  function Candidates(byPath: string, byId: string, node: string): (c: seq<string>)
    ensures |c| > 0 && c[|c| - 1] == node
  {
    (if byPath != "" then [byPath] else []) + (if byId != "" then [byId] else []) + [node]
  }

  /** Path k of `paths` is the first viable one in round r. */
  predicate FirstViable(w: World, card: string, paths: seq<string>, r: nat, k: nat) {
    && k < |paths| && Viable(card, w.answer(r, paths[k]))
    && forall j :: 0 <= j < k ==> !Viable(card, w.answer(r, paths[j]))
  }

  predicate NoneViable(w: World, card: string, paths: seq<string>, r: nat) {
    forall j :: 0 <= j < |paths| ==> !Viable(card, w.answer(r, paths[j]))
  }

  /** The waits before rounds 0, 1, .. n - 1: 200 ms, doubled each time, at most 2 s. */
  function Backoff(r: nat): nat {
    if r == 0 then FIRST_BACKOFF_MS
    else if 2 * Backoff(r - 1) < MAX_BACKOFF_MS then 2 * Backoff(r - 1) else MAX_BACKOFF_MS
  }

  function TotalWait(n: nat): nat {
    if n == 0 then 0 else TotalWait(n - 1) + Backoff(n - 1)
  }

  /** The first four waits double; every later one is two seconds. So a camera that comes back
      is retried at least every two seconds for as long as it takes. */
  lemma {:induction false} WaitsAreBounded(n: nat)
    ensures n >= 4 ==> Backoff(n) == MAX_BACKOFF_MS && TotalWait(n) == 3000 + (n - 4) * MAX_BACKOFF_MS
  {
    if n == 4 {
      var zero, one, two, three := 0, 1, 2, 3;
      assert Backoff(zero) == 200 && Backoff(one) == 400 && Backoff(two) == 800 && Backoff(three) == 1600;
      assert TotalWait(one) == TotalWait(zero) + Backoff(zero);
      assert TotalWait(two) == TotalWait(one) + Backoff(one);
      assert TotalWait(three) == TotalWait(two) + Backoff(two);
      assert TotalWait(n) == TotalWait(three) + Backoff(three);
    } else if n > 4 {
      WaitsAreBounded(n - 1);
    }
  }

  lemma WaitStep(r: nat)
    ensures Backoff(0) == FIRST_BACKOFF_MS && TotalWait(0) == 0
    ensures Backoff(r + 1) == if 2 * Backoff(r) < MAX_BACKOFF_MS then 2 * Backoff(r) else MAX_BACKOFF_MS
    ensures TotalWait(r + 1) == TotalWait(r) + Backoff(r)
  {
  }

  lemma FirstViableInside(w: World, card: string, paths: seq<string>, r: nat, k: nat)
    requires FirstViable(w, card, paths, r, k)
    ensures k < |paths|
    ensures var a := w.answer(r, paths[k]);
      a.opens && a.negotiates && a.buffers && (card != "" ==> a.card == Some(card))
  {
  }

  /** Nothing viable before `round`; then the first viable path of that round, or the stop. */
  ghost predicate SearchEnds(w: World, card: string, paths: seq<string>, recovered: bool, round: nat, choice: nat) {
    && (forall r :: 0 <= r < round ==> NoneViable(w, card, paths, r))
    && if recovered then round < w.stopRound && FirstViable(w, card, paths, round, choice) else round == w.stopRound
  }

  /** A camera that can be had is had: if in some round before the stop a candidate opens, can be
      negotiated and given buffers, and is of the known card, then the recovery succeeds, in that round
      at the latest. */
  lemma RecoversInTime(w: World, card: string, paths: seq<string>, recovered: bool, round: nat, choice: nat,
                       r: nat, k: nat)
    requires SearchEnds(w, card, paths, recovered, round, choice) && r < w.stopRound && k < |paths|
    requires var a := w.answer(r, paths[k]);
      a.opens && a.negotiates && a.buffers && (card != "" ==> a.card == Some(card))
    ensures recovered && round <= r
  {
    assert !NoneViable(w, card, paths, r) by {
      assert Viable(card, w.answer(r, paths[k]));
    }
  }

  lemma CandidateOrder(byPath: string, byId: string, node: string)
    ensures Candidates(byPath, byId, node) ==
      (if byPath != "" then [byPath] else []) + (if byId != "" then [byId] else []) + [node]
  {
  }

  class CaptureSource {
    // Remembered identities: empty when unknown.
    const byPath: string
    const byId: string
    const node: string
    const card: string
    var dev: Option<string>
    var pool: Option<string>
    var generation: nat
    var deviceLost: bool
    var statGeneration: nat
    var slept: nat

    constructor (byPath: string, byId: string, node: string, card: string)
      ensures this.byPath == byPath && this.byId == byId && this.node == node && this.card == card
      ensures dev == pool == Some(node) && generation == statGeneration == 0 && !deviceLost && slept == 0
    {
      this.byPath, this.byId, this.node, this.card := byPath, byId, node, card;
      dev, pool := Some(node), Some(node);
      generation, statGeneration, deviceLost, slept := 0, 0, false, 0;
    }

    /** One round: adopt the first viable path, or leave the source without a device. */
    method TryCandidates(w: World, r: nat, candidates: seq<string>) returns (adopted: bool, ghost k: nat)
      requires dev == pool == None && deviceLost
      modifies this`dev, this`pool, this`generation, this`statGeneration, this`deviceLost
      ensures deviceLost == !adopted
      ensures adopted ==> FirstViable(w, card, candidates, r, k) && dev == pool == Some(candidates[k])
                          && statGeneration == generation == old(generation) + 1
      ensures !adopted ==> NoneViable(w, card, candidates, r) && dev == pool == None
                           && generation == old(generation) && statGeneration == old(statGeneration)
    {
      var i := 0;
      while i < |candidates|
        invariant i <= |candidates|
        invariant forall j :: 0 <= j < i ==> !Viable(card, w.answer(r, candidates[j]))
        invariant dev == pool == None && deviceLost
        invariant generation == old(generation) && statGeneration == old(statGeneration)
      {
        var path := candidates[i];
        var a := w.answer(r, path);
        if a.opens && (card == "" || a.card == Some(card)) {
          dev := Some(path);
          if a.negotiates && a.buffers {
            pool := Some(path);
            generation := generation + 1;
            deviceLost := false;
            statGeneration := generation;
            return true, i;
          }
          dev := None;
          pool := None;
        }
        i := i + 1;
      }
      return false, 0;
    }

    /** Retries every candidate each round until one is viable or Stop() is seen. Succeeds iff some
        candidate is viable before the stop round; then the first viable candidate of the first
        such round was adopted, never one with another card when the card is known. */
    method RecoverDevice(w: World) returns (recovered: bool, ghost round: nat, ghost choice: nat)
      modifies this
      ensures var paths := Candidates(byPath, byId, node);
        && SearchEnds(w, card, paths, recovered, round, choice)
        && (recovered ==> dev == pool == Some(paths[choice])
                          && var a := w.answer(round, paths[choice]);
                             a.opens && a.negotiates && a.buffers && (card != "" ==> a.card == Some(card)))
        && (!recovered ==> dev == pool == None)
      ensures deviceLost == !recovered
      ensures generation == old(generation) + if recovered then 1 else 0
      ensures statGeneration == if recovered then generation else old(statGeneration)
      ensures slept == old(slept) + TotalWait(if recovered then round + 1 else round)
    {
      hide Candidates, Backoff, TotalWait, FirstViable, NoneViable, Viable;
      deviceLost := true;
      pool := None;
      dev := None;
      var candidates := [];
      if byPath != "" {
        candidates := candidates + [byPath];
      }
      if byId != "" {
        candidates := candidates + [byId];
      }
      candidates := candidates + [node];
      CandidateOrder(byPath, byId, node);
      assert candidates == Candidates(byPath, byId, node);
      WaitStep(0);
      var backoff := FIRST_BACKOFF_MS;
      var r := 0;
      while r < w.stopRound
        invariant r <= w.stopRound && backoff == Backoff(r)
        invariant forall q :: 0 <= q < r ==> NoneViable(w, card, candidates, q)
        invariant dev == pool == None && deviceLost
        invariant generation == old(generation) && statGeneration == old(statGeneration)
        invariant slept == old(slept) + TotalWait(r)
      {
        WaitStep(r);
        slept := slept + backoff;
        backoff := if 2 * backoff < MAX_BACKOFF_MS then 2 * backoff else MAX_BACKOFF_MS;
        var adopted;
        ghost var k;
        adopted, k := TryCandidates(w, r, candidates);
        if adopted {
          FirstViableInside(w, card, candidates, r, k);
          return true, r, k;
        }
        r := r + 1;
      }
      return false, r, 0;
    }
  }

  /** The physical port wins: if its stable link answers in the adopting round, it is adopted even
      when another candidate answers too. */
  lemma PortWins(w: World, card: string, byPath: string, byId: string, node: string, r: nat, k: nat)
    requires byPath != "" && Viable(card, w.answer(r, byPath))
    requires FirstViable(w, card, Candidates(byPath, byId, node), r, k)
    ensures Candidates(byPath, byId, node)[k] == byPath
  {
    var paths := Candidates(byPath, byId, node);
    assert paths[0] == byPath;
  }

  // ---- the controller's side -----------------------------------------------------------------

  type CameraId = nat

  /** Which camera a path opens, at one moment. */
  type Bus = string -> Option<CameraId>

  /** The part of a session that recovery maintenance reads and writes. `generation` is the
      source's published generation, None when the session has no source; `key` is the node the
      session was started on, `camera` what its source captures from, and `controls` the camera that
      its controls talk to. */
  datatype Watch = Watch(generation: Option<nat>, lastGeneration: nat, isV4l2: bool, controlsEpoch: nat,
                         key: string, camera: Option<CameraId>, controls: Option<CameraId>)

  predicate Outdated(s: Watch) {
    s.generation.Some? && s.generation.value != s.lastGeneration
  }

  /** The controls are opened anew on the session's key. */
  function RebuiltControls(s: Watch, bus: Bus): Watch {
    if s.isV4l2 then s.(controls := bus(s.key), controlsEpoch := s.controlsEpoch + 1) else s.(controls := None)
  }

  function Maintained(s: Watch, bus: Bus): Watch {
    if Outdated(s) then RebuiltControls(s.(lastGeneration := s.generation.value), bus) else s
  }

  method RebuildControls(s: Watch, bus: Bus) returns (rebuilt: Watch)
    ensures rebuilt == RebuiltControls(s, bus)
  {
    rebuilt := s.(controls := None);
    if !s.isV4l2 {
      return;
    }
    var found := bus(s.key);
    if found.Some? {
      rebuilt := rebuilt.(controls := found);
    }
    rebuilt := rebuilt.(controlsEpoch := rebuilt.controlsEpoch + 1);
  }

  /** Each session whose source recovered since the last look gets its controls rebuilt, once;
      the epoch tells panels to reload only for capture devices. */
  method MaintainRecovery(sessions: array<Watch>, bus: Bus) returns (rebuilt: nat)
    modifies sessions
    ensures forall i :: 0 <= i < sessions.Length ==> sessions[i] == Maintained(old(sessions[i]), bus)
    ensures rebuilt == Outdates(old(sessions[..]))
  {
    hide RebuiltControls;
    var i := 0;
    rebuilt := 0;
    ghost var was := sessions[..];
    assert was[..0] == [];
    while i < sessions.Length
      invariant i <= sessions.Length
      invariant forall j :: i <= j < sessions.Length ==> sessions[j] == was[j]
      invariant forall j :: 0 <= j < i ==> sessions[j] == Maintained(was[j], bus)
      invariant rebuilt == Outdates(was[..i])
    {
      var s := sessions[i];
      assert was[..i + 1][..i] == was[..i];
      if s.generation.Some? {
        if s.generation.value != s.lastGeneration {
          s := RebuildControls(s.(lastGeneration := s.generation.value), bus);
          rebuilt := rebuilt + 1;
          sessions[i] := s;
        }
      }
      i := i + 1;
    }
    assert was[..sessions.Length] == was;
  }

  function Outdates(s: seq<Watch>): nat {
    if |s| == 0 then 0 else Outdates(s[..|s| - 1]) + if Outdated(s[|s| - 1]) then 1 else 0
  }

  /** One look is enough: the next one changes nothing until another recovery is published. */
  lemma MaintainedOnce(s: Watch, bus: Bus, later: Bus)
    ensures Maintained(Maintained(s, bus), later) == Maintained(s, bus)
  {
  }

  /** The world of a recovery and the bus afterwards agree on what opens in round r. */
  ghost predicate SeesBus(w: World, r: nat, bus: Bus) {
    forall path :: w.answer(r, path).opens <==> bus(path).Some?
  }

  /** The session of a source that was started on `node` and has just adopted `path`. */
  predicate JustRecovered(s: Watch, node: string, path: string, bus: Bus) {
    Outdated(s) && s.isV4l2 && s.key == node && s.camera == bus(path)
  }

  /** After a recovery the controls talk to the camera that is captured exactly if the original node
      leads to it: always if the node itself was adopted, and never if the node has gone or belongs
      to another camera now. */
  lemma ControlsFollowIff(w: World, card: string, byPath: string, byId: string, node: string, r: nat, k: nat,
                          s: Watch, bus: Bus)
    requires FirstViable(w, card, Candidates(byPath, byId, node), r, k) && SeesBus(w, r, bus)
    requires JustRecovered(s, node, Candidates(byPath, byId, node)[k], bus)
    ensures var path, after := Candidates(byPath, byId, node)[k], Maintained(s, bus);
      && after.camera.Some? && (after.controls == after.camera <==> bus(node) == bus(path))
      && (path == node ==> after.controls == after.camera)
      && (after.controls.None? <==> !w.answer(r, node).opens)
  {
    assert w.answer(r, Candidates(byPath, byId, node)[k]).opens;
  }

  // Camera 7 was plugged in first, as video0. It comes back in the same port as video2, while
  // camera 8 of the same make has taken video0.
  const PORT: string := "by-path/1"
  const NODE: string := "video0"

  function SwappedBus(path: string): Option<CameraId> {
    if path == PORT || path == "video2" then Some(7) else if path == NODE then Some(8) else None
  }

  function SwappedWorld(): World {
    World((r, path) => Answer(SwappedBus(path).Some?, Some("Cam"), true, true), 1)
  }

  /** A recovery by port on a new node: the source captures camera 7, the controls drive camera 8. */
  lemma RecoveryByPortLosesControls(s: Watch, k: nat)
    requires FirstViable(SwappedWorld(), "Cam", Candidates(PORT, "", NODE), 0, k)
    requires JustRecovered(s, NODE, Candidates(PORT, "", NODE)[k], SwappedBus)
    ensures Maintained(s, SwappedBus).camera == Some(7) && Maintained(s, SwappedBus).controls == Some(8)
  {
    PortWins(SwappedWorld(), "Cam", PORT, "", NODE, 0, k);
  }
}
