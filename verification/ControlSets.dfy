/** Reading and writing controls through a cached list that is re-introspected after every write. */
module ControlSets {
  import opened VideoFrames
  import opened Controls

  datatype Status = Ok | NotFound | InvalidArgument | Unsupported | DeviceError

  /** The driver and the camera behind it. `describe` is what there is to list: the flags may
      depend on all current values. Each operation and each pause has its own tick: whether a write
      or read succeeds, what a write really stores, what the introspection after it lists (a query
      that fails cuts the walk short), and what the watched control drifts to in a pause. */
  datatype Environment = Environment(
    describe: map<nat, int> -> seq<ControlInfo>,
    introspect: (nat, map<nat, int>) -> seq<ControlInfo>,
    accepts: nat -> bool,
    stored: (nat, int) -> int,
    readable: nat -> bool,
    drift: nat -> Option<int>)

  datatype Camera = Camera(open: bool, values: map<nat, int>, controls: seq<ControlInfo>, tick: nat)

  function FindIn(controls: seq<ControlInfo>, id: nat): (r: Option<ControlInfo>)
    ensures r.Some? ==> r.value in controls && r.value.id == id
    ensures r.None? ==> forall k :: 0 <= k < |controls| ==> controls[k].id != id
  {
    if |controls| == 0 then None
    else if controls[0].id == id then Some(controls[0])
    else FindIn(controls[1..], id)
  }

  /** Set's refusals before it touches the driver, in the order they are checked. */
  function Refusal(c: Camera, id: nat): Option<Status> {
    if !c.open then Some(InvalidArgument)
    else match FindIn(c.controls, id)
      case None => Some(NotFound)
      case Some(info) =>
        if info.IsReadOnly() then Some(InvalidArgument)
        else if info.IsInactive() then Some(InvalidArgument)
        else if info.IsDisabled() then Some(Unsupported)
        else None
  }

  predicate Settable(controls: seq<ControlInfo>, id: nat) {
    match FindIn(controls, id)
    case None => false
    case Some(info) => !info.IsReadOnly() && !info.IsInactive() && !info.IsDisabled()
  }

  predicate Wide(controls: seq<ControlInfo>, id: nat) {
    match FindIn(controls, id)
    case None => false
    case Some(info) => info.kind.Integer64?
  }

  /** Only 64-bit controls carry more than 32 bits. */
  function Narrowed(controls: seq<ControlInfo>, id: nat, v: int): int {
    if Wide(controls, id) then v else Int32(v)
  }

  function SetStatus(env: Environment, c: Camera, id: nat, v: int): Status {
    match Refusal(c, id)
    case Some(why) => why
    case None => if id in c.values && env.accepts(c.tick) then Ok else DeviceError
  }

  function AfterSet(env: Environment, c: Camera, id: nat, v: int): Camera {
    if Refusal(c, id).Some? then c
    else if SetStatus(env, c, id, v) == DeviceError then c.(tick := c.tick + 1)
    else
      var values := c.values[id := env.stored(c.tick, Narrowed(c.controls, id, v))];
      Camera(c.open, values, env.introspect(c.tick, values), c.tick + 1)
  }

  function GetStatus(env: Environment, c: Camera, id: nat): Status {
    if !c.open then InvalidArgument
    else if id in c.values && env.readable(c.tick) then Ok else DeviceError
  }

  function AfterGet(c: Camera): Camera {
    if c.open then c.(tick := c.tick + 1) else c
  }

  function AfterPause(env: Environment, c: Camera, id: nat): Camera {
    var moved := env.drift(c.tick);
    var values := if id in c.values && moved.Some? then c.values[id := moved.value] else c.values;
    Camera(c.open, values, c.controls, c.tick + 1)
  }

  lemma RefusedUnlessSettable(c: Camera, id: nat)
    ensures Refusal(c, id).None? <==> c.open && Settable(c.controls, id)
  {
  }

  /** By the driver's flag bits: DISABLED 0x01, READ_ONLY 0x04 and INACTIVE 0x10 must all be clear;
      an unknown control is not found, one that is disabled and nothing else is unsupported. */
  lemma RefusedByFlags(c: Camera, id: nat)
    requires c.open
    ensures match FindIn(c.controls, id)
      case None => Refusal(c, id) == Some(NotFound)
      case Some(info) =>
        && (Refusal(c, id).None? <==> info.flags & 0x0015 == 0)
        && (Refusal(c, id) == Some(Unsupported) <==> info.flags & 0x0015 == 0x0001)
        && (Refusal(c, id) == Some(InvalidArgument) <==> info.flags & 0x0014 != 0)
  {
    hide FindIn;
  }

  /** Of all controls a driver can describe just those of V4L2 type 5 are written and read with more
      than 32 bits. */
  lemma OnlyType5IsWide(controls: seq<ControlInfo>, e: Entry, v: int)
    requires FindIn(controls, e.id) == Some(Describe(e))
    ensures Narrowed(controls, e.id, v) == if e.v4l2Type == 5 then v else Int32(v)
  {
    hide FindIn, MenuOf;
  }

  class ControlSet {
    const env: Environment
    // The device: its registers, and a clock of ioctls and pauses.
    var open: bool
    var values: map<nat, int>
    var tick: nat
    // The cached descriptors.
    var controls: seq<ControlInfo>

    constructor (env: Environment, open: bool, values: map<nat, int>)
      ensures this.env == env && State() == Camera(open, values, [], 0)
    {
      this.env, this.open, this.values, this.tick, this.controls := env, open, values, 0, [];
    }

    ghost function State(): Camera
      reads this
    {
      Camera(open, values, controls, tick)
    }

    method Refresh() returns (st: Status)
      modifies this`controls, this`tick
      ensures st == if open then Ok else InvalidArgument
      ensures controls == if open then env.introspect(old(tick), values) else old(controls)
      ensures tick == old(tick) + 1
    {
      tick := tick + 1;
      st := RefreshLocked(tick - 1);
    }

    /** Ok says only that the device is open: a walk cut short goes unnoticed. */
    method RefreshLocked(t: nat) returns (st: Status)
      modifies this`controls
      ensures st == if open then Ok else InvalidArgument
      ensures controls == if open then env.introspect(t, values) else old(controls)
    {
      if !open {
        return InvalidArgument;
      }
      controls := env.introspect(t, values);
      return Ok;
    }

    method Find(id: nat) returns (r: Option<ControlInfo>)
      ensures r == FindIn(controls, id)
    {
      var k := 0;
      while k < |controls|
        invariant k <= |controls|
        invariant FindIn(controls, id) == FindIn(controls[k..], id)
      {
        if controls[k].id == id {
          return Some(controls[k]);
        }
        assert controls[k..][1..] == controls[k + 1..];
        k := k + 1;
      }
      return None;
    }

    method Get(id: nat) returns (st: Status, value: int)
      modifies this`tick
      ensures st == GetStatus(env, old(State()), id) && State() == AfterGet(old(State()))
      ensures if st.Ok? then id in values && value == Narrowed(controls, id, values[id]) else value == 0
    {
      value := 0;
      if !open {
        return InvalidArgument, value;
      }
      var info := Find(id);
      var wide := info.Some? && info.value.kind.Integer64?;
      var t := tick;
      tick := tick + 1;
      if id !in values || !env.readable(t) {
        return DeviceError, value;
      }
      value := if wide then values[id] else Int32(values[id]);
      return Ok, value;
    }

    method Set(id: nat, value: int) returns (st: Status)
      modifies this`values, this`controls, this`tick
      ensures st == SetStatus(env, old(State()), id, value)
      ensures State() == AfterSet(env, old(State()), id, value)
    {
      if !open {
        return InvalidArgument;
      }
      var info := Find(id);
      if info.None? {
        return NotFound;
      }
      if info.value.IsReadOnly() {
        return InvalidArgument;
      }
      if info.value.IsInactive() {
        return InvalidArgument;
      }
      if info.value.IsDisabled() {
        return Unsupported;
      }
      var written := if info.value.kind.Integer64? then value else Int32(value);
      var t := tick;
      tick := tick + 1;
      if id !in values || !env.accepts(t) {
        return DeviceError;
      }
      values := values[id := env.stored(t, written)];
      st := RefreshLocked(t);
    }

    /** Time passes; the camera may move control `id` by itself. */
    method Pause(id: nat)
      modifies this`values, this`tick
      ensures State() == AfterPause(env, old(State()), id)
    {
      var moved := env.drift(tick);
      if id in values && moved.Some? {
        values := values[id := moved.value];
      }
      tick := tick + 1;
    }
  }

  // ---- restoring a control and the auto mode that governs it ----------------------------------

  /** The two lists agree on whether and how `id` can be written. */
  predicate SameAccess(a: seq<ControlInfo>, b: seq<ControlInfo>, id: nat) {
    (Settable(a, id) <==> Settable(b, id)) && (Wide(a, id) <==> Wide(b, id))
  }

  /** Writing v to `changed` leaves the access to `id` alone. */
  predicate AccessKept(env: Environment, m: map<nat, int>, changed: nat, v: int, id: nat) {
    SameAccess(env.describe(m[changed := v]), env.describe(m), id)
  }

  predicate WidthKept(env: Environment, m: map<nat, int>, changed: nat, v: int, id: nat) {
    Wide(env.describe(m[changed := v]), id) <==> Wide(env.describe(m), id)
  }

  /** The target's access may depend on the auto control but not on its own value; the auto
      control's access depends on neither. `auto` is 0 when there is none. */
  ghost predicate Tunable(env: Environment, auto: nat, target: nat) {
    && (forall m: map<nat, int>, v: int :: AccessKept(env, m, target, v, target))
    && (auto != 0 ==>
          && (forall m: map<nat, int>, v: int :: AccessKept(env, m, target, v, auto))
          && (forall m: map<nat, int>, v: int :: AccessKept(env, m, auto, v, auto))
          && (forall m: map<nat, int>, v: int :: WidthKept(env, m, auto, v, target)))
  }

  /** The driver takes whatever is written at tick t, exactly. */
  ghost predicate Honest(env: Environment, t: nat) {
    env.accepts(t) && forall v: int :: env.stored(t, v) == v
  }

  /** The walk at tick t lists everything there is. */
  ghost predicate Complete(env: Environment, t: nat) {
    forall m: map<nat, int> :: env.introspect(t, m) == env.describe(m)
  }

  ghost predicate AllComplete(env: Environment, from: nat, to: nat) {
    forall t :: from <= t < to ==> Complete(env, t)
  }

  /** From `c` the originals of `c0` can be written back. */
  ghost predicate Restorable(env: Environment, c0: Camera, c: Camera, auto: nat, target: nat) {
    && c.open && c.values.Keys == c0.values.Keys && target in c0.values
    && (forall k :: k in c0.values && k != auto && k != target ==> c.values[k] == c0.values[k])
    && SameAccess(c.controls, env.describe(c.values), target)
    && (Wide(c.controls, target) <==> Wide(c0.controls, target))
    && (c.values[target] == c0.values[target] || Settable(c.controls, target))
    && (auto == 0 && auto in c.values ==> c.values[auto] == c0.values[auto])
    && (auto != 0 ==> auto in c.values && AutoRestorable(env, c0, c, auto))
  }

  ghost predicate AutoRestorable(env: Environment, c0: Camera, c: Camera, auto: nat)
    requires auto in c.values && auto in c0.values
  {
    && SameAccess(c.controls, env.describe(c.values), auto)
    && (Wide(c.controls, auto) <==> Wide(c0.controls, auto))
    && (c.values[auto] == c0.values[auto] || Settable(c.controls, auto))
  }

  ghost predicate Coherent(env: Environment, c: Camera, id: nat) {
    SameAccess(c.controls, env.describe(c.values), id)
  }

  /** A register holds what its control can: 32 bits unless it is wide. */
  predicate Representable(c: Camera, id: nat) {
    id in c.values && Narrowed(c.controls, id, c.values[id]) == c.values[id]
  }

  lemma StartRestorable(env: Environment, c: Camera, auto: nat, target: nat)
    requires c.open && target in c.values && Coherent(env, c, target)
    requires auto != 0 ==> auto in c.values && Coherent(env, c, auto)
    ensures Restorable(env, c, c, auto, target)
  {
  }

  lemma SetAutoRestorable(env: Environment, c0: Camera, c: Camera, auto: nat, target: nat, v: int)
    requires Restorable(env, c0, c, auto, target) && Tunable(env, auto, target) && auto != 0 && auto != target
    requires c.values[target] == c0.values[target] && Complete(env, c.tick)
    ensures Restorable(env, c0, AfterSet(env, c, auto, v), auto, target)
    ensures AfterSet(env, c, auto, v).values[target] == c0.values[target]
  {
    hide FindIn;
    RefusedUnlessSettable(c, auto);
    var x := env.stored(c.tick, Narrowed(c.controls, auto, v));
    assert AccessKept(env, c.values, auto, x, auto) && WidthKept(env, c.values, auto, x, target);
    hide Refusal, Settable, Wide;
  }

  lemma SetTargetRestorable(env: Environment, c0: Camera, c: Camera, auto: nat, target: nat, v: int)
    requires Restorable(env, c0, c, auto, target) && Tunable(env, auto, target) && auto != target
    requires Complete(env, c.tick)
    ensures Restorable(env, c0, AfterSet(env, c, target, v), auto, target)
    ensures SetStatus(env, c, target, v).Ok? ==> Settable(AfterSet(env, c, target, v).controls, target)
    ensures auto != 0 ==> AfterSet(env, c, target, v).values[auto] == c.values[auto]
  {
    hide FindIn;
    RefusedUnlessSettable(c, target);
    var x := env.stored(c.tick, Narrowed(c.controls, target, v));
    assert AccessKept(env, c.values, target, x, target);
    assert auto != 0 ==> AccessKept(env, c.values, target, x, auto);
    hide Refusal, Settable, Wide;
  }

  lemma PauseRestorable(env: Environment, c0: Camera, c: Camera, auto: nat, target: nat)
    requires Restorable(env, c0, c, auto, target) && Tunable(env, auto, target) && auto != target
    requires Settable(c.controls, target)
    ensures Restorable(env, c0, AfterPause(env, c, target), auto, target)
  {
    hide FindIn, Settable, Wide;
    if env.drift(c.tick).Some? {
      var x := env.drift(c.tick).value;
      assert AccessKept(env, c.values, target, x, target);
      assert auto != 0 ==> AccessKept(env, c.values, target, x, auto);
    }
  }

  lemma GetRestorable(env: Environment, c0: Camera, c: Camera, auto: nat, target: nat)
    requires Restorable(env, c0, c, auto, target)
    ensures Restorable(env, c0, AfterGet(c), auto, target)
  {
    hide FindIn, Settable, Wide;
  }

  // ---- what restoring brings back ---------------------------------------------------------------

  datatype Originals = Originals(haveTarget: bool, target: int, haveAuto: bool, auto: int)

  /** What reading target, then auto, yields in state c. */
  function OriginalsRead(env: Environment, c: Camera, auto: nat, target: nat): Originals {
    var haveTarget := GetStatus(env, c, target).Ok?;
    var haveAuto := auto != 0 && GetStatus(env, AfterGet(c), auto).Ok?;
    Originals(haveTarget, if haveTarget then Narrowed(c.controls, target, c.values[target]) else 0,
              haveAuto, if haveAuto then Narrowed(c.controls, auto, c.values[auto]) else 0)
  }

  function AfterTargetRestore(env: Environment, c: Camera, target: nat, o: Originals): Camera {
    if o.haveTarget then AfterSet(env, c, target, o.target) else c
  }

  /** Restore target, then auto, as far as they could be read. */
  function AfterRestore(env: Environment, c: Camera, auto: nat, target: nat, o: Originals): Camera {
    var first := AfterTargetRestore(env, c, target, o);
    if auto != 0 && o.haveAuto then AfterSet(env, first, auto, o.auto) else first
  }

  predicate Unmoved(c0: Camera, c: Camera, id: nat) {
    id in c0.values ==> id in c.values && c.values[id] == c0.values[id]
  }

  /** The guard that decides whether a register comes back: it was not moved, or its original is
      known and the cached list shows it as writable. */
  predicate ComesBack(c0: Camera, c: Camera, controls: seq<ControlInfo>, id: nat, have: bool) {
    Unmoved(c0, c, id) || (have && Settable(controls, id))
  }

  /** Both registers come back: the target by the list at hand, auto by the list after the target's
      restore. */
  predicate RestoreReaches(env: Environment, c0: Camera, c: Camera, auto: nat, target: nat, o: Originals) {
    && ComesBack(c0, c, c.controls, target, o.haveTarget)
    && (auto != 0 ==> ComesBack(c0, c, AfterTargetRestore(env, c, target, o).controls, auto, o.haveAuto))
  }

  /** Where `controls` lists id, it does so with the width it had in c0. */
  predicate SameWidth(c0: Camera, controls: seq<ControlInfo>, id: nat) {
    FindIn(controls, id).Some? ==> (Wide(controls, id) <==> Wide(c0.controls, id))
  }

  /** The width of a control is not something a walk changes. */
  ghost predicate WidthFixed(env: Environment, c0: Camera, id: nat) {
    forall t: nat, m: map<nat, int> :: SameWidth(c0, env.introspect(t, m), id)
  }

  /** c is c0 but for the target, auto, the list and the clock. */
  ghost predicate OnlyTuned(c0: Camera, c: Camera, auto: nat, target: nat) {
    && c.open == c0.open && c.values.Keys == c0.values.Keys
    && forall k :: k in c0.values && k != target && (auto == 0 || k != auto) ==> c.values[k] == c0.values[k]
  }

  /** The register, if there is one, holds what its control can. */
  predicate Fits(c: Camera, id: nat) {
    id in c.values ==> Representable(c, id)
  }

  ghost predicate HonestWhile(env: Environment, from: nat, to: nat) {
    forall t :: from <= t < to ==> Honest(env, t)
  }

  /** Writing an original back on an honest driver: it arrives exactly if the control is settable. */
  lemma HonestWrite(env: Environment, c0: Camera, c: Camera, id: nat)
    requires c.open && id in c.values && id in c0.values
    requires Representable(c0, id) && SameWidth(c0, c.controls, id)
    requires HonestWhile(env, c.tick, AfterSet(env, c, id, c0.values[id]).tick)
    ensures AfterSet(env, c, id, c0.values[id]).values ==
            if Settable(c.controls, id) then c.values[id := c0.values[id]] else c.values
    ensures AfterSet(env, c, id, c0.values[id]).open
  {
    RefusedUnlessSettable(c, id);
    hide FindIn, Refusal;
    if Settable(c.controls, id) {
      assert FindIn(c.controls, id).Some?;
      TicksGrow(env, c, id, c0.values[id]);
      assert Honest(env, c.tick);
      assert Narrowed(c.controls, id, c0.values[id]) == c0.values[id];
    }
  }

  lemma TicksGrow(env: Environment, c: Camera, id: nat, v: int)
    ensures c.tick <= AfterSet(env, c, id, v).tick <= c.tick + 1
    ensures c.open && Settable(c.controls, id) ==> AfterSet(env, c, id, v).tick == c.tick + 1
  {
    RefusedUnlessSettable(c, id);
    hide Refusal, Settable;
  }

  lemma RefusedUnchanged(env: Environment, c: Camera, id: nat, v: int)
    requires AfterSet(env, c, id, v).tick == c.tick || Refusal(c, id).Some?
    ensures AfterSet(env, c, id, v) == c
  {
  }

  /** After the target's restore its register is the original exactly if it comes back, and no other
      register has changed. */
  lemma TargetComesBackIff(env: Environment, c0: Camera, c: Camera, auto: nat, target: nat)
    requires OnlyTuned(c0, c, auto, target) && Fits(c0, target) && SameWidth(c0, c.controls, target)
    requires var o := OriginalsRead(env, c0, auto, target);
      HonestWhile(env, c.tick, AfterTargetRestore(env, c, target, o).tick)
    ensures var o := OriginalsRead(env, c0, auto, target);
      var first := AfterTargetRestore(env, c, target, o);
      && (Unmoved(c0, first, target) <==> ComesBack(c0, c, c.controls, target, o.haveTarget))
      && OnlyTuned(c0, first, auto, target)
      && forall k :: k in c.values && k != target ==> first.values[k] == c.values[k]
  {
    hide AfterSet, Settable, Wide, FindIn, Honest;
    if OriginalsRead(env, c0, auto, target).haveTarget {
      HonestWrite(env, c0, c, target);
    }
  }

  /** Restoring on an honest driver brings every register back if and only if the guards let it:
      whatever walks were cut short and whatever was refused, moved or unreadable before. */
  lemma RestoreReturnsIff(env: Environment, c0: Camera, c: Camera, auto: nat, target: nat)
    requires auto != target && OnlyTuned(c0, c, auto, target)
    requires Fits(c0, target) && SameWidth(c0, c.controls, target)
    requires var first := AfterTargetRestore(env, c, target, OriginalsRead(env, c0, auto, target));
      auto != 0 ==> Fits(c0, auto) && SameWidth(c0, first.controls, auto)
    requires HonestWhile(env, c.tick, AfterRestore(env, c, auto, target, OriginalsRead(env, c0, auto, target)).tick)
    ensures var o := OriginalsRead(env, c0, auto, target);
      AfterRestore(env, c, auto, target, o).values == c0.values <==> RestoreReaches(env, c0, c, auto, target, o)
  {
    hide AfterSet, Settable, Wide, FindIn, Honest;
    var o := OriginalsRead(env, c0, auto, target);
    var first := AfterTargetRestore(env, c, target, o);
    TicksGrow(env, c, target, o.target);
    TicksGrow(env, first, auto, o.auto);
    TargetComesBackIff(env, c0, c, auto, target);
    if auto != 0 && o.haveAuto {
      HonestWrite(env, c0, first, auto);
    }
    hide GetStatus, Representable, Narrowed, OriginalsRead, SameWidth;
    AllUnmoved(c0, AfterRestore(env, c, auto, target, o), auto, target);
  }

  lemma AllUnmoved(c0: Camera, c: Camera, auto: nat, target: nat)
    requires OnlyTuned(c0, c, auto, target)
    ensures c.values == c0.values <==> Unmoved(c0, c, target) && (auto != 0 ==> Unmoved(c0, c, auto))
  {
  }

  /** In particular from any restorable state, if the walks after the restore writes are complete. */
  lemma RestoreReturns(env: Environment, c0: Camera, c: Camera, auto: nat, target: nat)
    requires Restorable(env, c0, c, auto, target) && Tunable(env, auto, target) && auto != target
    requires Representable(c0, target) && (auto != 0 ==> Representable(c0, auto))
    requires var o := OriginalsRead(env, c0, auto, target);
      && o.haveTarget && (auto != 0 ==> o.haveAuto)
      && (forall t :: c.tick <= t < AfterRestore(env, c, auto, target, o).tick ==> Honest(env, t) && Complete(env, t))
    ensures AfterRestore(env, c, auto, target, OriginalsRead(env, c0, auto, target)).values == c0.values
  {
    hide AfterSet, Tunable, Settable, Wide, Honest, FindIn;
    var o := OriginalsRead(env, c0, auto, target);
    var first := AfterTargetRestore(env, c, target, o);
    TicksGrow(env, c, target, o.target);
    TicksGrow(env, first, auto, o.auto);
    if first.tick > c.tick {
      SetTargetRestorable(env, c0, c, auto, target, o.target);
    } else {
      RefusedUnchanged(env, c, target, o.target);
    }
    RestoreReturnsIff(env, c0, c, auto, target);
  }
}
