/** V4L2 control descriptors and the introspection walk over a driver's control table. */
module Controls {
  import opened VideoFrames

  datatype ControlType =
    Integer | Integer64 | Boolean | Menu | IntegerMenu | Bitmask | Button | String | UnknownType

  /** A driver-provided name, or the decimal text of an integer-menu value. */
  datatype Label = Named(text: string) | DecimalText(value: int)

  datatype MenuItem = MenuItem(value: int, title: Label)

  datatype ControlInfo = ControlInfo(
    id: nat, name: string, kind: ControlType,
    minimum: int, maximum: int, step: int, defaultValue: int,
    flags: bv32, menu: seq<MenuItem>)
  {
    predicate IsInactive() { flags & 0x0010 != 0 }
    predicate IsReadOnly() { flags & 0x0004 != 0 }
    predicate IsVolatile() { flags & 0x0080 != 0 }
    predicate IsDisabled() { flags & 0x0001 != 0 }
  }

  /** What QUERYMENU returns for one index. */
  datatype MenuEntry = MenuEntry(name: string, value: int)

  /** One row of the driver's table, as QUERY_EXT_CTRL reports it. */
  datatype Entry = Entry(
    id: nat, name: string, v4l2Type: nat, compound: bool,
    minimum: int, maximum: int, step: int, defaultValue: int, flags: bv32,
    menu: map<nat, MenuEntry>)

  /** `rows` in any order; an older kernel rejects the NEXT_COMPOUND flag. */
  datatype Driver = Driver(rows: seq<Entry>, knowsCompound: bool)

  const TYPE_CTRL_CLASS: nat := 6
  const TYPE_INTEGER_MENU: nat := 9

  function MapType(t: nat): ControlType {
    match t
    case 1 => Integer
    case 2 => Boolean
    case 3 => Menu
    case 4 => Button
    case 5 => Integer64
    case 7 => String
    case 8 => Bitmask
    case 9 => IntegerMenu
    case _ => UnknownType
  }

  /** Two's-complement reading of a number's low 32 bits. */
  function Int32(v: int): int {
    var low := v % 0x1_0000_0000;
    if low < 0x8000_0000 then low else low - 0x1_0000_0000
  }

  function UInt32(v: int): nat { v % 0x1_0000_0000 }

  // ---- the driver's side of the walk -------------------------------------------------------

  /** Rows a walk may return: compound controls only when both flags are given. */
  predicate Offered(e: Entry, both: bool) {
    e.id > 0 && (both || !e.compound)
  }

  predicate IsNext(rows: seq<Entry>, cursor: nat, both: bool, e: Entry) {
    && e in rows && Offered(e, both) && e.id > cursor
    && forall k :: 0 <= k < |rows| && Offered(rows[k], both) && rows[k].id > cursor ==> e.id <= rows[k].id
  }

  /** The offered row with the least id above the cursor. */
  function NextControl(rows: seq<Entry>, cursor: nat, both: bool): (r: Option<Entry>)
    ensures r.Some? ==> IsNext(rows, cursor, both, r.value)
    ensures r.None? ==> forall k :: 0 <= k < |rows| ==> !(Offered(rows[k], both) && rows[k].id > cursor)
  {
    if |rows| == 0 then None
    else
      var rest, last := NextControl(rows[..|rows| - 1], cursor, both), rows[|rows| - 1];
      if !(Offered(last, both) && last.id > cursor) then rest
      else if rest.Some? && rest.value.id <= last.id then rest
      else Some(last)
  }

  /** QUERY_EXT_CTRL with a cursor and the walk's flags. */
  function QueryNext(d: Driver, cursor: nat, both: bool): Option<Entry> {
    if both && !d.knowsCompound then None else NextControl(d.rows, cursor, both)
  }

  // ---- menus ---------------------------------------------------------------------------------

  predicate ValidIndex(e: Entry, idx: int) {
    e.minimum <= idx <= e.maximum && UInt32(idx) in e.menu
  }

  function ItemAt(e: Entry, idx: int): MenuItem
    requires UInt32(idx) in e.menu
  {
    var q := e.menu[UInt32(idx)];
    if e.v4l2Type == TYPE_INTEGER_MENU then MenuItem(q.value, DecimalText(q.value))
    else MenuItem(idx, Named(q.name))
  }

  /** The items of indices lo, lo + 1, .. hi - 1 that the driver knows. */
  function MenuItems(e: Entry, lo: int, hi: int): seq<MenuItem>
    decreases hi - lo
  {
    if hi <= lo then []
    else MenuItems(e, lo, hi - 1) + if UInt32(hi - 1) in e.menu then [ItemAt(e, hi - 1)] else []
  }

  function MenuOf(e: Entry): seq<MenuItem> {
    if MapType(e.v4l2Type).Menu? || MapType(e.v4l2Type).IntegerMenu?
    then MenuItems(e, e.minimum, e.maximum + 1) else []
  }

  method PopulateMenu(e: Entry) returns (menu: seq<MenuItem>)
    ensures menu == MenuItems(e, e.minimum, e.maximum + 1)
  {
    menu := [];
    var idx := e.minimum;
    while idx <= e.maximum
      invariant e.minimum <= idx && (idx <= e.maximum + 1 || idx == e.minimum)
      invariant menu == MenuItems(e, e.minimum, idx)
    {
      if UInt32(idx) in e.menu {
        menu := menu + [ItemAt(e, idx)];
      }
      idx := idx + 1;
    }
  }

  /** The valid indices below hi, ascending, each once. */
  ghost predicate ListsValidIndices(indices: seq<int>, e: Entry, hi: int) {
    && (forall j, k :: 0 <= j < k < |indices| ==> indices[j] < indices[k])
    && (forall k :: 0 <= k < |indices| ==> indices[k] < hi && ValidIndex(e, indices[k]))
    && (forall idx :: idx < hi && ValidIndex(e, idx) ==> idx in indices)
  }

  /** A menu of either kind lists exactly the valid indices in range: item k is that of the k-th
      valid index. */
  lemma {:induction false} MenuListsValidIndices(e: Entry, hi: int) returns (indices: seq<int>)
    requires hi <= e.maximum + 1
    ensures ListsValidIndices(indices, e, hi)
    ensures |MenuItems(e, e.minimum, hi)| == |indices|
    ensures forall k :: 0 <= k < |indices| ==> MenuItems(e, e.minimum, hi)[k] == ItemAt(e, indices[k])
    decreases hi - e.minimum
  {
    indices := [];
    if hi > e.minimum {
      indices := MenuListsValidIndices(e, hi - 1);
      if UInt32(hi - 1) in e.menu {
        indices := indices + [hi - 1];
      }
    }
  }

  // ---- the walk ------------------------------------------------------------------------------

  /** The low 32 bits as a signed number: the one number of that range that differs from v by a multiple
      of 2^32, v itself if it is in range. */
  lemma Int32IsLowWord(v: int, w: int)
    requires -0x8000_0000 <= w < 0x8000_0000
    ensures Int32(v) == w <==> (v - w) % 0x1_0000_0000 == 0
  {
    var low := v % 0x1_0000_0000;
    assert v == v / 0x1_0000_0000 * 0x1_0000_0000 + low;
    if (v - w) % 0x1_0000_0000 == 0 {
      var k := (v - w) / 0x1_0000_0000;
      assert v == k * 0x1_0000_0000 + w;
    }
  }

  /** The kernel's type numbers: every kind comes from one of them, and all others are unknown. */
  lemma KindOfType(e: Entry)
    ensures var kind := Describe(e).kind;
      && (kind == Integer <==> e.v4l2Type == 1) && (kind == Boolean <==> e.v4l2Type == 2)
      && (kind == Menu <==> e.v4l2Type == 3) && (kind == Button <==> e.v4l2Type == 4)
      && (kind == Integer64 <==> e.v4l2Type == 5) && (kind == String <==> e.v4l2Type == 7)
      && (kind == Bitmask <==> e.v4l2Type == 8) && (kind == IntegerMenu <==> e.v4l2Type == 9)
      && (kind == UnknownType <==> e.v4l2Type == 0 || e.v4l2Type == 6 || e.v4l2Type > 9)
  {
    hide MenuOf;
  }

  /** Menus belong to types 3 and 9 only. Item k shows the k-th index that the driver knows: its name
      under the index itself in a menu, its number as value and text in an integer menu. */
  lemma MenuShowsItems(e: Entry) returns (indices: seq<int>)
    ensures e.v4l2Type != 3 && e.v4l2Type != 9 ==> Describe(e).menu == []
    ensures e.v4l2Type == 3 || e.v4l2Type == 9 ==>
      && ListsValidIndices(indices, e, e.maximum + 1) && |Describe(e).menu| == |indices|
      && forall k :: 0 <= k < |indices| ==>
           && indices[k] % 0x1_0000_0000 in e.menu
           && var entry := e.menu[indices[k] % 0x1_0000_0000];
              Describe(e).menu[k] == if e.v4l2Type == 9 then MenuItem(entry.value, DecimalText(entry.value))
                                     else MenuItem(indices[k], Named(entry.name))
  {
    indices := MenuListsValidIndices(e, e.maximum + 1);
    hide MenuItems;
    forall k | 0 <= k < |indices|
      ensures UInt32(indices[k]) in e.menu
    {
      assert ValidIndex(e, indices[k]);
    }
  }

  /** What the list leaves out: class markers (type 6), compound controls of an older kernel, and a row
      without an id. */
  lemma ShownIff(e: Entry, both: bool)
    ensures Shown(e, both) <==> e.id > 0 && e.v4l2Type != 6 && (e.compound ==> both)
  {
  }

  function Describe(e: Entry): ControlInfo {
    ControlInfo(e.id, e.name, MapType(e.v4l2Type), e.minimum, e.maximum, e.step, e.defaultValue,
                e.flags, MenuOf(e))
  }

  /** A row that the list should show: offered, and not a class marker. */
  predicate Shown(e: Entry, both: bool) {
    Offered(e, both) && e.v4l2Type != TYPE_CTRL_CLASS
  }

  predicate Ascending(controls: seq<ControlInfo>) {
    forall j, k :: 0 <= j < k < |controls| ==> controls[j].id < controls[k].id
  }

  ghost predicate ListsShownUpTo(controls: seq<ControlInfo>, rows: seq<Entry>, both: bool, cursor: nat) {
    && Ascending(controls)
    && (forall k :: 0 <= k < |rows| && Shown(rows[k], both) && rows[k].id <= cursor ==> Describe(rows[k]) in controls)
    && (forall j :: 0 <= j < |controls| ==> controls[j].id <= cursor && FromRow(controls[j], rows, both))
  }

  ghost predicate FromRow(c: ControlInfo, rows: seq<Entry>, both: bool) {
    exists e :: e in rows && Shown(e, both) && c == Describe(e)
  }

  /** Exactly the shown rows, ascending by id, so each once. */
  ghost predicate ListsShown(controls: seq<ControlInfo>, rows: seq<Entry>, both: bool) {
    && Ascending(controls)
    && (forall k :: 0 <= k < |rows| && Shown(rows[k], both) ==> Describe(rows[k]) in controls)
    && (forall j :: 0 <= j < |controls| ==> FromRow(controls[j], rows, both))
  }

  predicate DistinctIds(rows: seq<Entry>) {
    forall j, k :: 0 <= j < k < |rows| ==> rows[j].id != rows[k].id
  }

  function LargestId(rows: seq<Entry>): (m: nat)
    ensures forall k :: 0 <= k < |rows| ==> rows[k].id <= m
  {
    if |rows| == 0 then 0
    else
      var rest := LargestId(rows[..|rows| - 1]);
      if rest > rows[|rows| - 1].id then rest else rows[|rows| - 1].id
  }

  /** Returning the row after the cursor extends the list by that row and no other. */
  lemma WalkStep(controls: seq<ControlInfo>, rows: seq<Entry>, both: bool, cursor: nat, e: Entry)
    requires DistinctIds(rows) && ListsShownUpTo(controls, rows, both, cursor) && IsNext(rows, cursor, both, e)
    ensures ListsShownUpTo(if Shown(e, both) then controls + [Describe(e)] else controls, rows, both, e.id)
  {
    var longer := if Shown(e, both) then controls + [Describe(e)] else controls;
    forall k | 0 <= k < |rows| && Shown(rows[k], both) && rows[k].id <= e.id
      ensures Describe(rows[k]) in longer
    {
      if rows[k].id > cursor {
        assert rows[k].id == e.id && rows[k] == e;
        assert longer[|longer| - 1] == Describe(e);
      } else {
        var j :| 0 <= j < |controls| && controls[j] == Describe(rows[k]);
        assert longer[j] == Describe(rows[k]);
      }
    }
    forall j | 0 <= j < |longer|
      ensures longer[j].id <= e.id && FromRow(longer[j], rows, both)
    {
      if j < |controls| {
        assert longer[j] == controls[j];
      }
    }
  }

  /** One walk: terminates on every finite table, whatever its order. */
  method WalkControls(d: Driver, both: bool) returns (controls: seq<ControlInfo>)
    requires DistinctIds(d.rows)
    ensures both && !d.knowsCompound ==> controls == []
    ensures !both || d.knowsCompound ==> ListsShown(controls, d.rows, both)
  {
    hide Describe, Shown, ListsShownUpTo;
    controls := [];
    var id := 0;
    NothingListedYet(controls, d.rows, both);
    while true
      invariant ListsShownUpTo(controls, d.rows, both, id)
      invariant both && !d.knowsCompound ==> controls == []
      decreases LargestId(d.rows) - id
    {
      var next := QueryNext(d, id, both);
      if next.None? {
        if !both || d.knowsCompound {
          WalkDone(controls, d.rows, both, id);
        }
        break;
      }
      var e := next.value;
      WalkStep(controls, d.rows, both, id, e);
      ShownUnlessClass(e, both);
      id := e.id;
      if e.v4l2Type != TYPE_CTRL_CLASS {
        var menu := [];
        if MapType(e.v4l2Type).Menu? || MapType(e.v4l2Type).IntegerMenu? {
          menu := PopulateMenu(e);
        }
        DescribeIs(e, menu);
        controls := controls + [ControlInfo(e.id, e.name, MapType(e.v4l2Type), e.minimum, e.maximum,
                                            e.step, e.defaultValue, e.flags, menu)];
      }
    }
  }

  lemma NothingListedYet(controls: seq<ControlInfo>, rows: seq<Entry>, both: bool)
    requires controls == []
    ensures ListsShownUpTo(controls, rows, both, 0)
  {
  }

  lemma ShownUnlessClass(e: Entry, both: bool)
    requires Offered(e, both)
    ensures Shown(e, both) <==> e.v4l2Type != TYPE_CTRL_CLASS
  {
  }

  lemma DescribeIs(e: Entry, menu: seq<MenuItem>)
    requires menu == MenuOf(e)
    ensures Describe(e) == ControlInfo(e.id, e.name, MapType(e.v4l2Type), e.minimum, e.maximum,
                                       e.step, e.defaultValue, e.flags, menu)
  {
  }

  lemma WalkDone(controls: seq<ControlInfo>, rows: seq<Entry>, both: bool, cursor: nat)
    requires ListsShownUpTo(controls, rows, both, cursor)
    requires forall k :: 0 <= k < |rows| ==> !(Offered(rows[k], both) && rows[k].id > cursor)
    ensures ListsShown(controls, rows, both)
  {
  }

  /** Both kinds in one walk; a plain walk when that lists nothing. Whatever the kernel, the list
      is exactly the controls it can show. */
  method Enumerate(d: Driver) returns (controls: seq<ControlInfo>)
    requires DistinctIds(d.rows)
    ensures ListsShown(controls, d.rows, d.knowsCompound)
  {
    controls := WalkControls(d, true);
    if |controls| == 0 {
      ghost var first := controls;
      controls := WalkControls(d, false);
      if d.knowsCompound {
        NothingShown(first, controls, d.rows);
      }
    }
  }

  lemma ShownWithoutCompound(first: seq<ControlInfo>, controls: seq<ControlInfo>, rows: seq<Entry>)
    requires ListsShown(first, rows, true) && ListsShown(controls, rows, false) && |controls| > 0
    ensures |first| > 0
  {
    assert FromRow(controls[0], rows, false);
    var e :| e in rows && Shown(e, false) && controls[0] == Describe(e);
    assert Shown(e, true);
    assert Describe(e) in first;
  }

  lemma NothingShown(first: seq<ControlInfo>, controls: seq<ControlInfo>, rows: seq<Entry>)
    requires |first| == 0 && ListsShown(first, rows, true) && ListsShown(controls, rows, false)
    ensures controls == first
  {
    if |controls| > 0 {
      ShownWithoutCompound(first, controls, rows);
    }
  }
}
