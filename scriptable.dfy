/**
 * The script resource bridge (src/scriptable.rs).
 *
 * A script system declares the resources it reads and writes by id. On each
 * run it borrows exactly those resources from the world, narrows each one to
 * its reflection view through the meta table, calls its Lua callback with the
 * views, and hands the single Lua interpreter back to the scheduler.
 *
 * The world is a map from resource id to the borrow state of that resource's
 * cell; the meta table is the set of ids registered in it; the interpreter
 * channel is one field saying who holds the interpreter; the callback is an
 * outcome supplied by the caller.
 */
module Scriptable {
  import opened Wrappers

  /** `ResourceId`: identifies a resource type; `ResourceId::new::<T>()` is `ResourceId(name of T)`. */
  datatype ResourceId = ResourceId(typeName: string)

  /** The id of the `ReflectionTable` resource (the meta table). */
  const ReflectionTableId: ResourceId := ResourceId("ReflectionTable")

  // ---------------------------------------------------------------------------
  // Resource table
  // ---------------------------------------------------------------------------

  /** `ResourceTable`: maps resource names to resource ids. */
  class ResourceTable {
    var entries: map<string, ResourceId>

    /** `ResourceTable::new`: no name is registered. */
    constructor ()
      ensures entries == map[]
    {
      entries := map[];
    }

    /**
     * `register::<T>(name)`, with `id` standing for `ResourceId::new::<T>()`:
     * afterwards `name` looks up `id`, whatever it looked up before, and every
     * other registered name is unchanged.
     */
    method Register(name: string, id: ResourceId)
      modifies this
      ensures entries == old(entries)[name := id]
      ensures entries.Keys == old(entries.Keys) + {name}
      ensures Get(name) == id
      ensures forall n :: n in old(entries) && n != name ==> Get(n) == old(Get(n))
    {
      entries := entries[name := id];
    }

    /** `get`: the id registered under `name`; the source unwraps, so the name must be registered. */
    function Get(name: string): (id: ResourceId)
      reads this
      requires name in entries
      ensures (name, id) in entries.Items
    {
      entries[name]
    }
  }

  // ---------------------------------------------------------------------------
  // Dependencies (the accessor)
  // ---------------------------------------------------------------------------

  /** `Dependencies`: the ids a script system declares it reads and writes, in declaration order. */
  datatype Dependencies = Dependencies(readIds: seq<ResourceId>, writeIds: seq<ResourceId>)
  {
    /** `Accessor::reads`: the declared reads followed by the meta table's id; the stored list is left as it is. */
    function Reads(): (r: seq<ResourceId>)
      ensures |r| == |readIds| + 1
      ensures r[..|readIds|] == readIds
      ensures r[|readIds|] == ReflectionTableId
    {
      readIds + [ReflectionTableId]
    }

    /** `Accessor::writes`: a copy of the declared writes, with nothing added (unlike `Reads`). */
    function Writes(): (r: seq<ResourceId>)
      ensures r == writeIds
    {
      writeIds
    }
  }

  /** `Accessor::try_new`: there is no default accessor. */
  function TryNew(): (r: Option<Dependencies>)
    ensures r == None
  {
    None
  }

  // ---------------------------------------------------------------------------
  // The world's borrow state
  // ---------------------------------------------------------------------------

  /** The borrow state of one resource cell: a number of outstanding shared borrows, or one exclusive borrow. */
  datatype BorrowState = Shared(count: nat) | Exclusive

  type Cells = map<ResourceId, BorrowState>

  /** One borrow taken by `fetch`, in the order taken. */
  datatype BorrowEvent = SharedBorrow(id: ResourceId) | ExclusiveBorrow(id: ResourceId)

  /** `try_fetch_internal(id).expect(..).borrow()`: `None` where the source panics (missing, or exclusively borrowed). */
  function ShareOne(cells: Cells, id: ResourceId): Option<Cells> {
    if id in cells && cells[id].Shared? then Some(cells[id := Shared(cells[id].count + 1)]) else None
  }

  /** `try_fetch_internal(id).expect(..).borrow_mut()`: `None` where the source panics (missing, or borrowed at all). */
  function LockOne(cells: Cells, id: ResourceId): Option<Cells> {
    if id in cells && cells[id] == Shared(0) then Some(cells[id := Exclusive]) else None
  }

  /** Shared borrows of `ids`, one at a time, in order. */
  function ShareEach(cells: Cells, ids: seq<ResourceId>): Option<Cells>
    decreases |ids|
  {
    if ids == [] then Some(cells)
    else
      match ShareEach(cells, ids[..|ids| - 1])
      case None => None
      case Some(c) => ShareOne(c, ids[|ids| - 1])
  }

  /** Exclusive borrows of `ids`, one at a time, in order. */
  function LockEach(cells: Cells, ids: seq<ResourceId>): Option<Cells>
    decreases |ids|
  {
    if ids == [] then Some(cells)
    else
      match LockEach(cells, ids[..|ids| - 1])
      case None => None
      case Some(c) => LockOne(c, ids[|ids| - 1])
  }

  /**
   * The borrows `fetch` takes, step by step: every declared read shared, then
   * every declared write exclusive, then the meta table shared. `None` when
   * one of them would panic.
   */
  function Acquire(cells: Cells, d: Dependencies): Option<Cells> {
    match ShareEach(cells, d.readIds)
    case None => None
    case Some(c1) =>
      match LockEach(c1, d.writeIds)
      case None => None
      case Some(c2) => ShareOne(c2, ReflectionTableId)
  }

  predicate Distinct(ids: seq<ResourceId>) {
    forall i, j :: 0 <= i < j < |ids| ==> ids[i] != ids[j]
  }

  /**
   * When `fetch` does not panic: every id it borrows is in the world; no read
   * and not the meta table is held exclusively elsewhere; no write is borrowed
   * at all, is also read, is written twice, or is the meta table.
   */
  predicate FetchSucceeds(cells: Cells, d: Dependencies) {
    && (forall id :: id in d.readIds ==> id in cells && cells[id].Shared?)
    && (forall id :: id in d.writeIds ==> id in cells && cells[id] == Shared(0))
    && (forall id :: id in d.writeIds ==> id !in d.readIds && id != ReflectionTableId)
    && Distinct(d.writeIds)
    && ReflectionTableId in cells && cells[ReflectionTableId].Shared?
  }

  /** How many times `id` occurs in `ids`. */
  function Occurrences(ids: seq<ResourceId>, id: ResourceId): nat
    decreases |ids|
  {
    if ids == [] then 0
    else Occurrences(ids[..|ids| - 1], id) + if ids[|ids| - 1] == id then 1 else 0
  }

  lemma {:induction false} OccurrencesZero(ids: seq<ResourceId>, id: ResourceId)
    ensures Occurrences(ids, id) == 0 <==> id !in ids
    decreases |ids|
  {
    if ids != [] {
      var p, x := ids[..|ids| - 1], ids[|ids| - 1];
      assert ids == p + [x];
      OccurrencesZero(p, id);
    }
  }

  lemma OccurrencesSnoc(p: seq<ResourceId>, x: ResourceId, id: ResourceId)
    ensures Occurrences(p + [x], id) == Occurrences(p, id) + if x == id then 1 else 0
  {
    assert (p + [x])[..|p|] == p;
  }

  /** The number of shared borrows a fetch with declared reads `readIds` holds on `id`. */
  function SharedBorrows(readIds: seq<ResourceId>, id: ResourceId): nat {
    Occurrences(readIds, id) + if id == ReflectionTableId then 1 else 0
  }

  /** A cell's state after `n` more shared borrows; a cell held exclusively is left as it is. */
  function AddShares(s: BorrowState, n: nat): BorrowState {
    match s
    case Exclusive => Exclusive
    case Shared(c) => Shared(c + n)
  }

  /** The world after a successful fetch: writes held exclusively, one more shared borrow per read (and for the meta table). */
  function Acquired(cells: Cells, d: Dependencies): Cells
    requires FetchSucceeds(cells, d)
  {
    map k | k in cells :: if k in d.writeIds then Exclusive else AddShares(cells[k], SharedBorrows(d.readIds, k))
  }

  /** Every cell not held exclusively gains one shared borrow per occurrence of its id in `ids`. */
  function SharedAfter(cells: Cells, ids: seq<ResourceId>): Cells {
    map k | k in cells :: AddShares(cells[k], Occurrences(ids, k))
  }

  /** Every cell whose id is in `ids` is held exclusively. */
  function LockedAfter(cells: Cells, ids: seq<ResourceId>): Cells {
    map k | k in cells :: if k in ids then Exclusive else cells[k]
  }

  lemma SharedAfterStep(cells: Cells, p: seq<ResourceId>, x: ResourceId)
    requires x in cells && cells[x].Shared?
    ensures SharedAfter(cells, p)[x].Shared?
    ensures SharedAfter(cells, p + [x]) == SharedAfter(cells, p)[x := Shared(SharedAfter(cells, p)[x].count + 1)]
  {
    var before, after := SharedAfter(cells, p), SharedAfter(cells, p + [x]);
    var stepped := before[x := Shared(before[x].count + 1)];
    forall k | k in cells ensures after[k] == stepped[k] {
      OccurrencesSnoc(p, x, k);
    }
    assert after.Keys == stepped.Keys;
  }

  lemma LockedAfterStep(cells: Cells, p: seq<ResourceId>, x: ResourceId)
    requires x in cells
    ensures LockedAfter(cells, p + [x]) == LockedAfter(cells, p)[x := Exclusive]
  {
    var after, stepped := LockedAfter(cells, p + [x]), LockedAfter(cells, p)[x := Exclusive];
    assert forall k :: k in p + [x] <==> k in p || k == x;
    assert after.Keys == stepped.Keys;
  }

  /** Every id in `ids` names a cell that is present and not held exclusively. */
  predicate AllShareable(cells: Cells, ids: seq<ResourceId>) {
    forall i :: 0 <= i < |ids| ==> ids[i] in cells && cells[ids[i]].Shared?
  }

  /** Every id in `ids` names a cell that is present and not borrowed, and no id repeats. */
  predicate AllLockable(cells: Cells, ids: seq<ResourceId>) {
    (forall i :: 0 <= i < |ids| ==> ids[i] in cells && cells[ids[i]] == Shared(0)) && Distinct(ids)
  }

  lemma {:induction false} ShareEachEffect(cells: Cells, ids: seq<ResourceId>)
    ensures ShareEach(cells, ids).Some? <==> AllShareable(cells, ids)
    ensures ShareEach(cells, ids).Some? ==> ShareEach(cells, ids).value == SharedAfter(cells, ids)
    decreases |ids|
  {
    if ids == [] {
      assert SharedAfter(cells, ids) == cells;
    } else {
      var p, x := ids[..|ids| - 1], ids[|ids| - 1];
      assert ids == p + [x];
      ShareEachEffect(cells, p);
      assert AllShareable(cells, ids) <==> AllShareable(cells, p) && x in cells && cells[x].Shared? by {
        assert forall i :: 0 <= i < |p| ==> ids[i] == p[i];
      }
      var r := ShareEach(cells, p);
      if r.Some? && x in cells && cells[x].Shared? {
        SharedAfterStep(cells, p, x);
        assert ShareEach(cells, ids) == ShareOne(r.value, x);
      }
    }
  }

  lemma {:induction false} LockEachEffect(cells: Cells, ids: seq<ResourceId>)
    ensures LockEach(cells, ids).Some? <==> AllLockable(cells, ids)
    ensures LockEach(cells, ids).Some? ==> LockEach(cells, ids).value == LockedAfter(cells, ids)
    decreases |ids|
  {
    if ids == [] {
      assert LockedAfter(cells, ids) == cells;
    } else {
      var p, x := ids[..|ids| - 1], ids[|ids| - 1];
      assert ids == p + [x];
      LockEachEffect(cells, p);
      assert AllLockable(cells, ids) <==> AllLockable(cells, p) && x in cells && cells[x] == Shared(0) && x !in p by {
        DistinctSnoc(p, x);
        assert forall i :: 0 <= i < |p| ==> ids[i] == p[i];
      }
      var r := LockEach(cells, p);
      if r.Some? && x in cells {
        LockedAfterStep(cells, p, x);
        assert r.value[x] == Shared(0) <==> cells[x] == Shared(0) && x !in p;
        assert LockEach(cells, ids) == LockOne(r.value, x);
      }
    }
  }

  lemma DistinctSnoc(p: seq<ResourceId>, x: ResourceId)
    ensures Distinct(p + [x]) <==> Distinct(p) && x !in p
  {
    var ids := p + [x];
    if Distinct(ids) {
      forall i | 0 <= i < |p| ensures p[i] != x {
        assert ids[i] == p[i] && ids[|p|] == x;
      }
      forall i, j | 0 <= i < j < |p| ensures p[i] != p[j] {
        assert ids[i] == p[i] && ids[j] == p[j];
      }
    }
    if Distinct(p) && x !in p {
      forall i, j | 0 <= i < j < |ids| ensures ids[i] != ids[j] {
        if j < |p| {
          assert ids[i] == p[i] && ids[j] == p[j];
        } else {
          assert ids[i] == p[i] && ids[j] == x;
        }
      }
    }
  }

  /** After the shared pass, a cell is free exactly when it was free before and is not read. */
  lemma SharedAfterFree(cells: Cells, ids: seq<ResourceId>)
    ensures forall id :: id in cells ==> (SharedAfter(cells, ids)[id] == Shared(0) <==> cells[id] == Shared(0) && id !in ids)
  {
    forall id | id in cells ensures (id in ids <==> Occurrences(ids, id) > 0) {
      OccurrencesZero(ids, id);
    }
  }

  /** Composing the three passes gives `Acquired`. */
  lemma AcquiredSteps(cells: Cells, d: Dependencies)
    requires FetchSucceeds(cells, d)
    ensures LockedAfter(SharedAfter(cells, d.readIds), d.writeIds)[ReflectionTableId].Shared?
    ensures var c2 := LockedAfter(SharedAfter(cells, d.readIds), d.writeIds);
            c2[ReflectionTableId := Shared(c2[ReflectionTableId].count + 1)] == Acquired(cells, d)
  {
    var c2 := LockedAfter(SharedAfter(cells, d.readIds), d.writeIds);
    var c3 := c2[ReflectionTableId := Shared(c2[ReflectionTableId].count + 1)];
    var a := Acquired(cells, d);
    forall k | k in cells ensures c3[k] == a[k] {
    }
    assert c3.Keys == a.Keys;
  }

  /**
   * The step-by-step borrows of `fetch` succeed exactly when `FetchSucceeds`
   * holds, and then leave the world as `Acquired` says.
   */
  lemma AcquireCorrect(cells: Cells, d: Dependencies)
    ensures Acquire(cells, d).Some? <==> FetchSucceeds(cells, d)
    ensures FetchSucceeds(cells, d) ==> Acquire(cells, d).value == Acquired(cells, d)
  {
    ShareEachEffect(cells, d.readIds);
    if ShareEach(cells, d.readIds).Some? {
      var c1 := SharedAfter(cells, d.readIds);
      SharedAfterFree(cells, d.readIds);
      LockEachEffect(c1, d.writeIds);
      if FetchSucceeds(cells, d) {
        AcquiredSteps(cells, d);
      }
    }
  }

  // ---------------------------------------------------------------------------
  // Fetched data and its release
  // ---------------------------------------------------------------------------

  /**
   * `ScriptSystemData`: the borrowed meta table (as the set of ids registered
   * in it), one shared borrow per declared read and one exclusive borrow per
   * declared write, each given by the id of the borrowed resource.
   */
  datatype ScriptSystemData = ScriptSystemData(metaTable: set<ResourceId>, shared: seq<ResourceId>, exclusive: seq<ResourceId>)

  /** The world records every borrow `data` holds. */
  predicate Holds(cells: Cells, data: ScriptSystemData) {
    && (forall id :: id in data.exclusive ==> id in cells && cells[id] == Exclusive)
    && (forall id :: id in data.shared ==> id in cells && cells[id].Shared? && cells[id].count >= SharedBorrows(data.shared, id))
    && ReflectionTableId in cells && cells[ReflectionTableId].Shared?
    && cells[ReflectionTableId].count >= SharedBorrows(data.shared, ReflectionTableId)
  }

  /** The world after `data` is dropped: each shared borrow gives back one count, each exclusive borrow frees its cell. */
  function Release(cells: Cells, data: ScriptSystemData): Cells
    requires Holds(cells, data)
  {
    map k | k in cells ::
      if k in data.exclusive then Shared(0)
      else match cells[k]
        case Exclusive => Exclusive
        case Shared(n) =>
          if k in data.shared || k == ReflectionTableId then Shared(n - SharedBorrows(data.shared, k)) else Shared(n)
  }

  /** Dropping what a fetch borrowed gives the world back exactly as it was before the fetch. */
  lemma FetchThenRelease(cells: Cells, d: Dependencies, metaTable: set<ResourceId>)
    requires FetchSucceeds(cells, d)
    ensures Holds(Acquired(cells, d), ScriptSystemData(metaTable, d.readIds, d.writeIds))
    ensures Release(Acquired(cells, d), ScriptSystemData(metaTable, d.readIds, d.writeIds)) == cells
  {
    var data := ScriptSystemData(metaTable, d.readIds, d.writeIds);
    var a := Acquired(cells, d);
    forall k | k in cells ensures k !in d.readIds ==> Occurrences(d.readIds, k) == 0 {
      OccurrencesZero(d.readIds, k);
    }
    assert Holds(a, data);
    var r := Release(a, data);
    assert forall k :: k in cells ==> r[k] == cells[k];
  }

  /** The shared world: the borrow state of each resource cell, and the ids registered in the meta table. */
  class World {
    var cells: Cells
    var reflection: set<ResourceId>
    /** The borrows taken so far, in order. */
    ghost var borrows: seq<BorrowEvent>

    /**
     * `World::new` followed by the inserts that fill it: every cell is
     * present and unborrowed, and the meta table knows `reflection`.
     */
    constructor (cells: Cells, reflection: set<ResourceId>)
      requires forall id :: id in cells ==> cells[id] == Shared(0)
      ensures this.cells == cells && this.reflection == reflection
      ensures borrows == []
    {
      this.cells := cells;
      this.reflection := reflection;
      borrows := [];
    }

    /** A shared borrow of a cell the caller knows is present and not held exclusively. */
    method BorrowShared(id: ResourceId)
      requires id in cells && cells[id].Shared?
      modifies this
      ensures cells == ShareOne(old(cells), id).value
      ensures borrows == old(borrows) + [SharedBorrow(id)]
      ensures reflection == old(reflection)
    {
      cells := cells[id := Shared(cells[id].count + 1)];
      borrows := borrows + [SharedBorrow(id)];
    }

    /** An exclusive borrow of a cell the caller knows is present and not borrowed. */
    method BorrowExclusive(id: ResourceId)
      requires id in cells && cells[id] == Shared(0)
      modifies this
      ensures cells == LockOne(old(cells), id).value
      ensures borrows == old(borrows) + [ExclusiveBorrow(id)]
      ensures reflection == old(reflection)
    {
      cells := cells[id := Exclusive];
      borrows := borrows + [ExclusiveBorrow(id)];
    }

    /** Dropping `data`: every borrow it holds is given back. */
    method Drop(data: ScriptSystemData)
      requires Holds(cells, data)
      modifies this
      ensures cells == Release(old(cells), data)
      ensures reflection == old(reflection) && borrows == old(borrows)
    {
      cells := Release(cells, data);
    }
  }

  function SharedEvents(ids: seq<ResourceId>): (e: seq<BorrowEvent>)
    ensures |e| == |ids|
  {
    seq(|ids|, i requires 0 <= i < |ids| => SharedBorrow(ids[i]))
  }

  function ExclusiveEvents(ids: seq<ResourceId>): (e: seq<BorrowEvent>)
    ensures |e| == |ids|
  {
    seq(|ids|, i requires 0 <= i < |ids| => ExclusiveBorrow(ids[i]))
  }

  /** The first pass of `fetch`: a shared borrow of each id, in order. */
  method BorrowEachShared(ids: seq<ResourceId>, world: World) returns (borrowed: seq<ResourceId>)
    requires ShareEach(world.cells, ids).Some?
    modifies world
    ensures world.cells == ShareEach(old(world.cells), ids).value
    ensures world.borrows == old(world.borrows) + SharedEvents(ids)
    ensures world.reflection == old(world.reflection)
    ensures borrowed == ids
  {
    ghost var c0 := world.cells;
    ShareEachEffect(c0, ids);
    borrowed := [];
    var i := 0;
    while i < |ids|
      invariant 0 <= i <= |ids|
      invariant borrowed == ids[..i]
      invariant ShareEach(c0, borrowed) == Some(world.cells)
      invariant world.borrows == old(world.borrows) + SharedEvents(borrowed)
      invariant world.reflection == old(world.reflection)
    {
      var id := ids[i];
      ShareEachEffect(c0, borrowed);
      world.BorrowShared(id);
      assert (borrowed + [id])[..i] == borrowed;
      assert SharedEvents(borrowed + [id]) == SharedEvents(borrowed) + [SharedBorrow(id)];
      borrowed := borrowed + [id];
      i := i + 1;
    }
    assert borrowed == ids;
  }

  /** The second pass of `fetch`: an exclusive borrow of each id, in order. */
  method BorrowEachExclusive(ids: seq<ResourceId>, world: World) returns (borrowed: seq<ResourceId>)
    requires LockEach(world.cells, ids).Some?
    modifies world
    ensures world.cells == LockEach(old(world.cells), ids).value
    ensures world.borrows == old(world.borrows) + ExclusiveEvents(ids)
    ensures world.reflection == old(world.reflection)
    ensures borrowed == ids
  {
    ghost var c0 := world.cells;
    LockEachEffect(c0, ids);
    borrowed := [];
    var j := 0;
    while j < |ids|
      invariant 0 <= j <= |ids|
      invariant borrowed == ids[..j]
      invariant LockEach(c0, borrowed) == Some(world.cells)
      invariant world.borrows == old(world.borrows) + ExclusiveEvents(borrowed)
      invariant world.reflection == old(world.reflection)
    {
      var id := ids[j];
      LockEachEffect(c0, borrowed);
      assert id !in borrowed by {
        assert forall k :: 0 <= k < j ==> borrowed[k] == ids[k];
      }
      world.BorrowExclusive(id);
      assert (borrowed + [id])[..j] == borrowed;
      assert ExclusiveEvents(borrowed + [id]) == ExclusiveEvents(borrowed) + [ExclusiveBorrow(id)];
      borrowed := borrowed + [id];
      j := j + 1;
    }
    assert borrowed == ids;
  }

  /**
   * `ScriptSystemData::fetch`: one shared borrow per declared read, then one
   * exclusive borrow per declared write, in declaration order, then the meta
   * table; the meta table is fetched on its own and does not join the reads.
   * The source panics unless `FetchSucceeds`.
   */
  method Fetch(accessor: Dependencies, world: World) returns (data: ScriptSystemData)
    requires FetchSucceeds(world.cells, accessor)
    modifies world
    ensures world.cells == Acquired(old(world.cells), accessor)
    ensures world.borrows == old(world.borrows) + SharedEvents(accessor.readIds)
                             + ExclusiveEvents(accessor.writeIds) + [SharedBorrow(ReflectionTableId)]
    ensures world.reflection == old(world.reflection)
    ensures data == ScriptSystemData(world.reflection, accessor.readIds, accessor.writeIds)
    ensures Holds(world.cells, data)
  {
    ghost var c0 := world.cells;
    AcquireCorrect(c0, accessor);
    var sharedIds := BorrowEachShared(accessor.readIds, world);
    var exclusiveIds := BorrowEachExclusive(accessor.writeIds, world);
    world.BorrowShared(ReflectionTableId);
    data := ScriptSystemData(world.reflection, sharedIds, exclusiveIds);
    FetchThenRelease(c0, accessor, world.reflection);
  }

  // ---------------------------------------------------------------------------
  // Narrowing through the meta table
  // ---------------------------------------------------------------------------

  /** A `&dyn Reflection` view of the resource with the given id. */
  datatype ReflectionRef = ReflectionRef(id: ResourceId)

  /** `ScriptResourceData`: the narrowed reads and writes handed to the callback. */
  datatype ScriptResourceData = ScriptResourceData(readViews: seq<ReflectionRef>, writeViews: seq<ReflectionRef>)

  /**
   * Narrowing borrowed resources one by one through the meta table: `None`
   * (the source panics) as soon as one is not registered; otherwise one view
   * per resource, in the same positions.
   */
  function Narrow(metaTable: set<ResourceId>, resources: seq<ResourceId>): (r: Option<seq<ReflectionRef>>)
    ensures r.Some? <==> forall id :: id in resources ==> id in metaTable
    ensures r.Some? ==> |r.value| == |resources|
    ensures r.Some? ==> forall i :: 0 <= i < |resources| ==> r.value[i].id == resources[i]
  {
    if resources == [] then Some([])
    else if resources[0] !in metaTable then None
    else
      match Narrow(metaTable, resources[1..])
      case None => None
      case Some(rest) => Some([ReflectionRef(resources[0])] + rest)
  }

  // ---------------------------------------------------------------------------
  // The interpreter hand-off and the script system
  // ---------------------------------------------------------------------------

  /** Who holds the single Lua interpreter: the scheduler side of the channel, or the running script system. */
  datatype Holder = Scheduler | System

  /** The pair of channels that carry the interpreter to a script system and back. */
  class Channel {
    var holder: Holder
    /** Every hand-off so far, as the new holder. */
    ghost var handoffs: seq<Holder>

    constructor ()
      ensures holder == Scheduler && handoffs == []
    {
      holder := Scheduler;
      handoffs := [];
    }

    /** `receiver.recv()`: the system takes the interpreter. */
    method Receive()
      requires holder == Scheduler
      modifies this
      ensures holder == System && handoffs == old(handoffs) + [System]
    {
      holder := System;
      handoffs := handoffs + [System];
    }

    /** `sender.send(lua)`: the system gives the interpreter back. */
    method Send()
      requires holder == System
      modifies this
      ensures holder == Scheduler && handoffs == old(handoffs) + [Scheduler]
    {
      holder := Scheduler;
      handoffs := handoffs + [Scheduler];
    }
  }

  /** The registry key of the Lua function a script system calls. */
  datatype CallbackKey = CallbackKey(slot: nat)

  /** What calling the Lua callback gave: it returned, or raised an error with this text. */
  datatype CallbackOutcome = Returned | Raised(message: string)

  /** `ScriptSystem`: declared dependencies, the callback to call, and the interpreter channel. */
  class ScriptSystem {
    const dependencies: Dependencies
    const callbackKey: CallbackKey
    const channel: Channel

    /** `ScriptSystem::new`: stores copies of the declared reads and writes, in the order given. */
    constructor (channel: Channel, callbackKey: CallbackKey, readIds: seq<ResourceId>, writeIds: seq<ResourceId>)
      ensures this.channel == channel && this.callbackKey == callbackKey
      ensures dependencies == Dependencies(readIds, writeIds)
      ensures dependencies.Reads() == readIds + [ReflectionTableId]
      ensures dependencies.Writes() == writeIds
    {
      this.channel := channel;
      this.callbackKey := callbackKey;
      dependencies := Dependencies(readIds, writeIds);
    }

    /**
     * `System::setup`: inserts a fresh, empty meta table into the world,
     * replacing any earlier one. The source holds `&mut World`, so no
     * resource is borrowed at that point.
     */
    method Setup(world: World)
      requires forall id :: id in world.cells ==> world.cells[id] == Shared(0)
      modifies world
      ensures world.cells == old(world.cells)[ReflectionTableId := Shared(0)]
      ensures world.reflection == {}
      ensures world.borrows == old(world.borrows)
    {
      world.cells := world.cells[ReflectionTableId := Shared(0)];
      world.reflection := {};
    }

    /**
     * `System::run`: take the interpreter, narrow every borrowed resource,
     * call the callback with the narrowed views, log a callback error rather
     * than propagate it, and send the interpreter back whether the callback
     * returned or raised; `data` is dropped at the end, releasing its borrows.
     * The source panics unless every borrowed resource is registered in the
     * meta table, and that panic comes after the interpreter was received,
     * so on that path the interpreter is never sent back.
     */
    method Run(data: ScriptSystemData, world: World, callback: CallbackOutcome)
      returns (bundle: ScriptResourceData, logged: Option<string>)
      requires channel.holder == Scheduler
      requires forall id :: id in data.shared ==> id in data.metaTable
      requires forall id :: id in data.exclusive ==> id in data.metaTable
      requires Holds(world.cells, data)
      modifies channel, world
      ensures channel.holder == Scheduler
      ensures channel.handoffs == old(channel.handoffs) + [System, Scheduler]
      ensures |bundle.readViews| == |data.shared| && forall i :: 0 <= i < |data.shared| ==> bundle.readViews[i].id == data.shared[i]
      ensures |bundle.writeViews| == |data.exclusive| && forall i :: 0 <= i < |data.exclusive| ==> bundle.writeViews[i].id == data.exclusive[i]
      ensures logged.Some? <==> callback.Raised?
      ensures callback.Raised? ==> logged == Some("script system error " + callback.message)
      ensures world.cells == Release(old(world.cells), data)
      ensures world.reflection == old(world.reflection) && world.borrows == old(world.borrows)
    {
      channel.Receive();
      var metaTable := data.metaTable;
      bundle := ScriptResourceData(Narrow(metaTable, data.shared).value, Narrow(metaTable, data.exclusive).value);
      match callback {
        case Returned =>
          logged := None;
        case Raised(message) =>
          logged := Some("script system error " + message);
      }
      channel.Send();
      world.Drop(data);
    }
  }

  /**
   * One run of a script system as the dispatcher drives it: fetch its
   * dependencies, run it, drop the data. Whatever the callback does, the
   * interpreter ends up back with the scheduler and the world's borrows are
   * as they were.
   */
  method Dispatch(system: ScriptSystem, world: World, callback: CallbackOutcome)
    returns (logged: Option<string>)
    requires system.channel.holder == Scheduler
    requires FetchSucceeds(world.cells, system.dependencies)
    requires forall id :: id in system.dependencies.readIds ==> id in world.reflection
    requires forall id :: id in system.dependencies.writeIds ==> id in world.reflection
    modifies system.channel, world
    ensures system.channel.holder == Scheduler
    ensures system.channel.handoffs == old(system.channel.handoffs) + [System, Scheduler]
    ensures world.cells == old(world.cells)
    ensures world.reflection == old(world.reflection)
    ensures world.borrows == old(world.borrows) + SharedEvents(system.dependencies.readIds)
                             + ExclusiveEvents(system.dependencies.writeIds) + [SharedBorrow(ReflectionTableId)]
    ensures logged.Some? <==> callback.Raised?
    ensures callback.Raised? ==> logged == Some("script system error " + callback.message)
  {
    ghost var c0 := world.cells;
    var data := Fetch(system.dependencies, world);
    FetchThenRelease(c0, system.dependencies, world.reflection);
    var bundle;
    bundle, logged := system.Run(data, world, callback);
  }

  /**
   * Two consecutive ticks of the same script system: because a tick gives the
   * interpreter back and leaves the borrows and the meta table as they were,
   * the second tick can run, even when the first callback raised.
   */
  method DispatchTwice(system: ScriptSystem, world: World, first: CallbackOutcome, second: CallbackOutcome)
    returns (firstLogged: Option<string>, secondLogged: Option<string>)
    requires system.channel.holder == Scheduler
    requires FetchSucceeds(world.cells, system.dependencies)
    requires forall id :: id in system.dependencies.readIds ==> id in world.reflection
    requires forall id :: id in system.dependencies.writeIds ==> id in world.reflection
    modifies system.channel, world
    ensures system.channel.holder == Scheduler
    ensures system.channel.handoffs == old(system.channel.handoffs) + [System, Scheduler, System, Scheduler]
    ensures world.cells == old(world.cells) && world.reflection == old(world.reflection)
    ensures firstLogged.Some? <==> first.Raised?
    ensures secondLogged.Some? <==> second.Raised?
  {
    firstLogged := Dispatch(system, world, first);
    secondLogged := Dispatch(system, world, second);
  }
}
