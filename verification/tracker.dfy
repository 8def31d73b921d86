/**
 * Action detection (TM/TM.hpp:170-184): each frame the recorder walks the
 * friendly units, compares each with what it stored for that unit id on
 * earlier frames, counts one action per unit whose command looks new, and
 * then stores the unit's current order, target position and target.
 *
 * `Scan` is that walk, unit after unit in the host's order. The lemmas show
 * what it amounts to when unit ids are distinct: the count is the number of
 * units whose command differs from the tables as they were before the frame,
 * and afterwards the tables hold every unit's current command.
 */
module ActionTracker {
  import opened Wrappers
  import opened Snapshot

  /** `lastCommandPosition`, `lastCommandTarget` and `lastCommandType`. */
  datatype CommandTables = CommandTables(
    position: map<int, Position>,
    target: map<int, int>,
    order: map<int, int>)

  const EmptyTables := CommandTables(map[], map[], map[])

  /** `m[k]` on a `std::map<int, int>`: a missing entry reads as 0. */
  function Lookup(m: map<int, int>, k: int): int {
    if k in m then m[k] else 0
  }

  function Get<V>(m: map<int, V>, k: int): Option<V> {
    if k in m then Some(m[k]) else None
  }

  /** Everything the tables hold about one unit id. */
  function At(t: CommandTables, k: int): (Option<Position>, Option<int>, Option<int>) {
    (Get(t.position, k), Get(t.target, k), Get(t.order, k))
  }

  /**
   * The test at TM/TM.hpp:174-175: the unit was seen before, and its order,
   * its target position, or (when it has a target) its target id differs from
   * the stored one.
   */
  predicate IssuedCommand(t: CommandTables, u: UnitState) {
    && u.id in t.position
    && (|| Lookup(t.order, u.id) != u.order
        || u.targetPosition != t.position[u.id]
        || (u.target.Some? && u.target.value != Lookup(t.target, u.id)))
  }

  /** The stores at TM/TM.hpp:180-183; the target is kept when there is none. */
  function Record(t: CommandTables, u: UnitState): CommandTables {
    CommandTables(
      t.position[u.id := u.targetPosition],
      if u.target.Some? then t.target[u.id := u.target.value] else t.target,
      t.order[u.id := u.order])
  }

  /** The loop of TM/TM.hpp:171-184: the actions counted and the tables after it. */
  function Scan(t: CommandTables, units: seq<UnitState>): (nat, CommandTables)
    decreases |units|
  {
    if units == [] then (0, t)
    else
      var (n, t') := Scan(t, units[..|units| - 1]);
      var u := units[|units| - 1];
      (n + (if IssuedCommand(t', u) then 1 else 0), Record(t', u))
  }

  /** How many of `units` issued a new command measured against fixed tables `t`. */
  function CountIssued(t: CommandTables, units: seq<UnitState>): (n: nat)
    ensures n <= |units|
    decreases |units|
  {
    if units == [] then 0
    else CountIssued(t, units[..|units| - 1]) + (if IssuedCommand(t, units[|units| - 1]) then 1 else 0)
  }

  /** The tables hold `u`'s current command; its target is `t0`'s when it has none. */
  predicate Recorded(t0: CommandTables, t: CommandTables, u: UnitState) {
    && Get(t.position, u.id) == Some(u.targetPosition)
    && Get(t.order, u.id) == Some(u.order)
    && Get(t.target, u.id) == (if u.target.Some? then u.target else Get(t0.target, u.id))
  }

  /** The walk leaves the entries of ids that are not among the units alone. */
  lemma {:induction false} ScanElsewhere(t: CommandTables, units: seq<UnitState>, k: int)
    requires !HasId(units, k)
    ensures At(Scan(t, units).1, k) == At(t, k)
    decreases |units|
  {
    if units != [] {
      var p := units[..|units| - 1];
      assert !HasId(p, k) by {
        forall i | 0 <= i < |p| ensures p[i].id != k {
          assert p[i] == units[i];
        }
      }
      ScanElsewhere(t, p, k);
    }
  }

  /**
   * A frame raises the action count by exactly the number of units whose
   * command differs from what was stored before the frame began.
   */
  lemma {:induction false} ScanCount(t: CommandTables, units: seq<UnitState>)
    requires DistinctIds(units)
    ensures Scan(t, units).0 == CountIssued(t, units)
    decreases |units|
  {
    if units != [] {
      var p := units[..|units| - 1];
      var u := units[|units| - 1];
      assert DistinctIds(p);
      assert !HasId(p, u.id) by {
        forall i | 0 <= i < |p| ensures p[i].id != u.id {
          assert p[i] == units[i];
        }
      }
      ScanCount(t, p);
      ScanElsewhere(t, p, u.id);
      var t' := Scan(t, p).1;
      assert At(t', u.id) == At(t, u.id);
      assert IssuedCommand(t', u) == IssuedCommand(t, u);
    }
  }

  /** After the walk every unit's current command is stored. */
  lemma {:induction false} ScanRecords(t: CommandTables, units: seq<UnitState>, i: nat)
    requires DistinctIds(units)
    requires i < |units|
    ensures Recorded(t, Scan(t, units).1, units[i])
    decreases |units|
  {
    var p := units[..|units| - 1];
    var last := units[|units| - 1];
    assert DistinctIds(p);
    if i == |units| - 1 {
      assert !HasId(p, last.id) by {
        forall j | 0 <= j < |p| ensures p[j].id != last.id {
          assert p[j] == units[j];
        }
      }
      ScanElsewhere(t, p, last.id);
    } else {
      assert p[i] == units[i];
      ScanRecords(t, p, i);
      assert units[i].id != last.id;
    }
  }

  lemma {:induction false} CountIssuedNone(t: CommandTables, units: seq<UnitState>)
    requires forall i :: 0 <= i < |units| ==> !IssuedCommand(t, units[i])
    ensures CountIssued(t, units) == 0
    decreases |units|
  {
    if units != [] {
      CountIssuedNone(t, units[..|units| - 1]);
    }
  }

  /** Two consecutive frames with the same units add no actions on the second. */
  lemma RepeatedFrameAddsNothing(t: CommandTables, units: seq<UnitState>)
    requires DistinctIds(units)
    ensures Scan(Scan(t, units).1, units).0 == 0
  {
    var t' := Scan(t, units).1;
    forall i | 0 <= i < |units| ensures !IssuedCommand(t', units[i]) {
      ScanRecords(t, units, i);
    }
    CountIssuedNone(t', units);
    ScanCount(t', units);
  }

  /** Units seen for the first time are never counted. */
  lemma FirstSightingsAddNothing(t: CommandTables, units: seq<UnitState>)
    requires DistinctIds(units)
    requires forall i :: 0 <= i < |units| ==> units[i].id !in t.position
    ensures Scan(t, units).0 == 0
  {
    CountIssuedNone(t, units);
    ScanCount(t, units);
  }
}
