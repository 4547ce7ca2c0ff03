/** The table of positions and the two shifts, one accepted single-row write at a time. */
module PositionTables {
  import opened Sorting
  import opened CourseOrder

  lemma ShiftedByBumps(rows: Rows, todo: seq<PositionRow>, parent: Node, position: int, high: int)
    requires Between(rows, todo, parent, position, high, 1)
    requires forall o :: o in rows && rows[o].parent == parent ==> rows[o].position <= high
    ensures Bumped(rows, todo, parent, 1) == Shifted(rows, parent, position)
  {
  }

  ghost function Parked(rows: Rows, parent: Node, id: Node, from: int): Rows {
    rows[id := Row(parent, -from)]
  }

  lemma MovedByBumps(rows: Rows, todo: seq<PositionRow>, parent: Node, id: Node, from: int, to: int)
    requires id in rows && rows[id] == Row(parent, from) && UniqueIndex(rows) && from >= 1 && to >= 1 && from != to
    requires Between(Parked(rows, parent, id, from), todo, parent, if from < to then from + 1 else to,
                     if from < to then to else from - 1, if from < to then -1 else 1)
    ensures Bumped(Parked(rows, parent, id, from), todo, parent, if from < to then -1 else 1)
         == Moved(rows, parent, id, from, to)
  {
  }

  /** The rows a shift writes, in the order it writes them. */
  method Select(siblings: seq<PositionRow>, keep: PositionRow -> bool, le: (PositionRow, PositionRow) -> bool)
    returns (todo: seq<PositionRow>)
    requires NoDuplicates(siblings) && TotalPreorder(le)
    ensures NoDuplicates(todo) && Sorted(todo, le)
    ensures forall x :: x in todo <==> x in siblings && keep(x)
  {
    SortIsSortedPermutation(Filter(siblings, keep), le);
    todo := Sort(Filter(siblings, keep), le);
  }

  /** The chapter, lesson and material rows. Every write names one row and must be accepted by the unique index. */
  class PositionTable {
    var rows: Rows

    constructor ()
      ensures rows == map[]
    {
      rows := map[];
    }

    method Update(id: Node, position: int)
      requires UniqueIndex(rows) && id in rows && Free(rows, rows[id].parent, id, position)
      modifies this
      ensures rows == old(rows)[id := Row(old(rows)[id].parent, position)]
      ensures UniqueIndex(rows)
    {
      rows := rows[id := Row(rows[id].parent, position)];
    }

    method Create(id: Node, parent: Node, position: int)
      requires UniqueIndex(rows) && id !in rows && Free(rows, parent, id, position)
      modifies this
      ensures rows == old(rows)[id := Row(parent, position)]
      ensures UniqueIndex(rows)
    {
      rows := rows[id := Row(parent, position)];
    }

    /** The children of `parent`, ordered by position. */
    method FindSiblings(parent: Node) returns (siblings: seq<PositionRow>)
      requires UniqueIndex(rows)
      ensures Siblings(rows, parent, siblings)
    {
      var found: seq<PositionRow> := [];
      var rest := rows.Keys;
      while rest != {}
        invariant rest <= rows.Keys
        invariant NoDuplicates(found)
        invariant forall s :: s in found <==> s.id in rows && s.id !in rest && rows[s.id] == Row(parent, s.position)
      {
        var id :| id in rest;
        rest := rest - {id};
        if rows[id].parent == parent {
          found := found + [PositionRow(id, rows[id].position)];
        }
      }
      PositionOrdersAreTotal();
      SortIsSortedPermutation(found, Ascending);
      siblings := Sort(found, Ascending);
      forall i, j | 0 <= i < j < |siblings|
        ensures siblings[i].position < siblings[j].position
      {
        assert siblings[i] in siblings && siblings[j] in siblings && siblings[i] != siblings[j];
      }
    }

    /** One write of a shift. */
    method UpdateNext(ghost start: Rows, todo: seq<PositionRow>, i: nat, parent: Node, delta: int)
      requires Shiftable(start, todo, parent, delta) && i < |todo|
      requires UniqueIndex(rows) && rows == Bumped(start, todo[..i], parent, delta)
      modifies this
      ensures UniqueIndex(rows) && rows == Bumped(start, todo[..i + 1], parent, delta)
    {
      NextBumpIsFree(start, rows, todo, i, parent, delta);
      Update(todo[i].id, todo[i].position + delta);
    }

    /** The loop of every shift: one write for each row, none of which the index refuses. */
    method UpdateEach(todo: seq<PositionRow>, parent: Node, delta: int)
      requires Shiftable(rows, todo, parent, delta)
      modifies this
      ensures rows == Bumped(old(rows), todo, parent, delta) && UniqueIndex(rows)
    {
      ghost var start := rows;
      NothingBumped(start, todo, parent, delta);
      for i := 0 to |todo|
        invariant UniqueIndex(rows) && rows == Bumped(start, todo[..i], parent, delta)
      {
        UpdateNext(start, todo, i, parent, delta);
      }
    }

    /** Frees a position, largest first, so that no write meets a position still in use. */
    method ShiftForInsert(siblings: seq<PositionRow>, parent: Node, position: int)
      requires UniqueIndex(rows) && Siblings(rows, parent, siblings)
      modifies this
      ensures rows == Shifted(old(rows), parent, position) && UniqueIndex(rows)
    {
      var keep := (row: PositionRow) => row.position >= position;
      SiblingsAreDistinct(rows, parent, siblings);
      var shifting := Select(siblings, keep, Descending);
      ghost var start := rows;
      ghost var high := if siblings == [] then position else siblings[|siblings| - 1].position;
      InsertShiftFacts(start, siblings, parent, position, high, shifting);
      UpdateEach(shifting, parent, 1);
    }

    /** Parks the item at a negative position, then closes the gap it left, one neighbour at a time. */
    method ShiftForMove(siblings: seq<PositionRow>, parent: Node, id: Node, from: int, to: int)
      requires UniqueIndex(rows) && Siblings(rows, parent, siblings) && PositionRow(id, from) in siblings
      requires to >= 1 && forall s :: s in siblings ==> s.position >= 1
      modifies this
      ensures rows == Moved(old(rows), parent, id, from, to) && UniqueIndex(rows)
      ensures Free(rows, parent, id, to)
    {
      ghost var start := rows;
      if from == to {
        assert rows == Moved(start, parent, id, from, to);
        return;
      }
      SiblingsAreDistinct(rows, parent, siblings);
      ParkingIsFree(start, siblings, parent, id, from);
      Update(id, -from);
      if to > from {
        var keep := (row: PositionRow) => row.id != id && row.position > from && row.position <= to;
        var between := Select(siblings, keep, Ascending);
        MoveShiftFacts(start, siblings, parent, id, from, to, between);
        UpdateEach(between, parent, -1);
        return;
      }
      var keep := (row: PositionRow) => row.id != id && row.position >= to && row.position < from;
      var between := Select(siblings, keep, Descending);
      MoveShiftFacts(start, siblings, parent, id, from, to, between);
      UpdateEach(between, parent, 1);
    }
  }

  lemma SiblingsAreDistinct(rows: Rows, parent: Node, siblings: seq<PositionRow>)
    requires Siblings(rows, parent, siblings)
    ensures NoDuplicates(siblings)
    ensures forall o :: o in rows && rows[o].parent == parent ==> PositionRow(o, rows[o].position) in siblings
  {
  }

  lemma InsertShiftFacts(rows: Rows, siblings: seq<PositionRow>, parent: Node, position: int, high: int,
                         shifting: seq<PositionRow>)
    requires UniqueIndex(rows) && Siblings(rows, parent, siblings)
    requires high == (if siblings == [] then position else siblings[|siblings| - 1].position)
    requires NoDuplicates(shifting) && Sorted(shifting, Descending)
    requires forall x :: x in shifting <==> x in siblings && x.position >= position
    ensures Shiftable(rows, shifting, parent, 1)
    ensures Bumped(rows, shifting, parent, 1) == Shifted(rows, parent, position)
  {
    SiblingsAreDistinct(rows, parent, siblings);
    assert forall s :: s in siblings ==> s.position <= high;
    assert Between(rows, shifting, parent, position, high, 1);
    assert forall o :: o in rows && rows[o].parent == parent ==> rows[o].position <= high;
    BetweenIsShiftable(rows, shifting, parent, position, high, 1);
    ShiftedByBumps(rows, shifting, parent, position, high);
  }

  lemma ParkingIsFree(rows: Rows, siblings: seq<PositionRow>, parent: Node, id: Node, from: int)
    requires Siblings(rows, parent, siblings) && PositionRow(id, from) in siblings
    requires forall s :: s in siblings ==> s.position >= 1
    ensures id in rows && rows[id] == Row(parent, from) && from >= 1
    ensures Free(rows, parent, id, -from)
  {
    SiblingsAreDistinct(rows, parent, siblings);
    assert PositionRow(id, from).id in rows;
  }

  lemma MoveShiftFacts(rows: Rows, siblings: seq<PositionRow>, parent: Node, id: Node, from: int, to: int,
                       between: seq<PositionRow>)
    requires UniqueIndex(rows) && Siblings(rows, parent, siblings) && PositionRow(id, from) in siblings
    requires id in rows && rows[id] == Row(parent, from) && from >= 1 && to >= 1 && from != to
    requires forall s :: s in siblings ==> s.position >= 1
    requires Free(rows, parent, id, -from)
    requires NoDuplicates(between) && Sorted(between, if from < to then Ascending else Descending)
    requires forall x :: x in between <==>
               (x in siblings && x.id != id && if from < to then from < x.position <= to else to <= x.position < from)
    ensures Shiftable(Parked(rows, parent, id, from), between, parent, if from < to then -1 else 1)
    ensures Bumped(Parked(rows, parent, id, from), between, parent, if from < to then -1 else 1)
         == Moved(rows, parent, id, from, to)
    ensures Free(Moved(rows, parent, id, from, to), parent, id, to)
  {
    SiblingsAreDistinct(rows, parent, siblings);
    var parked := Parked(rows, parent, id, from);
    var low, high, delta := if from < to then from + 1 else to, if from < to then to else from - 1,
                            if from < to then -1 else 1;
    assert Between(parked, between, parent, low, high, delta);
    BetweenIsShiftable(parked, between, parent, low, high, delta);
    MovedByBumps(rows, between, parent, id, from, to);
  }
}
