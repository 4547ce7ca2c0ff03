/** Ordered siblings of a course: positions under a unique index, and the sequences they stand for. */
module CourseOrder {
  import opened Sorting

  /** A course, chapter, lesson or material; the parent of each is of the kind before it. */
  datatype Node = Course(id: int) | Chapter(id: int) | Lesson(id: int) | Material(id: int)

  datatype Row = Row(parent: Node, position: int)

  /** What the position queries return for a row. */
  datatype PositionRow = PositionRow(id: Node, position: int)

  type Rows = map<Node, Row>

  /** The unique index on (parent, position). */
  ghost predicate UniqueIndex(rows: Rows) {
    forall a, b :: a in rows && b in rows && a != b && rows[a].parent == rows[b].parent
      ==> rows[a].position != rows[b].position
  }

  /** A write the index accepts. */
  ghost predicate Free(rows: Rows, parent: Node, id: Node, position: int) {
    forall other :: other in rows && other != id && rows[other].parent == parent ==> rows[other].position != position
  }

  /** `siblings` is what the table holds for the parent, sorted by position. */
  ghost predicate Siblings(rows: Rows, parent: Node, siblings: seq<PositionRow>) {
    && (forall s :: s in siblings <==> s.id in rows && rows[s.id] == Row(parent, s.position))
    && (forall i, j :: 0 <= i < j < |siblings| ==> siblings[i].position < siblings[j].position)
  }

  // ----- What the shifts do to the table -----

  /** Siblings from `position` on are one further. */
  ghost function Shifted(rows: Rows, parent: Node, position: int): Rows {
    map id | id in rows ::
      if rows[id].parent == parent && rows[id].position >= position then Row(parent, rows[id].position + 1) else rows[id]
  }

  /** Where a sibling at `position` goes when one item travels from `from` to `to`. */
  function Slide(position: int, from: int, to: int): int {
    if from < position <= to then position - 1
    else if to <= position < from then position + 1
    else position
  }

  /** The item is parked; the siblings it passes have closed up. */
  ghost function Moved(rows: Rows, parent: Node, id: Node, from: int, to: int): Rows {
    map other | other in rows ::
      if rows[other].parent != parent then rows[other]
      else if other == id then Row(parent, if from == to then from else -from)
      else Row(parent, Slide(rows[other].position, from, to))
  }

  /** The rows of `done` have been written, each `delta` further. */
  ghost function Bumped(rows: Rows, done: seq<PositionRow>, parent: Node, delta: int): Rows {
    map id | id in rows ::
      if rows[id].parent == parent && PositionRow(id, rows[id].position) in done then Row(parent, rows[id].position + delta)
      else rows[id]
  }

  // ----- No write of a shift collides -----

  /** The row that holds the i-th target position, if any, is written before the i-th. */
  ghost predicate ClearsItsWay(rows: Rows, todo: seq<PositionRow>, parent: Node, delta: int) {
    forall i, o :: 0 <= i < |todo| && o in rows && rows[o] == Row(parent, todo[i].position + delta)
      ==> PositionRow(o, todo[i].position + delta) in todo[..i]
  }

  ghost predicate Shiftable(rows: Rows, todo: seq<PositionRow>, parent: Node, delta: int) {
    && UniqueIndex(rows) && NoDuplicates(todo) && delta != 0
    && (forall x :: x in todo ==> x.id in rows && rows[x.id] == Row(parent, x.position))
    && ClearsItsWay(rows, todo, parent, delta)
  }

  lemma NextBumpIsFree(rows: Rows, now: Rows, todo: seq<PositionRow>, i: nat, parent: Node, delta: int)
    requires Shiftable(rows, todo, parent, delta) && i < |todo|
    requires now == Bumped(rows, todo[..i], parent, delta)
    ensures todo[i].id in now && now[todo[i].id].parent == parent
    ensures Free(now, parent, todo[i].id, todo[i].position + delta)
    ensures now[todo[i].id := Row(parent, todo[i].position + delta)] == Bumped(rows, todo[..i + 1], parent, delta)
  {
  }

  lemma NothingBumped(rows: Rows, todo: seq<PositionRow>, parent: Node, delta: int)
    ensures Bumped(rows, todo[..0], parent, delta) == rows
    ensures Bumped(rows, todo[..|todo|], parent, delta) == Bumped(rows, todo, parent, delta)
  {
  }

  predicate Ascending(a: PositionRow, b: PositionRow) {
    a.position <= b.position
  }

  predicate Descending(a: PositionRow, b: PositionRow) {
    a.position >= b.position
  }

  lemma PositionOrdersAreTotal()
    ensures TotalPreorder(Ascending) && TotalPreorder(Descending)
  {
  }

  /** `todo` holds the siblings between two positions, last one first when they go up. */
  ghost predicate Between(rows: Rows, todo: seq<PositionRow>, parent: Node, low: int, high: int, delta: int) {
    && NoDuplicates(todo) && (delta == 1 || delta == -1)
    && Sorted(todo, if delta == 1 then Descending else Ascending)
    && forall x :: x in todo <==> x.id in rows && rows[x.id] == Row(parent, x.position) && low <= x.position <= high
  }

  /** Nobody else sits where the first written row goes, so every write of the shift finds its target free. */
  lemma BetweenIsShiftable(rows: Rows, todo: seq<PositionRow>, parent: Node, low: int, high: int, delta: int)
    requires UniqueIndex(rows) && Between(rows, todo, parent, low, high, delta)
    requires forall o :: o in rows && rows[o].parent == parent
               ==> rows[o].position != (if delta == 1 then high + 1 else low - 1)
    ensures Shiftable(rows, todo, parent, delta)
  {
  }
}
