/** Creating and moving chapters, lessons and materials: the table against ordered trees, over whole runs. */
module CourseStructure {
  import opened Options
  import opened Sorting
  import opened CourseOrder
  import opened CourseSequences
  import opened PositionTables

  /** The path of a request down to the parent of the item it names. */
  datatype Place =
    | InCourse(course: int)
    | InChapter(course: int, chapter: int)
    | InLesson(course: int, chapter: int, lesson: int)
  {
    function Parent(): Node {
      match this
      case InCourse(c) => Course(c)
      case InChapter(_, ch) => Chapter(ch)
      case InLesson(_, _, l) => Lesson(l)
    }

    /** A course holds chapters, a chapter lessons, a lesson materials. */
    function Child(id: int): Node {
      match this
      case InCourse(_) => Chapter(id)
      case InChapter(_, _) => Lesson(id)
      case InLesson(_, _, _) => Material(id)
    }
  }

  /** `id` of a Create is the key the database generates. */
  datatype Op =
    | Create(place: Place, id: int, requested: Option<int>)
    | Update(place: Place, id: int, requested: Option<int>)

  // ----- What the service does to the rows -----

  /** lockCourse, requireChapter and requireLesson. */
  predicate Known(courses: set<Node>, rows: Rows, place: Place) {
    && Course(place.course) in courses
    && (place.InCourse? || IsChild(rows, Course(place.course), Chapter(place.chapter)))
    && (place.InLesson? ==> IsChild(rows, Chapter(place.chapter), Lesson(place.lesson)))
  }

  ghost function Children(rows: Rows, parent: Node): set<Node> {
    set id | id in rows && rows[id].parent == parent
  }

  /** assertInsertPosition: by default the end, otherwise 1..count+1; anything else is rejected. */
  function InsertPosition(count: nat, requested: Option<int>): Option<int> {
    if requested == None then Some(count + 1)
    else if 1 <= requested.value <= count + 1 then requested
    else None
  }

  /** assertMovePosition: 1..count. */
  function MovePosition(count: nat, requested: int): Option<int> {
    if 1 <= requested <= count then Some(requested) else None
  }

  ghost predicate Accepts(courses: set<Node>, rows: Rows, op: Op) {
    var parent, id, n := op.place.Parent(), op.place.Child(op.id), |Children(rows, op.place.Parent())|;
    && Known(courses, rows, op.place)
    && match op
       case Create(_, _, requested) => id !in rows && InsertPosition(n, requested).Some?
       case Update(_, _, requested) =>
         && IsChild(rows, parent, id)
         && (requested == None || requested.value == rows[id].position || MovePosition(n, requested.value).Some?)
  }

  /** A rejected request rolls back. */
  ghost function ApplyRows(courses: set<Node>, rows: Rows, op: Op): Rows {
    var parent, id, n := op.place.Parent(), op.place.Child(op.id), |Children(rows, op.place.Parent())|;
    if !Accepts(courses, rows, op) then rows
    else match op
      case Create(_, _, requested) => Inserted(rows, parent, id, InsertPosition(n, requested).value)
      case Update(_, _, requested) =>
        if requested == None || requested.value == rows[id].position then rows
        else Relocated(rows, parent, id, rows[id].position, requested.value)
  }

  ghost function RunRows(courses: set<Node>, rows: Rows, ops: seq<Op>): Rows
    decreases |ops|
  {
    if ops == [] then rows else RunRows(courses, ApplyRows(courses, rows, ops[0]), ops[1..])
  }

  // ----- What it means: ordered trees -----

  /** Every course, chapter, lesson and material with its children in order. */
  type Outline = map<Node, seq<Node>>

  predicate IsListed(outline: Outline, parent: Node, id: Node) {
    parent in outline && id in outline[parent]
  }

  predicate Reaches(outline: Outline, place: Place) {
    && Course(place.course) in outline
    && (place.InCourse? || IsListed(outline, Course(place.course), Chapter(place.chapter)))
    && (place.InLesson? ==> IsListed(outline, Chapter(place.chapter), Lesson(place.lesson)))
  }

  /** A new item goes to a place among or after its siblings, a listed one to a place among them. */
  predicate Allows(outline: Outline, op: Op) {
    var parent, id := op.place.Parent(), op.place.Child(op.id);
    && Reaches(outline, op.place) && parent in outline
    && match op
       case Create(_, _, requested) =>
         id !in outline && (requested == None || 1 <= requested.value <= |outline[parent]| + 1)
       case Update(_, _, requested) =>
         && id in outline[parent]
         && (requested == None || 1 <= requested.value <= |outline[parent]|)
  }

  ghost predicate WellFormed(outline: Outline) {
    && (forall parent {:trigger outline[parent]} :: parent in outline ==> NoDuplicates(outline[parent]))
    && (forall parent, id :: parent in outline && id in outline[parent] ==> id in outline)
  }

  /** The outline with a new item under `parent`. */
  ghost function Extended(outline: Outline, parent: Node, id: Node, index: nat): Outline
    requires parent in outline && index <= |outline[parent]|
  {
    outline[parent := InsertAt(outline[parent], index, id)][id := []]
  }

  /** The outline with an item of `parent` moved. */
  ghost function Reordered(outline: Outline, parent: Node, id: Node, index: nat): Outline
    requires parent in outline && id in outline[parent] && index < |outline[parent]| && NoDuplicates(outline[parent])
  {
    outline[parent := MoveTo(outline[parent], id, index)]
  }

  ghost function ApplyOutline(outline: Outline, op: Op): Outline
    requires WellFormed(outline)
  {
    var parent, id := op.place.Parent(), op.place.Child(op.id);
    if !Allows(outline, op) then outline
    else match op
      case Create(_, _, requested) =>
        var index := if requested == None then |outline[parent]| else requested.value - 1;
        Extended(outline, parent, id, index)
      case Update(_, _, requested) =>
        if requested == None then outline
        else Reordered(outline, parent, id, requested.value - 1)
  }

  // ----- The table carries out the outline -----

  ghost predicate SameNodes(courses: set<Node>, rows: Rows, outline: Outline) {
    && outline.Keys == courses + rows.Keys
    && (forall c :: c in courses ==> c.Course?)
    && (forall id {:trigger rows[id]} :: id in rows ==> !id.Course? && rows[id].parent in outline)
  }

  ghost predicate SameOrders(rows: Rows, outline: Outline) {
    forall parent {:trigger outline[parent]} :: parent in outline ==> Represents(rows, parent, outline[parent])
  }

  ghost predicate Models(courses: set<Node>, rows: Rows, outline: Outline) {
    SameNodes(courses, rows, outline) && SameOrders(rows, outline)
  }

  lemma {:induction false} CountDistinct(order: seq<Node>, all: set<Node>)
    requires NoDuplicates(order) && forall x :: x in order <==> x in all
    ensures |all| == |order|
  {
    if order == [] {
      assert all == {};
    } else {
      assert order == [order[0]] + order[1..];
      CountDistinct(order[1..], all - {order[0]});
    }
  }

  lemma ChildrenAreListed(courses: set<Node>, rows: Rows, outline: Outline, parent: Node)
    requires Models(courses, rows, outline) && parent in outline
    ensures |Children(rows, parent)| == |outline[parent]|
    ensures forall id :: id in outline[parent] <==> IsChild(rows, parent, id)
    ensures forall id :: id in outline[parent] ==> 1 <= rows[id].position <= |outline[parent]|
  {
    RepresentedMembers(rows, parent, outline[parent]);
    CountDistinct(outline[parent], Children(rows, parent));
  }

  lemma ModelsKeepUnique(courses: set<Node>, rows: Rows, outline: Outline)
    requires Models(courses, rows, outline)
    ensures UniqueIndex(rows)
  {
    forall a, b | a in rows && b in rows && a != b && rows[a].parent == rows[b].parent
      ensures rows[a].position != rows[b].position
    {
      RepresentedPositionsDiffer(rows, rows[a].parent, outline[rows[a].parent], a, b);
    }
  }

  lemma ListedIffChild(courses: set<Node>, rows: Rows, outline: Outline, parent: Node, id: Node)
    requires Models(courses, rows, outline)
    ensures IsListed(outline, parent, id) <==> IsChild(rows, parent, id)
  {
  }

  lemma KnownIffReaches(courses: set<Node>, rows: Rows, outline: Outline, place: Place)
    requires Models(courses, rows, outline)
    ensures Known(courses, rows, place) <==> Reaches(outline, place)
    ensures Known(courses, rows, place) ==> place.Parent() in outline
  {
  }

  lemma AcceptsIffAllows(courses: set<Node>, rows: Rows, outline: Outline, op: Op)
    requires Models(courses, rows, outline)
    ensures Accepts(courses, rows, op) <==> Allows(outline, op)
  {
    KnownIffReaches(courses, rows, outline, op.place);
    if Known(courses, rows, op.place) {
      ListedIffChild(courses, rows, outline, op.place.Parent(), op.place.Child(op.id));
      ChildrenAreListed(courses, rows, outline, op.place.Parent());
    }
  }

  /** Moving an item to where it is changes nothing. */
  lemma MoveToSelf(order: seq<Node>, i: nat)
    requires NoDuplicates(order) && i < |order|
    ensures MoveTo(order, order[i], i) == order
  {
    MoveToAt(order, i, i);
  }

  lemma CreateRepresents(rows: Rows, outline: Outline, parent: Node, id: Node, position: int, p: Node)
    requires SameOrders(rows, outline) && parent in outline && id !in outline && id !in rows
    requires forall o :: o in rows ==> rows[o].parent != id
    requires 1 <= position <= |outline[parent]| + 1
    requires p == id || p in outline
    ensures Represents(Inserted(rows, parent, id, position), p, Extended(outline, parent, id, position - 1)[p])
  {
    if p == parent {
      InsertRefines(rows, parent, outline[parent], id, position);
    } else if p in outline {
      OthersUntouched(rows, parent, id, position, 0, p, outline[p]);
    }
  }

  lemma CreateRefines(courses: set<Node>, rows: Rows, outline: Outline, parent: Node, id: Node, position: int)
    requires Models(courses, rows, outline) && parent in outline && id !in outline && !id.Course?
    requires 1 <= position <= |outline[parent]| + 1
    ensures Models(courses, Inserted(rows, parent, id, position), Extended(outline, parent, id, position - 1))
  {
    var after, next := Inserted(rows, parent, id, position), Extended(outline, parent, id, position - 1);
    forall p | p in next
      ensures Represents(after, p, next[p])
    {
      CreateRepresents(rows, outline, parent, id, position, p);
    }
    assert SameNodes(courses, after, next);
  }

  lemma UpdateRepresents(rows: Rows, outline: Outline, parent: Node, i: nat, to: int, p: Node)
    requires SameOrders(rows, outline) && parent in outline && i < |outline[parent]|
    requires 1 <= to <= |outline[parent]| && p in outline
    ensures outline[parent][i] in rows && rows[outline[parent][i]] == Row(parent, i + 1)
    ensures Represents(Relocated(rows, parent, outline[parent][i], i + 1, to), p, Reordered(outline, parent, outline[parent][i], to - 1)[p])
  {
    MoveRefines(rows, parent, outline[parent], i, to);
    if p != parent {
      OthersUntouched(rows, parent, outline[parent][i], to, i + 1, p, outline[p]);
    }
  }

  lemma UpdateRefines(courses: set<Node>, rows: Rows, outline: Outline, parent: Node, i: nat, to: int,
                      after: Rows, next: Outline)
    requires Models(courses, rows, outline) && parent in outline && i < |outline[parent]|
    requires 1 <= to <= |outline[parent]|
    requires after == Relocated(rows, parent, outline[parent][i], i + 1, to)
    requires next == Reordered(outline, parent, outline[parent][i], to - 1)
    ensures Models(courses, after, next)
  {
    UpdateRepresents(rows, outline, parent, i, to, parent);
    forall p | p in next
      ensures Represents(after, p, next[p])
    {
      UpdateRepresents(rows, outline, parent, i, to, p);
    }
    UpdateSameNodes(courses, rows, outline, parent, outline[parent][i], i + 1, to);
  }

  lemma UpdateSameNodes(courses: set<Node>, rows: Rows, outline: Outline, parent: Node, id: Node, from: int, to: int)
    requires SameNodes(courses, rows, outline) && parent in outline && id in outline[parent] && id in rows
    requires NoDuplicates(outline[parent]) && 1 <= to <= |outline[parent]|
    ensures SameNodes(courses, Relocated(rows, parent, id, from, to), Reordered(outline, parent, id, to - 1))
  {
  }

  lemma StepCreateRefines(courses: set<Node>, rows: Rows, outline: Outline, op: Op)
    requires Models(courses, rows, outline) && WellFormed(outline) && op.Create?
    requires Accepts(courses, rows, op) && Allows(outline, op)
    ensures Models(courses, ApplyRows(courses, rows, op), ApplyOutline(outline, op))
  {
    var parent, id := op.place.Parent(), op.place.Child(op.id);
    ChildrenAreListed(courses, rows, outline, parent);
    var position := if op.requested == None then |outline[parent]| + 1 else op.requested.value;
    CreateRefines(courses, rows, outline, parent, id, position);
  }

  predicate StaysPut(rows: Rows, op: Op) {
    op.Update? && (op.requested == None
                   || (op.place.Child(op.id) in rows && op.requested.value == rows[op.place.Child(op.id)].position))
  }

  lemma StayingPutChangesNothing(courses: set<Node>, rows: Rows, outline: Outline, op: Op)
    requires Models(courses, rows, outline) && WellFormed(outline) && StaysPut(rows, op) && Allows(outline, op)
    ensures ApplyRows(courses, rows, op) == rows && ApplyOutline(outline, op) == outline
  {
    AcceptsIffAllows(courses, rows, outline, op);
    if op.requested != None {
      var i := IndexOf(rows, outline, op.place.Parent(), op.place.Child(op.id));
      UpdateMeans(courses, rows, outline, op, i);
    }
  }

  lemma StepMoveRefines(courses: set<Node>, rows: Rows, outline: Outline, op: Op)
    requires Models(courses, rows, outline) && WellFormed(outline) && op.Update? && !StaysPut(rows, op)
    requires Accepts(courses, rows, op) && Allows(outline, op)
    ensures Models(courses, ApplyRows(courses, rows, op), ApplyOutline(outline, op))
  {
    var parent, id := op.place.Parent(), op.place.Child(op.id);
    var i := IndexOf(rows, outline, parent, id);
    UpdateMeans(courses, rows, outline, op, i);
    UpdateRefines(courses, rows, outline, parent, i, op.requested.value,
                  ApplyRows(courses, rows, op), ApplyOutline(outline, op));
  }

  lemma UpdateMeans(courses: set<Node>, rows: Rows, outline: Outline, op: Op, i: nat)
    requires WellFormed(outline) && op.Update? && op.requested != None
    requires Accepts(courses, rows, op) && Allows(outline, op)
    requires i < |outline[op.place.Parent()]| && outline[op.place.Parent()][i] == op.place.Child(op.id)
    requires rows[op.place.Child(op.id)] == Row(op.place.Parent(), i + 1)
    ensures ApplyRows(courses, rows, op)
         == if op.requested.value == i + 1 then rows
            else Relocated(rows, op.place.Parent(), op.place.Child(op.id), i + 1, op.requested.value)
    ensures ApplyOutline(outline, op)
         == if op.requested.value == i + 1 then outline
            else Reordered(outline, op.place.Parent(), op.place.Child(op.id), op.requested.value - 1)
  {
    MoveToSelf(outline[op.place.Parent()], i);
  }

  lemma IndexOf(rows: Rows, outline: Outline, parent: Node, id: Node) returns (i: nat)
    requires SameOrders(rows, outline) && parent in outline && id in outline[parent]
    ensures i < |outline[parent]| && outline[parent][i] == id
    ensures id in rows && rows[id] == Row(parent, i + 1)
  {
    i :| 0 <= i < |outline[parent]| && outline[parent][i] == id;
  }

  /** One request: accepted in the table exactly when the tree allows it, and with the same effect. */
  lemma StepRefines(courses: set<Node>, rows: Rows, outline: Outline, op: Op)
    requires Models(courses, rows, outline) && WellFormed(outline)
    ensures Accepts(courses, rows, op) <==> Allows(outline, op)
    ensures Models(courses, ApplyRows(courses, rows, op), ApplyOutline(outline, op))
  {
    AcceptsIffAllows(courses, rows, outline, op);
    if Allows(outline, op) {
      match op
      case Create(_, _, _) => StepCreateRefines(courses, rows, outline, op);
      case Update(_, _, _) =>
        if StaysPut(rows, op) {
          StayingPutChangesNothing(courses, rows, outline, op);
        } else {
          StepMoveRefines(courses, rows, outline, op);
        }
    }
  }

  ghost function RunOutline(outline: Outline, ops: seq<Op>): Outline
    requires WellFormed(outline)
    decreases |ops|
  {
    if ops == [] then outline
    else
      ApplyKeepsWellFormed(outline, ops[0]);
      RunOutline(ApplyOutline(outline, ops[0]), ops[1..])
  }

  lemma ApplyKeepsWellFormed(outline: Outline, op: Op)
    requires WellFormed(outline)
    ensures WellFormed(ApplyOutline(outline, op))
  {
    if Allows(outline, op) {
      var parent, id := op.place.Parent(), op.place.Child(op.id);
      if op.Update? && op.requested != None {
        var i :| 0 <= i < |outline[parent]| && outline[parent][i] == id;
        MoveToKeepsMembers(outline[parent], i, op.requested.value - 1);
      }
    }
  }

  /** Any run of requests keeps every parent's positions at exactly 1..n, in the order the abstract run gives. */
  lemma {:induction false} RunRefines(courses: set<Node>, rows: Rows, outline: Outline, ops: seq<Op>)
    requires Models(courses, rows, outline) && WellFormed(outline)
    ensures UniqueIndex(RunRows(courses, rows, ops))
    ensures Models(courses, RunRows(courses, rows, ops), RunOutline(outline, ops))
    decreases |ops|
  {
    if ops == [] {
      ModelsKeepUnique(courses, rows, outline);
    } else {
      StepRefines(courses, rows, outline, ops[0]);
      ApplyKeepsWellFormed(outline, ops[0]);
      RunRefines(courses, ApplyRows(courses, rows, ops[0]), ApplyOutline(outline, ops[0]), ops[1..]);
    }
  }

  // ----- The service -----

  ghost predicate OnlyCourses(courses: set<Node>) {
    forall c :: c in courses ==> c.Course?
  }

  /** The table holds what some run of requests left there. */
  ghost predicate Sound(courses: set<Node>, rows: Rows) {
    OnlyCourses(courses) && exists ops :: rows == RunRows(courses, map[], ops)
  }

  lemma {:induction false} RunOneMore(courses: set<Node>, rows: Rows, ops: seq<Op>, op: Op)
    ensures RunRows(courses, rows, ops + [op]) == ApplyRows(courses, RunRows(courses, rows, ops), op)
    decreases |ops|
  {
    if ops == [] {
      assert [] + [op] == [op];
    } else {
      assert (ops + [op])[1..] == ops[1..] + [op];
      RunOneMore(courses, ApplyRows(courses, rows, ops[0]), ops[1..], op);
    }
  }

  lemma SoundIsModelled(courses: set<Node>, rows: Rows) returns (outline: Outline)
    requires Sound(courses, rows)
    ensures Models(courses, rows, outline) && UniqueIndex(rows)
  {
    var ops :| rows == RunRows(courses, map[], ops);
    var start: Outline := map c | c in courses :: [];
    RunRefines(courses, map[], start, ops);
    outline := RunOutline(start, ops);
  }

  lemma StepKeepsSound(courses: set<Node>, rows: Rows, op: Op)
    requires Sound(courses, rows)
    ensures UniqueIndex(rows) && Sound(courses, ApplyRows(courses, rows, op))
  {
    var ops :| rows == RunRows(courses, map[], ops);
    RunOneMore(courses, map[], ops, op);
    var outline := SoundIsModelled(courses, rows);
  }

  lemma SiblingFacts(courses: set<Node>, rows: Rows, place: Place, siblings: seq<PositionRow>)
    requires Sound(courses, rows) && Known(courses, rows, place) && Siblings(rows, place.Parent(), siblings)
    ensures |siblings| == |Children(rows, place.Parent())|
    ensures forall s :: s in siblings ==> s.position >= 1
    ensures forall id :: IsChild(rows, place.Parent(), id) ==> PositionRow(id, rows[id].position) in siblings
  {
    var outline := SoundIsModelled(courses, rows);
    SiblingsAreTheSequence(rows, place.Parent(), siblings, outline[place.Parent()]);
    ChildrenAreListed(courses, rows, outline, place.Parent());
    SiblingsAreDistinct(rows, place.Parent(), siblings);
  }

  lemma InsertIsFree(courses: set<Node>, rows: Rows, place: Place, id: Node, position: int)
    requires Sound(courses, rows) && Known(courses, rows, place) && id !in rows
    requires 1 <= position <= |Children(rows, place.Parent())| + 1
    ensures Free(Shifted(rows, place.Parent(), position), place.Parent(), id, position)
  {
  }

  /** Each request runs alone under the course lock; the table refuses no write of an accepted request. */
  class Service {
    const courses: set<Node>
    const table: PositionTable

    constructor (courses: set<Node>)
      requires OnlyCourses(courses)
      ensures Valid() && fresh(table) && this.courses == courses && table.rows == map[]
    {
      this.courses := courses;
      table := new PositionTable();
      new;
      assert RunRows(courses, map[], []) == map[];
    }

    ghost predicate Valid()
      reads this, table
    {
      Sound(courses, table.rows)
    }

    /** Shift and create, once the path is known. */
    method InsertItem(place: Place, id: Node, requested: Option<int>) returns (accepted: bool)
      requires Valid() && Known(courses, table.rows, place) && id !in table.rows
      modifies table
      ensures accepted == InsertPosition(|Children(old(table.rows), place.Parent())|, requested).Some?
      ensures !accepted ==> table.rows == old(table.rows)
      ensures accepted ==> table.rows == Inserted(old(table.rows), place.Parent(), id,
          InsertPosition(|Children(old(table.rows), place.Parent())|, requested).value)
    {
      StepKeepsSound(courses, table.rows, Create(place, 0, None));
      var siblings := table.FindSiblings(place.Parent());
      SiblingFacts(courses, table.rows, place, siblings);
      match InsertPosition(|siblings|, requested)
      case None => accepted := false;
      case Some(position) =>
        InsertIsFree(courses, table.rows, place, id, position);
        table.ShiftForInsert(siblings, place.Parent(), position);
        table.Create(id, place.Parent(), position);
        accepted := true;
    }

    method CreateItem(place: Place, id: int, requested: Option<int>) returns (accepted: bool)
      requires Valid()
      modifies table
      ensures Valid()
      ensures accepted == Accepts(courses, old(table.rows), Create(place, id, requested))
      ensures table.rows == ApplyRows(courses, old(table.rows), Create(place, id, requested))
    {
      StepKeepsSound(courses, table.rows, Create(place, id, requested));
      if Known(courses, table.rows, place) && place.Child(id) !in table.rows {
        accepted := InsertItem(place, place.Child(id), requested);
      } else {
        accepted := false;
      }
    }

    /** Shift and write the target, for a position other than the present one. */
    method MoveItem(place: Place, id: Node, requested: int) returns (accepted: bool)
      requires Valid() && Known(courses, table.rows, place) && IsChild(table.rows, place.Parent(), id)
      requires requested != table.rows[id].position
      modifies table
      ensures accepted == MovePosition(|Children(old(table.rows), place.Parent())|, requested).Some?
      ensures !accepted ==> table.rows == old(table.rows)
      ensures accepted ==> (table.rows
          == Relocated(old(table.rows), place.Parent(), id, old(table.rows)[id].position, requested))
    {
      StepKeepsSound(courses, table.rows, Create(place, 0, None));
      var siblings := table.FindSiblings(place.Parent());
      SiblingFacts(courses, table.rows, place, siblings);
      match MovePosition(|siblings|, requested)
      case None => accepted := false;
      case Some(position) =>
        table.ShiftForMove(siblings, place.Parent(), id, table.rows[id].position, position);
        table.Update(id, position);
        accepted := true;
    }

    method UpdateItem(place: Place, id: int, requested: Option<int>) returns (accepted: bool)
      requires Valid()
      modifies table
      ensures Valid()
      ensures accepted == Accepts(courses, old(table.rows), Update(place, id, requested))
      ensures table.rows == ApplyRows(courses, old(table.rows), Update(place, id, requested))
    {
      StepKeepsSound(courses, table.rows, Update(place, id, requested));
      if !(Known(courses, table.rows, place) && IsChild(table.rows, place.Parent(), place.Child(id))) {
        accepted := false;
      } else if requested == None || requested.value == table.rows[place.Child(id)].position {
        accepted := true;
      } else {
        accepted := MoveItem(place, place.Child(id), requested.value);
      }
    }
  }
}
