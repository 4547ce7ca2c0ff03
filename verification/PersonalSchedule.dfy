/** A person's own lessons in a range of time. */
module PersonalSchedule {
  import opened Sorting
  import opened Options
  import opened Timetable
  import opened ScheduleConflicts

  const DAY_MS := 24 * 60 * 60000
  const SCHEDULE_DEFAULT_RANGE_DAYS := 30
  const SCHEDULE_MAX_RANGE_DAYS := 62

  /** Whose schedule; the other roles have none and are refused. */
  datatype Viewer = TheoryTeacher(org: Id, id: Id) | DrivingInstructor(org: Id, id: Id) | Learner(org: Id, id: Id)

  datatype TypeFilter = Any | OnlyTheory | OnlyPractice

  /** `completed` holds the (group, student) pairs whose enrollment was COMPLETED. */
  datatype Request = Request(viewer: Viewer, now: int, from: Option<int>, to: Option<int>, kind: TypeFilter,
                             includeCancelled: bool, completed: set<(Id, Id)>)

  /** None: the range is refused. */
  function ResolveRange(from: Option<int>, to: Option<int>, now: int): Option<Slot> {
    var start := if from.Some? then from.value else now;
    var end := if to.Some? then to.value else start + SCHEDULE_DEFAULT_RANGE_DAYS * DAY_MS;
    if end <= start || end - start > SCHEDULE_MAX_RANGE_DAYS * DAY_MS then None else Some(Slot(start, end))
  }

  /** From now on unless said otherwise, for 30 days unless said otherwise, and for 62 days at most. */
  lemma RangeFacts(from: Option<int>, to: Option<int>, now: int)
    ensures var start := if from == None then now else from.value;
      && (to == None ==> ResolveRange(from, to, now) == Some(Slot(start, start + 2592000000)))
      && (to.Some? && start < to.value <= start + 5356800000 ==> ResolveRange(from, to, now) == Some(Slot(start, to.value)))
      && (to.Some? && !(start < to.value <= start + 5356800000) ==> ResolveRange(from, to, now) == None)
  {
  }

  /** scheduleScope: a student keeps the history of a completed group but none of its later lessons. */
  predicate InScope(db: Tables, q: Request, row: Row) {
    row.org == q.viewer.org
    && match (q.viewer, row)
       case (TheoryTeacher(_, id), Theory(_, g, _, _, _)) => g in db.groups && db.groups[g].teacher == id
       case (DrivingInstructor(_, id), Practice(_, i, _, _, _, _, _)) => i == id
       case (Learner(_, id), Theory(_, g, start, _, _)) => (g, id) in db.active || (start <= q.now && (g, id) in q.completed)
       case (Learner(_, id), Practice(_, _, _, s, _, _, _)) => s == id
       case _ => false
  }

  predicate Wanted(q: Request, row: Row) {
    && (q.kind == OnlyTheory ==> row.Theory?) && (q.kind == OnlyPractice ==> row.Practice?)
    && (q.includeCancelled || row.status != CANCELLED)
  }

  /** What the schedule is to show: `theory` and `practice` are the rows each query saw. */
  ghost predicate Shown(theory: Tables, practice: Tables, q: Request, range: Slot, item: Ref, start: int) {
    var db := if item.TheoryLesson? then theory else practice;
    && item in db.lessons && db.lessons[item].start == start
    && InScope(db, q, db.lessons[item]) && Wanted(q, db.lessons[item]) && Overlaps(range, db.lessons[item])
  }

  // ----- Whose lessons, separately for each role -----

  /** The row is at hand under this start, of the kind and status asked for, and some moment of it lies in the range. */
  ghost predicate AtHand(db: Tables, q: Request, range: Slot, item: Ref, start: int) {
    && item in db.lessons && db.lessons[item].start == start && db.lessons[item].org == q.viewer.org
    && (db.lessons[item].Theory? ==> q.kind != OnlyPractice) && (db.lessons[item].Practice? ==> q.kind != OnlyTheory)
    && (db.lessons[item].status == CANCELLED ==> q.includeCancelled)
    && exists m :: During(range.start, range.end, m) && During(start, start + db.lessons[item].dur * 60000, m)
  }

  lemma AtHandIff(db: Tables, q: Request, range: Slot, item: Ref, start: int)
    requires LegalDurations(db) && range.start < range.end && item in db.lessons && db.lessons[item].start == start
    ensures AtHand(db, q, range, item, start) <==>
            db.lessons[item].org == q.viewer.org && Wanted(q, db.lessons[item]) && Overlaps(range, db.lessons[item])
  {
    OverlapsIff(range, db.lessons[item]);
  }

  /** A teacher sees the theory of the groups taught at present. */
  lemma TeacherSees(theory: Tables, practice: Tables, q: Request, range: Slot, item: Ref, start: int)
    requires LegalDurations(theory) && LegalDurations(practice) && range.start < range.end && q.viewer.TheoryTeacher?
    ensures Shown(theory, practice, q, range, item, start) <==>
            && item.TheoryLesson? && AtHand(theory, q, range, item, start)
            && theory.lessons[item].group in theory.groups && theory.groups[theory.lessons[item].group].teacher == q.viewer.id
  {
    var db := if item.TheoryLesson? then theory else practice;
    if item in db.lessons && db.lessons[item].start == start {
      AtHandIff(db, q, range, item, start);
    }
  }

  /** An instructor sees the practice lessons given under their name. */
  lemma InstructorSees(theory: Tables, practice: Tables, q: Request, range: Slot, item: Ref, start: int)
    requires LegalDurations(theory) && LegalDurations(practice) && range.start < range.end && q.viewer.DrivingInstructor?
    ensures Shown(theory, practice, q, range, item, start) <==>
            item.PracticeLesson? && AtHand(practice, q, range, item, start) && practice.lessons[item].instructor == q.viewer.id
  {
    var db := if item.TheoryLesson? then theory else practice;
    if item in db.lessons && db.lessons[item].start == start {
      AtHandIff(db, q, range, item, start);
    }
  }

  /** A student sees their practice, the theory of the groups they are in, and of those they completed what has begun. */
  lemma LearnerSees(theory: Tables, practice: Tables, q: Request, range: Slot, item: Ref, start: int)
    requires LegalDurations(theory) && LegalDurations(practice) && range.start < range.end && q.viewer.Learner?
    ensures Shown(theory, practice, q, range, item, start) <==>
            || (item.PracticeLesson? && AtHand(practice, q, range, item, start) && practice.lessons[item].student == q.viewer.id)
            || (item.TheoryLesson? && AtHand(theory, q, range, item, start)
                && (|| (theory.lessons[item].group, q.viewer.id) in theory.active
                    || ((theory.lessons[item].group, q.viewer.id) in q.completed && start <= q.now)))
  {
    var db := if item.TheoryLesson? then theory else practice;
    if item in db.lessons && db.lessons[item].start == start {
      AtHandIff(db, q, range, item, start);
    }
  }

  datatype Item = Item(lesson: Ref, start: int)

  /** compareItems: by start, theory first, then by id. */
  predicate ItemLe(a: Item, b: Item) {
    if a.start != b.start then a.start < b.start
    else if a.lesson.TheoryLesson? != b.lesson.TheoryLesson? then a.lesson.TheoryLesson?
    else a.lesson.id <= b.lesson.id
  }

  /** The earlier one first; at the same time theory first; within a kind the smaller id first. */
  ghost predicate Precedes(a: Item, b: Item) {
    || a.start < b.start
    || (a.start == b.start && a.lesson.TheoryLesson? && b.lesson.PracticeLesson?)
    || (a.start == b.start && (a.lesson.TheoryLesson? <==> b.lesson.TheoryLesson?) && a.lesson.id < b.lesson.id)
  }

  lemma ItemOrderIsTotal()
    ensures TotalPreorder(ItemLe)
    ensures forall a, b :: ItemLe(a, b) && ItemLe(b, a) ==> a == b
  {
  }

  /** The rows of one query that meet the range. */
  method Collect(db: Tables, q: Request, range: Slot, theory: bool) returns (items: seq<Item>)
    requires LegalDurations(db)
    ensures NoDuplicates(items)
    ensures forall i :: i in items <==> (i.lesson.TheoryLesson? == theory && Shown(db, db, q, range, i.lesson, i.start))
  {
    var window := CandidateWindow(range);
    var found := Select(db.lessons, (r: Ref, row: Row) =>
      r.TheoryLesson? == theory && InScope(db, q, row) && Wanted(q, row) && window.Contains(row.start));
    items := [];
    for i := 0 to |found|
      invariant NoDuplicates(items)
      invariant forall x :: x in items <==> (x.lesson in found[..i] && x.lesson.TheoryLesson? == theory
                                             && Shown(db, db, q, range, x.lesson, x.start))
    {
      var row := db.lessons[found[i]];
      if Overlaps(range, row) {
        items := items + [Item(found[i], row.start)];
      }
      assert found[..i + 1] == found[..i] + [found[i]];
    }
    assert found[..|found|] == found;
  }

  method SortItems(theory: seq<Item>, practice: seq<Item>) returns (items: seq<Item>)
    requires NoDuplicates(theory) && NoDuplicates(practice)
    requires (forall i :: i in theory ==> i.lesson.TheoryLesson?) && forall i :: i in practice ==> !i.lesson.TheoryLesson?
    ensures NoDuplicates(items) && Sorted(items, ItemLe) && forall i, j :: 0 <= i < j < |items| ==> Precedes(items[i], items[j])
    ensures forall i :: i in items <==> i in theory || i in practice
  {
    ItemOrderIsTotal();
    assert forall i :: 0 <= i < |theory| ==> theory[i] in theory;
    assert forall i :: 0 <= i < |practice| ==> practice[i] in practice;
    SortIsSortedPermutation(theory + practice, ItemLe);
    items := Sort(theory + practice, ItemLe);
  }

  /** Exactly the lessons in scope that meet [from, to), in order; None when the range is refused. */
  method GetMySchedule(theory: Tables, practice: Tables, q: Request) returns (result: Option<seq<Item>>)
    requires LegalDurations(theory) && LegalDurations(practice)
    ensures result == None <==> ResolveRange(q.from, q.to, q.now) == None
    ensures result.Some? ==> NoDuplicates(result.value) && Sorted(result.value, ItemLe)
    ensures result.Some? ==> forall i, j :: 0 <= i < j < |result.value| ==> Precedes(result.value[i], result.value[j])
    ensures result.Some? ==> forall i ::
      i in result.value <==> Shown(theory, practice, q, ResolveRange(q.from, q.to, q.now).value, i.lesson, i.start)
  {
    match ResolveRange(q.from, q.to, q.now)
    case None => result := None;
    case Some(range) =>
      var first := Collect(theory, q, range, true);
      var second := Collect(practice, q, range, false);
      var items := SortItems(first, second);
      result := Some(items);
  }

  lemma NothingInNothing(a: seq<Item>, b: seq<Item>)
    requires forall i :: i in b ==> i in a
    ensures a == [] ==> b == []
  {
    if b != [] {
      assert b[0] in a;
    }
  }

  /** The order leaves no choice: the rows alone determine the schedule. */
  lemma {:induction false} ScheduleIsDetermined(a: seq<Item>, b: seq<Item>)
    requires NoDuplicates(a) && NoDuplicates(b) && Sorted(a, ItemLe) && Sorted(b, ItemLe)
    requires forall i :: i in a <==> i in b
    ensures a == b
  {
    NothingInNothing(a, b);
    NothingInNothing(b, a);
    if a != [] {
      assert a[0] in b && b[0] in a;
      ItemOrderIsTotal();
      assert a[0] == b[0];
      assert a == [a[0]] + a[1..] && b == [b[0]] + b[1..];
      forall i
        ensures i in a[1..] <==> i in b[1..]
      {
        assert i in a[1..] <==> i in a && i != a[0];
        assert i in b[1..] <==> i in b && i != b[0];
      }
      ScheduleIsDetermined(a[1..], b[1..]);
    }
  }
}
