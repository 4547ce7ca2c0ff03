/** The search for lessons that stand in the way of a slot. */
module ScheduleConflicts {
  import opened Sorting
  import opened Options
  import opened Timetable

  datatype Resource = TEACHER | INSTRUCTOR | GROUP | CAR | STUDENT {
    function Rank(): nat {
      match this
      case TEACHER => 0
      case INSTRUCTOR => 1
      case GROUP => 2
      case CAR => 3
      case STUDENT => 4
    }
  }

  datatype Conflict = Conflict(resource: Resource, resourceId: Id, lesson: Ref, start: int, end: int)

  function ToConflict(resource: Resource, resourceId: Id, lesson: Ref, row: Row): Conflict {
    Conflict(resource, resourceId, lesson, row.start, row.End())
  }

  /** Resource order first, then start, then lesson id. */
  predicate ConflictLe(a: Conflict, b: Conflict) {
    if a.resource != b.resource then a.resource.Rank() < b.resource.Rank()
    else if a.start != b.start then a.start < b.start
    else a.lesson.id <= b.lesson.id
  }

  /** Teachers, then instructors, groups, cars and students; within a resource by time, then by lesson id. */
  ghost predicate NotAfter(a: Conflict, b: Conflict) {
    && (b.resource == TEACHER ==> a.resource == TEACHER)
    && (b.resource == INSTRUCTOR ==> a.resource == TEACHER || a.resource == INSTRUCTOR)
    && (b.resource == GROUP ==> a.resource == TEACHER || a.resource == INSTRUCTOR || a.resource == GROUP)
    && (a.resource == STUDENT ==> b.resource == STUDENT)
    && (a.resource == b.resource ==> a.start < b.start || (a.start == b.start && a.lesson.id <= b.lesson.id))
  }

  function SortConflicts(conflicts: seq<Conflict>): seq<Conflict> {
    Sort(conflicts, ConflictLe)
  }

  datatype TheoryQuery = TheoryQuery(org: Id, lesson: Option<Id>, group: Id, teacher: Id, slot: Slot)

  datatype PracticeQuery = PracticeQuery(org: Id, lesson: Option<Id>, instructor: Id, car: Id, student: Id, slot: Slot)

  /** `found` reports a theory lesson, other than the one being moved, that takes the group's or the teacher's time. */
  ghost predicate TheoryHitsTheory(db: Tables, q: TheoryQuery, found: Conflict) {
    && found.lesson.TheoryLesson? && Some(found.lesson.id) != q.lesson
    && found.lesson in db.lessons
    && var row := db.lessons[found.lesson];
    && row.Theory? && row.org == q.org && row.Live() && Overlaps(q.slot, row)
    && (|| (row.group == q.group && found == Conflict(GROUP, q.group, found.lesson, row.start, row.start + row.dur * 60000))
        || (row.group in db.groups && db.groups[row.group].teacher == q.teacher
            && found == Conflict(TEACHER, q.teacher, found.lesson, row.start, row.start + row.dur * 60000)))
  }

  /** `found` reports a practice lesson of a student who is an ACTIVE member of the group. */
  ghost predicate TheoryHitsPractice(db: Tables, q: TheoryQuery, found: Conflict) {
    && found.lesson.PracticeLesson? && found.lesson in db.lessons
    && var row := db.lessons[found.lesson];
    && row.Practice? && row.org == q.org && row.Live() && Overlaps(q.slot, row)
    && (q.group, row.student) in db.active
    && found == Conflict(STUDENT, row.student, found.lesson, row.start, row.start + row.dur * 60000)
  }

  /** `found` reports a practice lesson, other than the one being moved, that takes the instructor, car or student. */
  ghost predicate PracticeHitsPractice(db: Tables, q: PracticeQuery, found: Conflict) {
    && found.lesson.PracticeLesson? && Some(found.lesson.id) != q.lesson
    && found.lesson in db.lessons
    && var row := db.lessons[found.lesson];
    && row.Practice? && row.org == q.org && row.Live() && Overlaps(q.slot, row)
    && var end := row.start + row.dur * 60000;
    && (|| (row.instructor == q.instructor && found == Conflict(INSTRUCTOR, q.instructor, found.lesson, row.start, end))
        || (row.car == Some(q.car) && found == Conflict(CAR, q.car, found.lesson, row.start, end))
        || (row.student == q.student && found == Conflict(STUDENT, q.student, found.lesson, row.start, end)))
  }

  /** `found` reports a theory lesson of a group where the student is an ACTIVE member. */
  ghost predicate PracticeHitsTheory(db: Tables, q: PracticeQuery, found: Conflict) {
    && found.lesson.TheoryLesson? && found.lesson in db.lessons
    && var row := db.lessons[found.lesson];
    && row.Theory? && row.org == q.org && row.Live() && Overlaps(q.slot, row)
    && (row.group, q.student) in db.active
    && found == Conflict(STUDENT, q.student, found.lesson, row.start, row.start + row.dur * 60000)
  }

  ghost predicate LegalDurations(db: Tables) {
    forall r :: r in db.lessons ==> KindMatches(r, db.lessons[r]) && db.lessons[r].LegalDuration()
  }

  lemma ConflictOrderIsTotal()
    ensures TotalPreorder(ConflictLe)
  {
  }

  lemma SortConflictsOrders(found: seq<Conflict>)
    requires NoDuplicates(found)
    ensures var conflicts := SortConflicts(found);
      && NoDuplicates(conflicts) && (forall c :: c in conflicts <==> c in found)
      && forall i, j :: 0 <= i < j < |conflicts| ==> NotAfter(conflicts[i], conflicts[j])
  {
    ConflictOrderIsTotal();
    SortIsSortedPermutation(found, ConflictLe);
    assert forall a, b :: ConflictLe(a, b) ==> NotAfter(a, b);
  }

  /** SELECT ... WHERE: every matching lesson once, in an order the database chooses. */
  method Select(lessons: map<Ref, Row>, where: (Ref, Row) -> bool) returns (rows: seq<Ref>)
    ensures NoDuplicates(rows)
    ensures forall r :: r in rows <==> r in lessons && where(r, lessons[r])
  {
    rows := [];
    var rest := lessons.Keys;
    while rest != {}
      invariant rest <= lessons.Keys
      invariant NoDuplicates(rows)
      invariant forall r :: r in rows <==> r in lessons && r !in rest && where(r, lessons[r])
    {
      var r :| r in rest;
      rest := rest - {r};
      if where(r, lessons[r]) {
        rows := rows + [r];
      }
    }
  }

  /**
   * The two queries run one after the other, so each sees the rows committed at its own moment:
   * `own` for the theory query, `other` for the practice query.
   */
  method FindTheoryConflicts(own: Tables, other: Tables, q: TheoryQuery) returns (conflicts: seq<Conflict>)
    requires LegalDurations(own) && LegalDurations(other)
    ensures forall c :: c in conflicts <==> TheoryHitsTheory(own, q, c) || TheoryHitsPractice(other, q, c)
    ensures NoDuplicates(conflicts)
    ensures forall i, j :: 0 <= i < j < |conflicts| ==> NotAfter(conflicts[i], conflicts[j])
  {
    var window := CandidateWindow(q.slot);
    var theory := Select(own.lessons, (r: Ref, row: Row) =>
      && r.TheoryLesson? && Some(r.id) != q.lesson
      && row.Theory? && row.org == q.org && row.Live() && window.Contains(row.start)
      && (row.group == q.group || (row.group in own.groups && own.groups[row.group].teacher == q.teacher)));
    var practice := Select(other.lessons, (r: Ref, row: Row) =>
      && r.PracticeLesson?
      && row.Practice? && row.org == q.org && row.Live() && window.Contains(row.start)
      && (q.group, row.student) in other.active);

    var found: seq<Conflict> := [];
    for i := 0 to |theory|
      invariant NoDuplicates(found)
      invariant forall c :: c in found <==> c.lesson in theory[..i] && TheoryHitsTheory(own, q, c)
    {
      var row := own.lessons[theory[i]];
      if Overlaps(q.slot, row) {
        if row.group == q.group {
          found := found + [ToConflict(GROUP, q.group, theory[i], row)];
        }
        if row.group in own.groups && own.groups[row.group].teacher == q.teacher {
          found := found + [ToConflict(TEACHER, q.teacher, theory[i], row)];
        }
      }
      assert theory[..i + 1] == theory[..i] + [theory[i]];
    }
    assert theory[..|theory|] == theory;
    assert forall c :: c in found <==> TheoryHitsTheory(own, q, c);
    ghost var first := found;
    for i := 0 to |practice|
      invariant NoDuplicates(found)
      invariant forall c :: c in found <==> c in first || (c.lesson in practice[..i] && TheoryHitsPractice(other, q, c))
    {
      var row := other.lessons[practice[i]];
      if Overlaps(q.slot, row) {
        found := found + [ToConflict(STUDENT, row.student, practice[i], row)];
      }
      assert practice[..i + 1] == practice[..i] + [practice[i]];
    }
    assert practice[..|practice|] == practice;
    SortConflictsOrders(found);
    conflicts := SortConflicts(found);
  }

  method FindPracticeConflicts(own: Tables, other: Tables, q: PracticeQuery) returns (conflicts: seq<Conflict>)
    requires LegalDurations(own) && LegalDurations(other)
    ensures forall c :: c in conflicts <==> PracticeHitsPractice(own, q, c) || PracticeHitsTheory(other, q, c)
    ensures NoDuplicates(conflicts)
    ensures forall i, j :: 0 <= i < j < |conflicts| ==> NotAfter(conflicts[i], conflicts[j])
  {
    var window := CandidateWindow(q.slot);
    var practice := Select(own.lessons, (r: Ref, row: Row) =>
      && r.PracticeLesson? && Some(r.id) != q.lesson
      && row.Practice? && row.org == q.org && row.Live() && window.Contains(row.start)
      && (row.instructor == q.instructor || row.car == Some(q.car) || row.student == q.student));
    var theory := Select(other.lessons, (r: Ref, row: Row) =>
      && r.TheoryLesson?
      && row.Theory? && row.org == q.org && row.Live() && window.Contains(row.start)
      && (row.group, q.student) in other.active);

    var found: seq<Conflict> := [];
    for i := 0 to |practice|
      invariant NoDuplicates(found)
      invariant forall c :: c in found <==> c.lesson in practice[..i] && PracticeHitsPractice(own, q, c)
    {
      var row := own.lessons[practice[i]];
      if Overlaps(q.slot, row) {
        if row.instructor == q.instructor {
          found := found + [ToConflict(INSTRUCTOR, q.instructor, practice[i], row)];
        }
        if row.car == Some(q.car) {
          found := found + [ToConflict(CAR, q.car, practice[i], row)];
        }
        if row.student == q.student {
          found := found + [ToConflict(STUDENT, q.student, practice[i], row)];
        }
      }
      assert practice[..i + 1] == practice[..i] + [practice[i]];
    }
    assert practice[..|practice|] == practice;
    assert forall c :: c in found <==> PracticeHitsPractice(own, q, c);
    ghost var first := found;
    for i := 0 to |theory|
      invariant NoDuplicates(found)
      invariant forall c :: c in found <==> c in first || (c.lesson in theory[..i] && PracticeHitsTheory(other, q, c))
    {
      var row := other.lessons[theory[i]];
      if Overlaps(q.slot, row) {
        found := found + [ToConflict(STUDENT, q.student, theory[i], row)];
      }
      assert theory[..i + 1] == theory[..i] + [theory[i]];
    }
    assert theory[..|theory|] == theory;
    SortConflictsOrders(found);
    conflicts := SortConflicts(found);
  }

  /** No lesson of the candidate's own kind, other than the one being moved, clashes with it. */
  ghost predicate OwnKindClear(db: Tables, self: Option<Ref>, candidate: Row) {
    forall r :: r in db.lessons && Some(r) != self && KindMatches(r, candidate) && db.lessons[r].org == candidate.org
      ==> !Clash(true, db, candidate, db.lessons[r])
  }

  /** No lesson of the other kind clashes with the candidate. */
  ghost predicate OtherKindClear(db: Tables, candidate: Row) {
    forall r :: r in db.lessons && !KindMatches(r, candidate) && db.lessons[r].org == candidate.org
      ==> !Clash(true, db, candidate, db.lessons[r])
  }

  function SelfId(self: Option<Ref>): Option<Id> {
    if self.Some? then Some(self.value.id) else None
  }

  function TheoryQueryFor(db: Tables, self: Option<Ref>, candidate: Row): TheoryQuery
    requires candidate.Theory? && candidate.group in db.groups
  {
    TheoryQuery(candidate.org, SelfId(self), candidate.group, db.groups[candidate.group].teacher, SlotOf(candidate))
  }

  function PracticeQueryFor(self: Option<Ref>, candidate: Row): PracticeQuery
    requires candidate.Practice? && candidate.car.Some?
  {
    PracticeQuery(candidate.org, SelfId(self), candidate.instructor, candidate.car.value, candidate.student, SlotOf(candidate))
  }

  /** The theory search returns nothing exactly when the slot is free for the candidate. */
  lemma TheorySearchIsEmptyIffFree(own: Tables, other: Tables, self: Option<Ref>, candidate: Row)
    requires LegalDurations(own) && LegalDurations(other)
    requires candidate.Theory? && candidate.Live() && candidate.group in own.groups
    requires self.Some? ==> self.value.TheoryLesson?
    ensures var q := TheoryQueryFor(own, self, candidate);
      (forall c :: !TheoryHitsTheory(own, q, c) && !TheoryHitsPractice(other, q, c))
      <==> OwnKindClear(own, self, candidate) && OtherKindClear(other, candidate)
  {
    var q := TheoryQueryFor(own, self, candidate);
    forall r | r in own.lessons && own.lessons[r].Theory?
      ensures var row := own.lessons[r];
        Some(r) != self && row.org == q.org && Clash(true, own, candidate, row)
        <==> (|| TheoryHitsTheory(own, q, ToConflict(GROUP, q.group, r, row))
              || TheoryHitsTheory(own, q, ToConflict(TEACHER, q.teacher, r, row)))
    {
    }
    forall r | r in other.lessons && other.lessons[r].Practice?
      ensures var row := other.lessons[r];
        row.org == q.org && Clash(true, other, candidate, row)
        <==> TheoryHitsPractice(other, q, ToConflict(STUDENT, row.student, r, row))
    {
    }
  }

  /** The practice search returns nothing exactly when the slot is free for the candidate. */
  lemma PracticeSearchIsEmptyIffFree(own: Tables, other: Tables, self: Option<Ref>, candidate: Row)
    requires LegalDurations(own) && LegalDurations(other)
    requires candidate.Practice? && candidate.Live() && candidate.car.Some?
    requires self.Some? ==> self.value.PracticeLesson?
    ensures var q := PracticeQueryFor(self, candidate);
      (forall c :: !PracticeHitsPractice(own, q, c) && !PracticeHitsTheory(other, q, c))
      <==> OwnKindClear(own, self, candidate) && OtherKindClear(other, candidate)
  {
    var q := PracticeQueryFor(self, candidate);
    forall r | r in own.lessons && own.lessons[r].Practice?
      ensures var row := own.lessons[r];
        Some(r) != self && row.org == q.org && Clash(true, own, candidate, row)
        <==> (|| PracticeHitsPractice(own, q, ToConflict(INSTRUCTOR, q.instructor, r, row))
              || PracticeHitsPractice(own, q, ToConflict(CAR, q.car, r, row))
              || PracticeHitsPractice(own, q, ToConflict(STUDENT, q.student, r, row)))
    {
    }
    forall r | r in other.lessons && other.lessons[r].Theory?
      ensures var row := other.lessons[r];
        row.org == q.org && Clash(true, other, candidate, row)
        <==> PracticeHitsTheory(other, q, ToConflict(STUDENT, q.student, r, row))
    {
    }
  }
}
