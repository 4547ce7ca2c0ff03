/** Lessons of a driving school, the resources they occupy, and when two of them clash. */
module Timetable {
  import opened Options

  /** A UUID. Their text form is lower-case hexadecimal of fixed width, so text order is number order. */
  type Id = int

  const MINUTE_MS := 60000
  const LESSON_MIN_DURATION_MIN := 15
  const LESSON_MAX_DURATION_MIN := 240

  datatype LessonStatus = SCHEDULED | COMPLETED | CANCELLED

  /** Theory lessons and practice lessons live in two tables; a reference says which. */
  datatype Ref = TheoryLesson(id: Id) | PracticeLesson(id: Id)

  datatype Row =
    | Theory(org: Id, group: Id, start: int, dur: int, status: LessonStatus)
    | Practice(org: Id, instructor: Id, car: Option<Id>, student: Id, start: int, dur: int, status: LessonStatus)
  {
    function End(): int {
      start + dur * MINUTE_MS
    }

    predicate Live() {
      status == SCHEDULED
    }

    predicate LegalDuration() {
      LESSON_MIN_DURATION_MIN <= dur <= LESSON_MAX_DURATION_MIN
    }
  }

  datatype GroupStatus = Planned | Active | Completed | Archived {
    predicate Open() {
      Planned? || Active?
    }
  }

  predicate CanChangeGroup(current: GroupStatus, next: GroupStatus) {
    match current
    case Planned => next.Active? || next.Archived?
    case Active => next.Completed? || next.Archived?
    case Completed => next.Archived?
    case Archived => false
  }

  datatype Group = Group(org: Id, teacher: Id, status: GroupStatus)

  /** The committed rows that scheduling reads. `active` holds the (group, student) pairs enrolled as ACTIVE. */
  datatype Tables = Tables(groups: map<Id, Group>, active: set<(Id, Id)>, lessons: map<Ref, Row>)

  predicate KindMatches(ref: Ref, row: Row) {
    ref.TheoryLesson? <==> row.Theory?
  }

  datatype Slot = Slot(start: int, end: int)

  function SlotOf(row: Row): Slot {
    Slot(row.start, row.End())
  }

  /** Half-open intervals: 10:00-11:00 and 11:00-12:00 do not meet. */
  predicate Overlaps(slot: Slot, row: Row) {
    row.start < slot.end && row.End() > slot.start
  }

  predicate During(start: int, end: int, m: int) {
    start <= m < end
  }

  /** A slot and a lesson meet exactly when some moment belongs to both. */
  lemma OverlapsIff(slot: Slot, row: Row)
    requires slot.start < slot.end && row.start < row.End()
    ensures Overlaps(slot, row) <==> exists m :: During(slot.start, slot.end, m) && During(row.start, row.start + row.dur * 60000, m)
  {
    var later := if slot.start < row.start then row.start else slot.start;
    if Overlaps(slot, row) {
      assert During(slot.start, slot.end, later) && During(row.start, row.End(), later);
    }
  }

  /** Start times the database is asked for, both ends excluded. */
  datatype Window = Window(gt: int, lt: int) {
    predicate Contains(start: int) {
      gt < start < lt
    }
  }

  function CandidateWindow(slot: Slot): Window {
    Window(slot.start - LESSON_MAX_DURATION_MIN * MINUTE_MS, slot.end)
  }

  /**
   * The window may be used in place of a full scan exactly for the lessons that
   * last at most LESSON_MAX_DURATION_MIN minutes.
   */
  lemma WindowIsExactUpToMaxDuration(row: Row)
    ensures (forall slot :: Overlaps(slot, row) ==> CandidateWindow(slot).Contains(row.start))
       <==> row.dur <= LESSON_MAX_DURATION_MIN
  {
    if row.dur > LESSON_MAX_DURATION_MIN {
      var lastMinute := Slot(row.End() - MINUTE_MS, row.End());
      assert Overlaps(lastMinute, row);
      assert !CandidateWindow(lastMinute).Contains(row.start);
    }
  }

  /**
   * Something both lessons need. Groups, instructors, cars and students are written in
   * the rows themselves; with `linked`, also what other tables add: the teacher of a group and the
   * ACTIVE enrollment of a practice student in a theory group.
   */
  ghost predicate ShareResource(linked: bool, db: Tables, a: Row, b: Row) {
    match (a, b)
    case (Theory(_, g, _, _, _), Theory(_, h, _, _, _)) =>
      g == h || (linked && g in db.groups && h in db.groups && db.groups[g].teacher == db.groups[h].teacher)
    case (Practice(_, i, c, s, _, _, _), Practice(_, j, d, t, _, _, _)) =>
      i == j || (c.Some? && c == d) || s == t
    case (Theory(_, g, _, _, _), Practice(_, _, _, s, _, _, _)) =>
      linked && (g, s) in db.active
    case (Practice(_, _, _, s, _, _, _), Theory(_, g, _, _, _)) =>
      linked && (g, s) in db.active
  }

  /** Two SCHEDULED lessons that cannot both take place. */
  ghost predicate Clash(linked: bool, db: Tables, a: Row, b: Row) {
    a.Live() && b.Live() && Overlaps(SlotOf(a), b) && ShareResource(linked, db, a, b)
  }

  /** No two SCHEDULED lessons of the timetable clash. */
  ghost predicate ConflictFree(linked: bool, db: Tables) {
    forall r, q :: r in db.lessons && q in db.lessons && r != q ==> !Clash(linked, db, db.lessons[r], db.lessons[q])
  }

  // ----- The same, moment by moment -----

  ghost predicate TakesPlace(row: Row, m: int) {
    row.status == SCHEDULED && During(row.start, row.start + row.dur * 60000, m)
  }

  /** The two lessons have no group, instructor, car or student of their own rows in common. */
  ghost predicate Apart(a: Row, b: Row) {
    && (a.Theory? && b.Theory? ==> a.group != b.group)
    && (a.Practice? && b.Practice? ==> a.instructor != b.instructor && a.student != b.student && (a.car == b.car ==> a.car == None))
  }

  /** Nor a teacher, nor a student who practises in one and is an ACTIVE member of the group of the other. */
  ghost predicate ApartAcross(db: Tables, a: Row, b: Row) {
    && (a.Theory? && b.Theory? && a.group in db.groups && b.group in db.groups
        ==> db.groups[a.group].teacher != db.groups[b.group].teacher)
    && (a.Theory? && b.Practice? ==> (a.group, b.student) !in db.active)
  }

  /** At no moment do two lessons that take place need the same resource. */
  ghost predicate OneAtATime(linked: bool, db: Tables) {
    forall r, q, m :: r in db.lessons && q in db.lessons && r != q
      && TakesPlace(db.lessons[r], m) && TakesPlace(db.lessons[q], m)
      ==> Apart(db.lessons[r], db.lessons[q]) && (linked ==> ApartAcross(db, db.lessons[r], db.lessons[q]))
  }

  lemma ClashIff(linked: bool, db: Tables, a: Row, b: Row)
    requires a.dur > 0 && b.dur > 0
    ensures (Clash(linked, db, a, b) <==>
             (exists m :: TakesPlace(a, m) && TakesPlace(b, m))
             && !(Apart(a, b) && (linked ==> ApartAcross(db, a, b) && ApartAcross(db, b, a))))
  {
    OverlapsIff(SlotOf(a), b);
    if a.Live() && b.Live() && Overlaps(SlotOf(a), b) {
      var m :| During(a.start, a.End(), m) && During(b.start, b.End(), m);
      assert TakesPlace(a, m) && TakesPlace(b, m);
    }
    if m :| TakesPlace(a, m) && TakesPlace(b, m) {
      assert During(a.start, a.End(), m) && During(b.start, b.End(), m);
    }
  }

  /** Freedom of clashes means just that. */
  lemma ConflictFreeIff(linked: bool, db: Tables)
    requires forall r :: r in db.lessons ==> db.lessons[r].dur > 0
    ensures ConflictFree(linked, db) <==> OneAtATime(linked, db)
  {
    forall r, q | r in db.lessons && q in db.lessons
      ensures Clash(linked, db, db.lessons[r], db.lessons[q]) <==>
              (exists m :: TakesPlace(db.lessons[r], m) && TakesPlace(db.lessons[q], m))
              && !(Apart(db.lessons[r], db.lessons[q])
                   && (linked ==> ApartAcross(db, db.lessons[r], db.lessons[q]) && ApartAcross(db, db.lessons[q], db.lessons[r])))
    {
      ClashIff(linked, db, db.lessons[r], db.lessons[q]);
    }
  }

  /** The resources scheduling takes a lock for, ordered as their text keys are. */
  datatype Key = Car(id: Id) | GroupKey(id: Id) | Instructor(id: Id) | Student(id: Id) | Teacher(id: Id) {
    function Kind(): nat {
      match this
      case Car(_) => 0
      case GroupKey(_) => 1
      case Instructor(_) => 2
      case Student(_) => 3
      case Teacher(_) => 4
    }
  }

  predicate KeyLe(a: Key, b: Key) {
    a.Kind() < b.Kind() || (a.Kind() == b.Kind() && a.id <= b.id)
  }

  predicate KeyLess(a: Key, b: Key) {
    KeyLe(a, b) && a != b
  }
}
