/** Concrete runs in which a link between lessons comes about without either side noticing. */
module SchedulingRaces {
  import opened Options
  import opened Timetable
  import opened ScheduleLock
  import opened SchedulingProtocol
  import opened SchedulingRuns
  import opened SchedulingLinks
  import opened SchedulingSafety
  import opened SchedulingExamples

  // ----- Replacing a teacher -----

  /** Two groups with a lesson each at time 100, taught by different teachers. */
  ghost function TwoGroups(): State {
    State(99, Tables(map[1 := Group(0, 10, Active), 2 := Group(0, 11, Active)], {},
                     map[TheoryLesson(1) := THEORY, TheoryLesson(2) := Theory(0, 2, 100, 60, SCHEDULED)]),
          _ => 0, map[], map[], map[])
  }

  /** Giving the second group the first one's teacher makes the two lessons clash. */
  lemma ReplacingATeacherCanCauseAClash() returns (end: State)
    ensures Initial(true, TwoGroups()) && Steps(TwoGroups(), SetTeacher(2, 10), end)
    ensures !ConflictFree(true, end.db)
  {
    end := WithTeacher(TwoGroups(), 2, 10);
    assert Clash(true, end.db, end.db.lessons[TheoryLesson(1)], end.db.lessons[TheoryLesson(2)]);
  }

  // ----- Enrolling while a practice lesson is being scheduled -----

  /** One open group with a lesson at time 100. */
  ghost function OneGroup(active: set<(Id, Id)>, txs: map<Id, Tx>): State {
    State(99, Tables(map[1 := Group(0, 10, Active)], active, map[TheoryLesson(1) := THEORY]), _ => 0, map[], map[], txs)
  }

  const BOOKING := CreatePractice(40, 20, 30, 100, 60)
  const ALL_KEYS: set<Lock> := {KeyLock(Car(30)), KeyLock(Instructor(20)), KeyLock(Student(40))}

  /** The booking of student 40 at a point of its transaction. */
  function Booking(pc: Pc, held: set<Lock>): Tx {
    Tx(0, 99, BOOKING, pc, None, held)
  }

  /** The state in which the booking is the only transaction. */
  ghost function Booked(pc: Pc, held: set<Lock>): State {
    OneGroup({}, map[1 := Booking(pc, held)])
  }

  lemma BookingLocksInOrder()
    ensures LockOrder([Instructor(20), Car(30), Student(40)]) == [Car(30), Instructor(20), Student(40)]
  {
    var asked, sorted := [Instructor(20), Car(30), Student(40)], [Car(30), Instructor(20), Student(40)];
    LockOrderIsStrict(asked);
    assert asked[0] in sorted && asked[1] in sorted && asked[2] in sorted;
    assert sorted[0] in asked && sorted[1] in asked && sorted[2] in asked;
    StrictOrderIsUnique(LockOrder(asked), sorted);
  }

  lemma BookingBegins()
    ensures Steps(OneGroup({}, map[]), Begin(1, 0, BOOKING), Booked(Begun, {}))
  {
  }

  lemma BookingIsChecked()
    ensures Steps(Booked(Begun, {}), Validate(1, []), Booked(Locking([Car(30), Instructor(20), Student(40)], PRACTICE), {}))
  {
    BookingLocksInOrder();
    assert KeysFor(Booked(Begun, {}), PRACTICE, []) == [Instructor(20), Car(30), Student(40)];
  }

  lemma BookingTakes(k: Key, rest: seq<Key>, held: set<Lock>)
    ensures Steps(Booked(Locking([k] + rest, PRACTICE), held), LockNextKey(1), Booked(Locking(rest, PRACTICE), held + {KeyLock(k)}))
  {
    assert ([k] + rest)[1..] == rest;
  }

  lemma BookingSearches(held: set<Lock>)
    ensures Steps(Booked(Locking([], PRACTICE), held), SearchOwnKind(1), Booked(HalfSearched(PRACTICE), held))
    ensures Steps(Booked(HalfSearched(PRACTICE), held), SearchOtherKind(1), Booked(Clear(PRACTICE), held))
  {
  }

  lemma BookingIsClear()
    ensures Leads(OneGroup({}, map[]), Booked(Clear(PRACTICE), ALL_KEYS))
  {
    var s0, s1 := OneGroup({}, map[]), Booked(Begun, {});
    var s2 := Booked(Locking([Car(30), Instructor(20), Student(40)], PRACTICE), {});
    var s3 := Booked(Locking([Instructor(20), Student(40)], PRACTICE), {} + {KeyLock(Car(30))});
    var s4 := Booked(Locking([Student(40)], PRACTICE), {} + {KeyLock(Car(30))} + {KeyLock(Instructor(20))});
    var s5 := Booked(Locking([], PRACTICE), ALL_KEYS);
    var s6, s7 := Booked(HalfSearched(PRACTICE), ALL_KEYS), Booked(Clear(PRACTICE), ALL_KEYS);
    BookingBegins();
    BookingIsChecked();
    assert [Car(30)] + [Instructor(20), Student(40)] == [Car(30), Instructor(20), Student(40)];
    BookingTakes(Car(30), [Instructor(20), Student(40)], {});
    assert [Instructor(20)] + [Student(40)] == [Instructor(20), Student(40)];
    BookingTakes(Instructor(20), [Student(40)], {} + {KeyLock(Car(30))});
    assert [Student(40)] + [] == [Student(40)];
    BookingTakes(Student(40), [], {} + {KeyLock(Car(30))} + {KeyLock(Instructor(20))});
    assert {} + {KeyLock(Car(30))} + {KeyLock(Instructor(20))} + {KeyLock(Student(40))} == ALL_KEYS;
    BookingSearches(ALL_KEYS);
    LeadsNowhere(s7);
    LeadsOn(s6, SearchOtherKind(1), s7, s7);
    LeadsOn(s5, SearchOwnKind(1), s6, s7);
    LeadsOn(s4, LockNextKey(1), s5, s7);
    LeadsOn(s3, LockNextKey(1), s4, s7);
    LeadsOn(s2, LockNextKey(1), s3, s7);
    LeadsOn(s1, Validate(1, []), s2, s7);
    LeadsOn(s0, Begin(1, 0, BOOKING), s1, s7);
  }

  function Enrolling(pc: Pc, group: Option<Id>, held: set<Lock>): Tx {
    Tx(0, 99, Enroll(1, 40), pc, group, held)
  }

  /** The booking is past its search, and the enrollment stands at some point of its own transaction. */
  ghost function Both(tx: Tx): State {
    OneGroup({}, map[1 := Booking(Clear(PRACTICE), ALL_KEYS), 7 := tx])
  }

  lemma EnrollmentBegins()
    ensures Steps(Booked(Clear(PRACTICE), ALL_KEYS), Begin(7, 0, Enroll(1, 40)), Both(Enrolling(Begun, None, {})))
  {
    assert Booked(Clear(PRACTICE), ALL_KEYS).txs[7 := Enrolling(Begun, None, {})] == Both(Enrolling(Begun, None, {})).txs;
  }

  lemma EnrollmentLocks()
    ensures Steps(Both(Enrolling(Begun, None, {})), LockGroup(7), Both(Enrolling(GroupHeld, Some(1), {GroupLock(1)})))
  {
    var s := Both(Enrolling(Begun, None, {}));
    assert GroupLocked(s, s.txs[7]) == Enrolling(GroupHeld, Some(1), {GroupLock(1)});
    assert s.txs[7 := Enrolling(GroupHeld, Some(1), {GroupLock(1)})]
        == Both(Enrolling(GroupHeld, Some(1), {GroupLock(1)})).txs;
  }

  lemma EnrollmentIsApproved()
    ensures Steps(Both(Enrolling(GroupHeld, Some(1), {GroupLock(1)})), Validate(7, []),
                  Both(Enrolling(Approved, Some(1), {GroupLock(1)})))
  {
    var s := Both(Enrolling(GroupHeld, Some(1), {GroupLock(1)}));
    assert s.txs[7 := Enrolling(Approved, Some(1), {GroupLock(1)})]
        == Both(Enrolling(Approved, Some(1), {GroupLock(1)})).txs;
  }

  lemma EnrollmentIsReady() returns (s: State)
    ensures s == Both(Enrolling(Approved, Some(1), {GroupLock(1)})) && Leads(OneGroup({}, map[]), s)
  {
    var s0, s1 := Booked(Clear(PRACTICE), ALL_KEYS), Both(Enrolling(Begun, None, {}));
    var s2 := Both(Enrolling(GroupHeld, Some(1), {GroupLock(1)}));
    s := Both(Enrolling(Approved, Some(1), {GroupLock(1)}));
    BookingIsClear();
    EnrollmentBegins();
    EnrollmentLocks();
    EnrollmentIsApproved();
    LeadsNowhere(s);
    LeadsOn(s2, Validate(7, []), s, s);
    LeadsOn(s1, LockGroup(7), s2, s);
    LeadsOn(s0, Begin(7, 0, Enroll(1, 40)), s1, s);
    LeadsThrough(OneGroup({}, map[]), s0, s);
  }

  lemma EnrollmentCommits()
    ensures Steps(Both(Enrolling(Approved, Some(1), {GroupLock(1)})), Commit(7, 0),
                  OneGroup({(1, 40)}, map[1 := Booking(Clear(PRACTICE), ALL_KEYS)]))
  {
    var s := Both(Enrolling(Approved, Some(1), {GroupLock(1)}));
    assert s.txs - {7} == map[1 := Booking(Clear(PRACTICE), ALL_KEYS)];
    assert {} + {(1, 40)} == {(1, 40)};
  }

  lemma EnrollmentFitsTheRowsOnly()
    ensures var before := Both(Enrolling(Approved, Some(1), {GroupLock(1)}));
      RowsFit(before, 1, 40) && !EnrollFits(before, 7, 1, 40)
  {
    var before := Both(Enrolling(Approved, Some(1), {GroupLock(1)}));
    assert !LockPlanned(before.txs[1], GroupKey(1));
    assert !CandidateFits(before, before.txs[1], 1, 40);
  }

  lemma BookingCommits() returns (end: State)
    ensures Steps(OneGroup({(1, 40)}, map[1 := Booking(Clear(PRACTICE), ALL_KEYS)]), Commit(1, 2), end)
    ensures !ConflictFree(true, end.db)
  {
    end := Committed(OneGroup({(1, 40)}, map[1 := Booking(Clear(PRACTICE), ALL_KEYS)]), 1, 2);
    assert end.db.lessons[PracticeLesson(2)] == PRACTICE && end.db.lessons[TheoryLesson(1)] == THEORY;
    assert Clash(true, end.db, end.db.lessons[TheoryLesson(1)], end.db.lessons[PracticeLesson(2)]);
  }

  lemma OneGroupIsClear(active: set<(Id, Id)>, txs: map<Id, Tx>)
    ensures ConflictFree(true, OneGroup(active, txs).db)
    ensures Initial(true, OneGroup({}, map[]))
  {
  }

  /**
   * A practice lesson is past its search when its student is enrolled. The committed rows fit before and after the
   * enrollment; only the lesson being scheduled, which does not hold the group's key, does not. Then it commits.
   */
  lemma EnrollingPastASearchCausesAClash() returns (before: State, enrolled: State, end: State)
    ensures Initial(true, OneGroup({}, map[])) && Leads(OneGroup({}, map[]), before)
    ensures Steps(before, Commit(7, 0), enrolled) && RowsFit(before, 1, 40) && !EnrollFits(before, 7, 1, 40)
    ensures ConflictFree(true, enrolled.db) && Steps(enrolled, Commit(1, 2), end)
    ensures !ConflictFree(true, end.db)
  {
    before := EnrollmentIsReady();
    enrolled := OneGroup({(1, 40)}, map[1 := Booking(Clear(PRACTICE), ALL_KEYS)]);
    OneGroupIsClear({(1, 40)}, enrolled.txs);
    EnrollmentFitsTheRowsOnly();
    EnrollmentCommits();
    end := BookingCommits();
  }
}
