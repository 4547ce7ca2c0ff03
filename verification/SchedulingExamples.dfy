/** Concrete runs that show why the conditions of the scheduling results are there. */
module SchedulingExamples {
  import opened Options
  import opened Timetable
  import opened SchedulingProtocol
  import opened SchedulingRuns
  import opened SchedulingSafety

  const THEORY := Theory(0, 1, 100, 60, SCHEDULED)
  const PRACTICE := Practice(0, 20, Some(30), 40, 100, 60, SCHEDULED)

  /** One open group with a lesson at time 100, and a practice lesson of student 40 at the same time. */
  ghost function School(clock: int, theory: Row, active: set<(Id, Id)>, marks: map<Id, int>, txs: map<Id, Tx>): State {
    State(clock, Tables(map[1 := Group(0, 10, Active)], active, map[TheoryLesson(1) := theory, PracticeLesson(2) := PRACTICE]),
          _ => 0, marks, map[], txs)
  }

  lemma SchoolIsInitial(s: State)
    requires s == School(99, THEORY, {}, map[], map[])
    ensures Initial(true, s)
  {
  }

  ghost function Requested(s: State, t: Id, op: Op): State {
    WithTx(s, t, Tx(0, s.clock, op, Begun, None, {}))
  }

  // ----- Enrolling -----

  const ENROLL_RUN := [Begin(7, 0, Enroll(1, 40)), LockGroup(7), Validate(7, []), Commit(7, 0)]

  lemma EnrollStepsBegin(s: State) returns (s1: State, s2: State)
    requires s == School(99, THEORY, {}, map[], map[])
    ensures Steps(s, Begin(7, 0, Enroll(1, 40)), s1) && Steps(s1, LockGroup(7), s2)
    ensures s2 == School(99, THEORY, {}, map[], map[7 := Tx(0, 99, Enroll(1, 40), GroupHeld, Some(1), {GroupLock(1)})])
  {
    s1 := Requested(s, 7, Enroll(1, 40));
    s2 := WithTx(s1, 7, GroupLocked(s1, s1.txs[7]));
    assert GroupLocked(s1, s1.txs[7]) == Tx(0, 99, Enroll(1, 40), GroupHeld, Some(1), {GroupLock(1)});
    assert s1.txs[7 := GroupLocked(s1, s1.txs[7])] == map[7 := Tx(0, 99, Enroll(1, 40), GroupHeld, Some(1), {GroupLock(1)})];
  }

  lemma EnrollStepsEnd(s2: State) returns (s3: State, end: State)
    requires s2 == School(99, THEORY, {}, map[], map[7 := Tx(0, 99, Enroll(1, 40), GroupHeld, Some(1), {GroupLock(1)})])
    ensures Steps(s2, Validate(7, []), s3) && Steps(s3, Commit(7, 0), end)
    ensures end.db == School(99, THEORY, {(1, 40)}, map[], map[]).db
  {
    s3 := WithTx(s2, 7, s2.txs[7].(pc := Approved));
    end := Committed(s3, 7, 0);
    assert {} + {(1, 40)} == {(1, 40)};
  }

  lemma EnrollSteps(s: State) returns (end: State)
    requires s == School(99, THEORY, {}, map[], map[])
    ensures Ends(s, ENROLL_RUN, end) && end.db == s.db.(active := {(1, 40)})
  {
    var s1, s2 := EnrollStepsBegin(s);
    var s3: State;
    s3, end := EnrollStepsEnd(s2);
    assert Ends(end, [], end);
    Then(s3, Commit(7, 0), end, [], end);
    Then(s2, Validate(7, []), s3, [Commit(7, 0)], end);
    Then(s1, LockGroup(7), s2, [Validate(7, []), Commit(7, 0)], end);
    Then(s, Begin(7, 0, Enroll(1, 40)), s1, [LockGroup(7), Validate(7, []), Commit(7, 0)], end);
  }

  /** Enrolling student 40 into group 1 makes two lessons clash that did not before. */
  lemma EnrollingCanCauseAClash() returns (s: State)
    ensures Initial(true, s) && Run(s, ENROLL_RUN) && !ConflictFree(true, After(s, ENROLL_RUN).db)
  {
    s := School(99, THEORY, {}, map[], map[]);
    SchoolIsInitial(s);
    var end := EnrollSteps(s);
    assert Clash(true, end.db, end.db.lessons[TheoryLesson(1)], end.db.lessons[PracticeLesson(2)]);
  }

  // ----- Marking attendance against a cancellation or a closing -----

  /** A waiting transaction on theory lesson `l` that nothing stands in the way of. */
  ghost predicate Unhindered(s: State, t: Id, l: Id) {
    && t in s.txs && s.txs[t].pc.Begun? && s.txs[t].group.None? && s.txs[t].held == {}
    && (forall u :: u in s.txs ==> s.txs[u].held == {})
    && TheoryLesson(l) in s.db.lessons && s.db.lessons[TheoryLesson(l)].Theory?
    && var row := s.db.lessons[TheoryLesson(l)];
    && row.org == s.txs[t].org && row.Live()
    && row.group in s.db.groups && s.db.groups[row.group].org == row.org && s.db.groups[row.group].status.Open()
    && (|| (s.txs[t].op == CancelTheory(l) && row.start > s.txs[t].stamp)
        || (s.txs[t].op == MarkAttendance(l) && row.start <= s.txs[t].stamp))
  }

  ghost function RowRun(t: Id): seq<Label> {
    [LockGroup(t), LockLesson(t), Validate(t, []), Commit(t, 0)]
  }

  lemma RowStepsBegin(s: State, t: Id, l: Id, tx1: Tx, tx2: Tx)
    requires Unhindered(s, t, l) && tx1 == GroupLocked(s, s.txs[t]) && tx2 == LessonLocked(tx1)
    ensures Steps(s, LockGroup(t), WithTx(s, t, tx1)) && Steps(WithTx(s, t, tx1), LockLesson(t), WithTx(s, t, tx2))
  {
    assert WithTx(s, t, tx1).txs[t := tx2] == WithTx(s, t, tx2).txs;
  }

  lemma RowSteps(s: State, t: Id, l: Id)
    requires Unhindered(s, t, l)
    ensures Ends(s, RowRun(t), Ended(Written(s, s.txs[t], 0), t))
  {
    var tx1 := GroupLocked(s, s.txs[t]);
    var tx2 := LessonLocked(tx1);
    var s1, s2 := WithTx(s, t, tx1), WithTx(s, t, tx2);
    var end := Ended(Written(s, s.txs[t], 0), t);
    RowStepsEnd(s, t, l, tx1, tx2, tx2.(pc := Approved));
    RowStepsBegin(s, t, l, tx1, tx2);
    Then(s1, LockLesson(t), s2, [Validate(t, []), Commit(t, 0)], end);
    Then(s, LockGroup(t), s1, [LockLesson(t), Validate(t, []), Commit(t, 0)], end);
  }

  lemma RowStepsEnd(s: State, t: Id, l: Id, tx1: Tx, tx2: Tx, tx3: Tx)
    requires Unhindered(s, t, l)
    requires tx1 == GroupLocked(s, s.txs[t]) && tx2 == LessonLocked(tx1) && tx3 == tx2.(pc := Approved)
    ensures Ends(WithTx(s, t, tx2), [Validate(t, []), Commit(t, 0)], Ended(Written(s, s.txs[t], 0), t))
  {
    var s2, s3 := WithTx(s, t, tx2), WithTx(s, t, tx3);
    var end := Ended(Written(s, s.txs[t], 0), t);
    assert s2.txs[t := tx3] == s3.txs && s3.txs - {t} == s.txs - {t};
    assert Steps(s2, Validate(t, []), s3);
    assert Steps(s3, Commit(t, 0), end);
    assert Ends(end, [], end);
    Then(s3, Commit(t, 0), end, [], end);
    Then(s2, Validate(t, []), s3, [Commit(t, 0)], end);
  }

  lemma CancelAfterMark(s: State) returns (s3: State, s4: State, s5: State)
    requires s == School(99, THEORY, {}, map[], map[])
    ensures s3 == Requested(Ticked(Requested(s, 1, CancelTheory(1))), 2, MarkAttendance(1))
    ensures Ends(s3, RowRun(2), s4) && Ends(s4, RowRun(1), s5)
    ensures TheoryLesson(1) in s5.db.lessons && 1 in s5.marks && s5.db.lessons[TheoryLesson(1)].status.CANCELLED?
  {
    s3 := Requested(Ticked(Requested(s, 1, CancelTheory(1))), 2, MarkAttendance(1));
    RowSteps(s3, 2, 1);
    s4 := Ended(Written(s3, s3.txs[2], 0), 2);
    RowSteps(s4, 1, 1);
    s5 := Ended(Written(s4, s4.txs[1], 0), 1);
  }

  lemma RequestsFirst(s: State, labels: seq<Label>, end: State)
    requires s == School(99, THEORY, {}, map[], map[])
    requires Ends(Requested(Ticked(Requested(s, 1, CancelTheory(1))), 2, MarkAttendance(1)), labels, end)
    ensures Ends(s, [Begin(1, 0, CancelTheory(1))] + ([Tick] + ([Begin(2, 0, MarkAttendance(1))] + labels)), end)
  {
    var s1 := Requested(s, 1, CancelTheory(1));
    var s3 := Requested(Ticked(s1), 2, MarkAttendance(1));
    Then(Ticked(s1), Begin(2, 0, MarkAttendance(1)), s3, labels, end);
    Then(s1, Tick, Ticked(s1), [Begin(2, 0, MarkAttendance(1))] + labels, end);
    Then(s, Begin(1, 0, CancelTheory(1)), s1, [Tick] + ([Begin(2, 0, MarkAttendance(1))] + labels), end);
  }

  /** Interleaved, a lesson can be cancelled after its attendance was marked: the request came before the lesson began. */
  lemma MarkedLessonCanBeCancelled() returns (s: State, labels: seq<Label>, end: State)
    ensures Initial(true, s) && Ends(s, labels, end)
    ensures TheoryLesson(1) in end.db.lessons && 1 in end.marks && end.db.lessons[TheoryLesson(1)].status.CANCELLED?
  {
    s := School(99, THEORY, {}, map[], map[]);
    SchoolIsInitial(s);
    var s3, s4, s5 := CancelAfterMark(s);
    Concatenated(s3, RowRun(2), s4, RowRun(1), s5);
    RequestsFirst(s, RowRun(2) + RowRun(1), s5);
    end := s5;
    labels := [Begin(1, 0, CancelTheory(1))] + ([Tick] + ([Begin(2, 0, MarkAttendance(1))] + (RowRun(2) + RowRun(1))));
  }
}
