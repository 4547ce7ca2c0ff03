/** What the commit of each request writes, column by column, and that it writes nothing else. */
module SchedulingEffects {
  import opened Options
  import opened Timetable
  import opened SchedulingProtocol
  import opened SchedulingInvariant

  /** The transaction ends, one lesson row is what is given, and everything else is as before. */
  ghost predicate WritesLesson(s: State, s': State, t: Id, r: Ref, row: Row) {
    s' == s.(db := s.db.(lessons := s.db.lessons[r := row]), txs := s.txs - {t})
  }

  /** A column holds what was sent, or what it held before. */
  predicate Column<T(==)>(sent: Option<T>, was: T, becomes: T) {
    match sent
    case Some(value) => becomes == value
    case None => becomes == was
  }

  lemma CreateTheoryWrites(s: State, t: Id, newId: Id, g: Id, start: int, dur: int)
    requires Inv(false, s) && CanCommit(s, t, newId) && s.txs[t].op == CreateTheory(g, start, dur)
    ensures TheoryLesson(newId) !in s.db.lessons
    ensures WritesLesson(s, Committed(s, t, newId), t, TheoryLesson(newId), Theory(s.txs[t].org, g, start, dur, SCHEDULED))
  {
    assert TxOk(false, s, s.txs[t]);
  }

  lemma CreatePracticeWrites(s: State, t: Id, newId: Id, student: Id, i: Id, c: Id, start: int, dur: int)
    requires Inv(false, s) && CanCommit(s, t, newId) && s.txs[t].op == CreatePractice(student, i, c, start, dur)
    ensures PracticeLesson(newId) !in s.db.lessons
    ensures WritesLesson(s, Committed(s, t, newId), t, PracticeLesson(newId),
                         Practice(s.txs[t].org, i, Some(c), student, start, dur, SCHEDULED))
  {
    assert TxOk(false, s, s.txs[t]);
  }

  /** Start and duration are what was sent, else what they were; a change never touches group, school or status. */
  lemma ChangeTheoryWrites(s: State, t: Id, newId: Id, l: Id, newStart: Option<int>, newDur: Option<int>)
    requires Inv(false, s) && CanCommit(s, t, newId) && s.txs[t].op == ChangeTheory(l, newStart, newDur)
    ensures var s', r := Committed(s, t, newId), TheoryLesson(l);
      && r in s.db.lessons && r in s'.db.lessons && WritesLesson(s, s', t, r, s'.db.lessons[r])
      && var before, after := s.db.lessons[r], s'.db.lessons[r];
      && before.Theory? && before.status == SCHEDULED
      && Column(newStart, before.start, after.start) && Column(newDur, before.dur, after.dur)
      && after == Theory(before.org, before.group, after.start, after.dur, SCHEDULED) && after != before
  {
    var tx := s.txs[t];
    assert TxOk(false, s, tx);
    assert tx.pc.candidate == CandidateOf(s, tx);
  }

  /** The same for a practice lesson; one without a car gets the student's as soon as its schedule or people are touched. */
  lemma ChangePracticeWrites(s: State, t: Id, newId: Id, l: Id, newStart: Option<int>, newDur: Option<int>,
                             newInstructor: Option<Id>, newCar: Option<Id>, profileCar: Option<Id>)
    requires Inv(false, s) && CanCommit(s, t, newId)
    requires s.txs[t].op == ChangePractice(l, newStart, newDur, newInstructor, newCar, profileCar)
    ensures var s', r := Committed(s, t, newId), PracticeLesson(l);
      && r in s.db.lessons && r in s'.db.lessons && WritesLesson(s, s', t, r, s'.db.lessons[r])
      && var before, after := s.db.lessons[r], s'.db.lessons[r];
      && before.Practice? && after.Practice? && before.status == SCHEDULED && after.status == SCHEDULED
      && Column(newStart, before.start, after.start) && Column(newDur, before.dur, after.dur)
      && Column(newInstructor, before.instructor, after.instructor)
      && after.org == before.org && after.student == before.student && after.car.Some?
      && (newCar.Some? ==> after.car == newCar)
      && (newCar == None && before.car.Some? ==> after.car == before.car)
      && (newCar == None && before.car == None ==>
            after.car == profileCar && (newStart.Some? || newDur.Some? || newInstructor.Some?))
  {
    var tx := s.txs[t];
    assert TxOk(false, s, tx);
    assert tx.pc.candidate == CandidateOf(s, tx);
  }

  lemma CancelWrites(s: State, t: Id, newId: Id, r: Ref)
    requires Inv(false, s) && CanCommit(s, t, newId)
    requires (r.TheoryLesson? && s.txs[t].op == CancelTheory(r.id)) || (r.PracticeLesson? && s.txs[t].op == CancelPractice(r.id))
    ensures r in s.db.lessons && s.db.lessons[r].status == SCHEDULED && s.txs[t].stamp < s.db.lessons[r].start
    ensures WritesLesson(s, Committed(s, t, newId), t, r, s.db.lessons[r].(status := CANCELLED))
  {
    assert TxOk(false, s, s.txs[t]);
  }

  /** The first mark of a lesson is dated when its request was received; later ones leave that date. */
  lemma MarkWrites(s: State, t: Id, newId: Id, l: Id)
    requires Inv(false, s) && CanCommit(s, t, newId) && s.txs[t].op == MarkAttendance(l)
    ensures TheoryLesson(l) in s.db.lessons && s.db.lessons[TheoryLesson(l)].status != CANCELLED
    ensures s.db.lessons[TheoryLesson(l)].start <= s.txs[t].stamp
    ensures Committed(s, t, newId) == s.(marks := if l in s.marks then s.marks else s.marks[l := s.txs[t].stamp], txs := s.txs - {t})
  {
    assert TxOk(false, s, s.txs[t]);
  }

  lemma EnrollWrites(s: State, t: Id, newId: Id, g: Id, student: Id)
    requires Inv(false, s) && CanCommit(s, t, newId) && s.txs[t].op == Enroll(g, student)
    ensures g in s.db.groups && (s.db.groups[g].status == Planned || s.db.groups[g].status == Active)
    ensures Committed(s, t, newId) == s.(db := s.db.(active := s.db.active + {(g, student)}), txs := s.txs - {t})
  {
    assert TxOk(false, s, s.txs[t]);
  }

  /** The moves a group's status may make. */
  predicate Moves(from: GroupStatus, to: GroupStatus) {
    || (from == Planned && (to == Active || to == Archived))
    || (from == Active && (to == Completed || to == Archived))
    || (from == Completed && to == Archived)
  }

  lemma OpenGroupWrites(s: State, t: Id, newId: Id, g: Id)
    requires Inv(false, s) && CanCommit(s, t, newId) && s.txs[t].op == ChangeGroupStatus(g, Active)
    ensures g in s.db.groups && s.db.groups[g].status == Planned
    ensures Committed(s, t, newId) ==
            s.(db := s.db.(groups := s.db.groups[g := s.db.groups[g].(status := Active)]), txs := s.txs - {t})
  {
    assert TxOk(false, s, s.txs[t]);
  }

  /**
   * Closing ends the group's enrollments, and cancels its lessons that are SCHEDULED from the moment on at which the
   * closing read the clock; it dates the closing with that moment unless the group was closed before.
   */
  lemma CloseWrites(s: State, t: Id, newId: Id, g: Id, next: GroupStatus)
    requires Inv(false, s) && CanCommit(s, t, newId) && s.txs[t].op == ChangeGroupStatus(g, next)
    requires next == Completed || next == Archived
    ensures s.txs[t].pc.Cancelling? && s.txs[t].pc.now <= s.clock && g in s.db.groups && Moves(s.db.groups[g].status, next)
    ensures var s', now := Committed(s, t, newId), s.txs[t].pc.now;
      && s'.db.groups == s.db.groups[g := s.db.groups[g].(status := next)]
      && (forall p :: p in s'.db.active <==> p in s.db.active && p.0 != g)
      && s'.db.lessons.Keys == s.db.lessons.Keys
      && (forall r :: r in s.db.lessons ==>
            s'.db.lessons[r] == if s.db.lessons[r].Theory? && s.db.lessons[r].group == g && s.db.lessons[r].status == SCHEDULED
                                   && s.db.lessons[r].start >= now
                                then Theory(s.db.lessons[r].org, g, s.db.lessons[r].start, s.db.lessons[r].dur, CANCELLED)
                                else s.db.lessons[r])
      && s'.closedAt == (if g in s.closedAt then s.closedAt else s.closedAt[g := now])
      && s'.marks == s.marks && s'.clock == s.clock && s'.owner == s.owner && s'.txs == s.txs - {t}
  {
    assert TxOk(false, s, s.txs[t]);
  }
}
