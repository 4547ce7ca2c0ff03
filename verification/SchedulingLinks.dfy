/**
 * Enrolling a student and replacing a teacher link lessons that were scheduled independently, and look at no
 * timetable. Here is exactly when they leave the cross-table invariant intact.
 */
module SchedulingLinks {
  import opened Timetable
  import opened SchedulingProtocol
  import opened SchedulingInvariant
  import opened SchedulingCommits

  ghost predicate TheoryOf(row: Row, g: Id) {
    row.Theory? && row.Live() && row.group == g
  }

  ghost predicate PracticeOf(row: Row, student: Id) {
    row.Practice? && row.Live() && row.student == student
  }

  ghost predicate TaughtElsewhere(s: State, row: Row, g: Id, teacher: Id) {
    row.Theory? && row.Live() && row.group != g && row.group in s.db.groups && s.db.groups[row.group].teacher == teacher
  }

  predicate LockPlanned(tx: Tx, k: Key) {
    KeyLock(k) in tx.held || (tx.pc.Locking? && k in tx.pc.todo)
  }

  // ----- From the plain invariant to the cross-table one -----

  /** What the cross-table invariant adds for one transaction. */
  ghost predicate LinkedCandidateOk(s: State, tx: Tx) {
    tx.pc.HasCandidate() ==>
      var c := tx.pc.candidate;
      && (forall k :: Needs(true, s.db, c, k) ==> LockPlanned(tx, k))
      && (tx.pc.HalfSearched? || tx.pc.Clear? ==> ClearOf(true, s, tx, c, true))
      && (tx.pc.Clear? ==> ClearOf(true, s, tx, c, false))
  }

  lemma LinkedTxIffParts(s: State, tx: Tx)
    ensures TxOk(true, s, tx) <==> TxOk(false, s, tx) && LinkedCandidateOk(s, tx)
  {
  }

  ghost predicate Linked(s: State) {
    ConflictFree(true, s.db) && forall t :: t in s.txs ==> LinkedCandidateOk(s, s.txs[t])
  }

  lemma LinkedInvIffParts(s: State)
    ensures Inv(true, s) <==> Inv(false, s) && Linked(s)
  {
    forall t | t in s.txs
      ensures TxOk(true, s, s.txs[t]) <==> TxOk(false, s, s.txs[t]) && LinkedCandidateOk(s, s.txs[t])
    {
      LinkedTxIffParts(s, s.txs[t]);
    }
  }

  // ----- Enrolling -----

  /** The practice of the student and the theory of the group leave each other alone. */
  ghost predicate RowsFit(s: State, g: Id, student: Id) {
    forall r, q :: r in s.db.lessons && q in s.db.lessons
      && TheoryOf(s.db.lessons[r], g) && PracticeOf(s.db.lessons[q], student)
      ==> !Overlaps(SlotOf(s.db.lessons[r]), s.db.lessons[q])
  }

  /**
   * A lesson of the student that is being scheduled holds the group's key or is still to lock it, and no lesson of the
   * student or the group has been searched for in vain that the enrollment would have shown.
   */
  ghost predicate CandidateFits(s: State, tx: Tx, g: Id, student: Id) {
    tx.pc.HasCandidate() ==>
      var c := tx.pc.candidate;
      && (PracticeOf(c, student) ==> LockPlanned(tx, GroupKey(g)))
      && (tx.pc.Clear? && PracticeOf(c, student) ==>
            forall r :: r in s.db.lessons && TheoryOf(s.db.lessons[r], g) ==> !Overlaps(SlotOf(c), s.db.lessons[r]))
      && (tx.pc.Clear? && TheoryOf(c, g) ==>
            forall r :: r in s.db.lessons && PracticeOf(s.db.lessons[r], student) ==> !Overlaps(SlotOf(c), s.db.lessons[r]))
  }

  ghost predicate EnrollFits(s: State, t: Id, g: Id, student: Id) {
    RowsFit(s, g, student) && forall u :: u in s.txs && u != t ==> CandidateFits(s, s.txs[u], g, student)
  }

  lemma EnrollKeepsRowsIff(s: State, g: Id, student: Id)
    requires ConflictFree(true, s.db)
    ensures ConflictFree(true, s.db.(active := s.db.active + {(g, student)})) <==> RowsFit(s, g, student)
  {
    var db' := s.db.(active := s.db.active + {(g, student)});
    if r, q :| r in s.db.lessons && q in s.db.lessons && TheoryOf(s.db.lessons[r], g)
               && PracticeOf(s.db.lessons[q], student) && Overlaps(SlotOf(s.db.lessons[r]), s.db.lessons[q]) {
      assert Clash(true, db', db'.lessons[r], db'.lessons[q]);
    } else {
      forall r, q | r in db'.lessons && q in db'.lessons && r != q
        ensures !Clash(true, db', db'.lessons[r], db'.lessons[q])
      {
        assert !Clash(true, s.db, s.db.lessons[r], s.db.lessons[q]);
      }
    }
  }

  lemma EnrollKeepsCandidateIff(s: State, s': State, tx: Tx, g: Id, student: Id)
    requires RowsOk(s) && TxOk(true, s, tx)
    requires s'.db == s.db.(active := s.db.active + {(g, student)})
    ensures LinkedCandidateOk(s', tx) <==> CandidateFits(s, tx, g, student)
  {
    if tx.pc.HasCandidate() {
      var c := tx.pc.candidate;
      assert c.Live();
      EnrollKeepsNeedsIff(s, s', tx, c, g, student);
      EnrollKeepsOwnKind(s, s', tx, c, g, student);
      if tx.pc.Clear? {
        EnrollKeepsOtherKindIff(s, s', tx, c, g, student);
      }
    }
  }

  lemma EnrollKeepsNeedsIff(s: State, s': State, tx: Tx, c: Row, g: Id, student: Id)
    requires s'.db == s.db.(active := s.db.active + {(g, student)}) && c.Live()
    requires forall k :: Needs(true, s.db, c, k) ==> LockPlanned(tx, k)
    ensures (forall k :: Needs(true, s'.db, c, k) ==> LockPlanned(tx, k))
            <==> (PracticeOf(c, student) ==> LockPlanned(tx, GroupKey(g)))
  {
    if PracticeOf(c, student) {
      assert Needs(true, s'.db, c, GroupKey(g));
    }
  }

  lemma EnrollKeepsOwnKind(s: State, s': State, tx: Tx, c: Row, g: Id, student: Id)
    requires RowsOk(s) && s'.db == s.db.(active := s.db.active + {(g, student)})
    ensures ClearOf(true, s, tx, c, true) <==> ClearOf(true, s', tx, c, true)
  {
  }

  lemma EnrollKeepsOtherKindIff(s: State, s': State, tx: Tx, c: Row, g: Id, student: Id)
    requires RowsOk(s) && s'.db == s.db.(active := s.db.active + {(g, student)}) && c.Live()
    requires ClearOf(true, s, tx, c, false) && (Self(tx.op).Some? ==> KindMatches(Self(tx.op).value, c))
    ensures ClearOf(true, s', tx, c, false) <==>
            && (PracticeOf(c, student) ==>
                  forall r :: r in s.db.lessons && TheoryOf(s.db.lessons[r], g) ==> !Overlaps(SlotOf(c), s.db.lessons[r]))
            && (TheoryOf(c, g) ==>
                  forall r :: r in s.db.lessons && PracticeOf(s.db.lessons[r], student) ==> !Overlaps(SlotOf(c), s.db.lessons[r]))
  {
  }

  lemma EnrolledIsLinkedIff(s: State, t: Id, s': State, g: Id, student: Id)
    requires RowsOk(s) && ConflictFree(true, s.db) && forall u :: u in s.txs ==> TxOk(true, s, s.txs[u])
    requires s'.db == s.db.(active := s.db.active + {(g, student)}) && s'.txs == s.txs - {t}
    ensures Linked(s') <==> EnrollFits(s, t, g, student)
  {
    EnrollKeepsRowsIff(s, g, student);
    forall u | u in s'.txs
      ensures u in s.txs && u != t && s'.txs[u] == s.txs[u]
      ensures LinkedCandidateOk(s', s'.txs[u]) <==> CandidateFits(s, s.txs[u], g, student)
    {
      EnrollKeepsCandidateIff(s, s', s.txs[u], g, student);
    }
    assert forall u :: u in s.txs && u != t ==> u in s'.txs;
  }

  /** An enrollment keeps the cross-table invariant exactly when the rows and every lesson being scheduled allow it. */
  lemma EnrollKeepsLinksIff(s: State, t: Id, newId: Id)
    requires Inv(true, s) && CanCommit(s, t, newId) && s.txs[t].op.Enroll?
    ensures Inv(true, Committed(s, t, newId)) <==> EnrollFits(s, t, s.txs[t].op.group, s.txs[t].op.student)
  {
    var s' := Committed(s, t, newId);
    EnrolledIsLinkedIff(s, t, s', s.txs[t].op.group, s.txs[t].op.student);
    LinkedInvIffParts(s);
    EnrollCommitKeeps(s, t, newId);
    LinkedInvIffParts(s');
  }

  // ----- Replacing a teacher -----

  /** The lessons of the group and those of the new teacher's other groups leave each other alone. */
  ghost predicate TeachingFits(s: State, g: Id, teacher: Id) {
    forall r, q :: r in s.db.lessons && q in s.db.lessons
      && TheoryOf(s.db.lessons[r], g) && TaughtElsewhere(s, s.db.lessons[q], g, teacher)
      ==> !Overlaps(SlotOf(s.db.lessons[r]), s.db.lessons[q])
  }

  /** No lesson being scheduled for another group of the new teacher has been searched for without seeing this group. */
  ghost predicate LessonFits(s: State, tx: Tx, g: Id, teacher: Id) {
    tx.pc.HalfSearched? || tx.pc.Clear? ==>
      (TaughtElsewhere(s, tx.pc.candidate, g, teacher) ==>
         forall r :: r in s.db.lessons && TheoryOf(s.db.lessons[r], g) ==> !Overlaps(SlotOf(tx.pc.candidate), s.db.lessons[r]))
  }

  ghost predicate TeacherFits(s: State, g: Id, teacher: Id) {
    TeachingFits(s, g, teacher) && forall u :: u in s.txs ==> LessonFits(s, s.txs[u], g, teacher)
  }

  lemma TeacherKeepsRowsIff(s: State, g: Id, teacher: Id)
    requires ConflictFree(true, s.db) && g in s.db.groups
    ensures ConflictFree(true, WithTeacher(s, g, teacher).db) <==> TeachingFits(s, g, teacher)
  {
    var db' := WithTeacher(s, g, teacher).db;
    if r, q :| r in s.db.lessons && q in s.db.lessons && TheoryOf(s.db.lessons[r], g)
               && TaughtElsewhere(s, s.db.lessons[q], g, teacher) && Overlaps(SlotOf(s.db.lessons[r]), s.db.lessons[q]) {
      assert Clash(true, db', db'.lessons[r], db'.lessons[q]);
    } else {
      forall r, q | r in db'.lessons && q in db'.lessons && r != q
        ensures !Clash(true, db', db'.lessons[r], db'.lessons[q])
      {
        assert !Clash(true, s.db, s.db.lessons[r], s.db.lessons[q]);
      }
    }
  }

  lemma TeacherKeepsOwnKindIff(s: State, tx: Tx, c: Row, g: Id, teacher: Id)
    requires RowsOk(s) && g in s.db.groups && c.Live() && !TheoryOf(c, g)
    requires ClearOf(true, s, tx, c, true)
    requires Self(tx.op).Some? && Self(tx.op).value in s.db.lessons ==> !TheoryOf(s.db.lessons[Self(tx.op).value], g)
    ensures ClearOf(true, WithTeacher(s, g, teacher), tx, c, true) <==>
            (TaughtElsewhere(s, c, g, teacher) ==>
               forall r :: r in s.db.lessons && TheoryOf(s.db.lessons[r], g) ==> !Overlaps(SlotOf(c), s.db.lessons[r]))
  {
    var s' := WithTeacher(s, g, teacher);
    if TaughtElsewhere(s, c, g, teacher) {
      if r :| r in s.db.lessons && TheoryOf(s.db.lessons[r], g) && Overlaps(SlotOf(c), s.db.lessons[r]) {
        assert Clash(true, s'.db, c, s'.db.lessons[r]) && KindMatches(r, c);
      }
    }
  }

  lemma TeacherKeepsCandidateIff(s: State, tx: Tx, g: Id, teacher: Id)
    requires RowsOk(s) && TxOk(true, s, tx) && g in s.db.groups && GroupLock(g) !in tx.held
    ensures LinkedCandidateOk(WithTeacher(s, g, teacher), tx) <==> LessonFits(s, tx, g, teacher)
  {
    var s' := WithTeacher(s, g, teacher);
    if tx.pc.HasCandidate() {
      var c := tx.pc.candidate;
      assert c.Live() && !TheoryOf(c, g);
      assert forall k :: Needs(true, s'.db, c, k) ==> Needs(true, s.db, c, k);
      assert ClearOf(true, s, tx, c, false) <==> ClearOf(true, s', tx, c, false);
      if !tx.pc.Locking? {
        TeacherKeepsOwnKindIff(s, tx, c, g, teacher);
      }
    }
  }

  lemma RetaughtIsLinkedIff(s: State, g: Id, teacher: Id)
    requires RowsOk(s) && ConflictFree(true, s.db) && g in s.db.groups
    requires forall u :: u in s.txs ==> TxOk(true, s, s.txs[u]) && GroupLock(g) !in s.txs[u].held
    ensures Linked(WithTeacher(s, g, teacher)) <==> TeacherFits(s, g, teacher)
  {
    TeacherKeepsRowsIff(s, g, teacher);
    forall u | u in s.txs
      ensures LinkedCandidateOk(WithTeacher(s, g, teacher), s.txs[u]) <==> LessonFits(s, s.txs[u], g, teacher)
    {
      TeacherKeepsCandidateIff(s, s.txs[u], g, teacher);
    }
  }

  /** So does a change of teacher. */
  lemma SetTeacherKeepsLinksIff(s: State, g: Id, teacher: Id)
    requires Inv(true, s) && CanSetTeacher(s, g, teacher)
    ensures Inv(true, WithTeacher(s, g, teacher)) <==> TeacherFits(s, g, teacher)
  {
    RetaughtIsLinkedIff(s, g, teacher);
    LinkedInvIffParts(s);
    SetTeacherKeeps(s, g, teacher);
    LinkedInvIffParts(WithTeacher(s, g, teacher));
  }

  /** The guard of a step that may link lessons; every other step passes. */
  ghost predicate LinkFits(s: State, l: Label) {
    && (l.SetTeacher? ==> TeacherFits(s, l.group, l.teacher))
    && (l.Commit? && l.t in s.txs && s.txs[l.t].op.Enroll? ==>
          EnrollFits(s, l.t, s.txs[l.t].op.group, s.txs[l.t].op.student))
  }
}
