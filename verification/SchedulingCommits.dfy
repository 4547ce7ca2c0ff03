/** Every commit, and every step of the surrounding services, keeps the scheduling invariant. */
module SchedulingCommits {
  import opened Options
  import opened Timetable
  import opened SchedulingProtocol
  import opened SchedulingInvariant

  lemma ClashIsSymmetric(linked: bool, db: Tables, a: Row, b: Row)
    requires Clash(linked, db, a, b)
    ensures Clash(linked, db, b, a)
  {
  }

  // ----- Writing one lesson row -----

  /** What a transaction may do to a lesson row: it holds the row or inserts it, under the group of a theory lesson. */
  ghost predicate MayWrite(s: State, tx: Tx, r: Ref, row: Row) {
    && KindMatches(r, row) && row.LegalDuration() && Owned(s, row)
    && (row.Theory? ==> tx.group == Some(row.group) && GroupLock(row.group) in tx.held && !tx.op.ChangeGroupStatus?)
    && (r in s.db.lessons ==>
          && LessonLock(r) in tx.held && KindMatches(r, s.db.lessons[r]) && row.org == s.db.lessons[r].org
          && (row.Theory? ==> SameGroup(row, s.db.lessons[r])))
  }

  ghost predicate SameGroup(a: Row, b: Row) {
    a.Theory? && b.Theory? && a.group == b.group
  }

  ghost predicate KeysHeld(linked: bool, s: State, tx: Tx, row: Row) {
    forall k :: Needs(linked, s.db, row, k) ==> KeyLock(k) in tx.held
  }

  /** The rely step: whatever another transaction has established survives the write. */
  lemma WriteKeepsOther(linked: bool, s: State, t: Id, u: Id, r: Ref, row: Row)
    requires Inv(linked, s) && t in s.txs && u in s.txs && u != t
    requires MayWrite(s, s.txs[t], r, row)
    requires row.Live() ==> KeysHeld(linked, s, s.txs[t], row)
    ensures TxOk(linked, WithLesson(s, r, row), s.txs[u])
  {
    var s' := WithLesson(s, r, row);
    var tx := s.txs[u];
    assert TxOk(linked, s, tx);
    if r in s.db.lessons {
      HeldAlone(s, t, u, LessonLock(r));
    }
    if row.Theory? && tx.op.ChangeGroupStatus? {
      HeldAlone(s, t, u, GroupLock(row.group));
    }
    assert !(tx.pc.PastLessonLock() && LessonOf(tx.op) == Some(r));
    assert TargetOk(s', tx);
    WriteKeepsChecks(s, r, row, tx);
    if tx.pc.HasCandidate() {
      WriteKeepsCandidate(linked, s, t, u, r, row);
    }
  }

  lemma WriteKeepsChecks(s: State, r: Ref, row: Row, tx: Tx)
    requires CheckedOk(s, tx) && TargetOk(s, tx) && HeldOk(tx)
    requires !(tx.pc.PastLessonLock() && LessonOf(tx.op) == Some(r))
    requires tx.op.ChangeGroupStatus? && row.Theory? ==> tx.group != Some(row.group)
    requires r in s.db.lessons ==> KindMatches(r, row) && KindMatches(r, s.db.lessons[r])
    requires r in s.db.lessons && row.Theory? ==> SameGroup(row, s.db.lessons[r])
    ensures CheckedOk(WithLesson(s, r, row), tx)
  {
  }

  lemma WriteKeepsCandidate(linked: bool, s: State, t: Id, u: Id, r: Ref, row: Row)
    requires Exclusion(s) && t in s.txs && u in s.txs && u != t
    requires CandidateOk(linked, s, s.txs[u]) && s.txs[u].pc.HasCandidate()
    requires LessonOf(s.txs[u].op) != Some(r)
    requires row.Live() ==> KeysHeld(linked, s, s.txs[t], row)
    ensures CandidateOk(linked, WithLesson(s, r, row), s.txs[u])
  {
    var tx := s.txs[u];
    var s' := WithLesson(s, r, row);
    var c := tx.pc.candidate;
    assert CandidateOf(s', tx) == CandidateOf(s, tx);
    if !tx.pc.Locking? && Clash(linked, s.db, c, row) {
      var k := ClashNeedsCommonKey(linked, s.db, c, row);
      HeldAlone(s, t, u, KeyLock(k));
    }
  }

  lemma WriteKeepsWorld(linked: bool, s: State, tx: Tx, r: Ref, row: Row)
    requires WorldOk(linked, s) && MayWrite(s, tx, r, row)
    requires r.TheoryLesson? && r.id in s.marks && r in s.db.lessons ==> row.start == s.db.lessons[r].start
    requires row.Theory? && row.Live() ==> row.group !in s.closedAt
    requires forall q :: q in s.db.lessons && q != r ==> !Clash(linked, s.db, row, s.db.lessons[q])
    ensures WorldOk(linked, WithLesson(s, r, row))
  {
    var s' := WithLesson(s, r, row);
    forall p, q | p in s'.db.lessons && q in s'.db.lessons && p != q
      ensures !Clash(linked, s'.db, s'.db.lessons[p], s'.db.lessons[q])
    {
      if q == r && Clash(linked, s'.db, s'.db.lessons[p], row) {
        ClashIsSymmetric(linked, s'.db, s'.db.lessons[p], row);
      }
    }
    assert RowsOk(s') && LinksOk(s') && MarksOk(s') && ClosedOk(s');
  }

  lemma WriteKeeps(linked: bool, s: State, t: Id, r: Ref, row: Row)
    requires Inv(linked, s) && t in s.txs && MayWrite(s, s.txs[t], r, row)
    requires row.Live() ==> KeysHeld(linked, s, s.txs[t], row)
    requires r.TheoryLesson? && r.id in s.marks && r in s.db.lessons ==> row.start == s.db.lessons[r].start
    requires row.Theory? && row.Live() ==> row.group !in s.closedAt
    requires forall q :: q in s.db.lessons && q != r ==> !Clash(linked, s.db, row, s.db.lessons[q])
    ensures Inv(linked, Ended(WithLesson(s, r, row), t))
  {
    var written := WithLesson(s, r, row);
    var s' := Ended(written, t);
    WriteKeepsWorld(linked, s, s.txs[t], r, row);
    WorldIgnoresTxs(linked, written, s');
    forall u | u in s'.txs
      ensures TxOk(linked, s', s'.txs[u])
    {
      WriteKeepsOther(linked, s, t, u, r, row);
      TxOkIgnoresTxs(linked, written, s', s.txs[u]);
    }
  }

  lemma SlotCommitKeeps(linked: bool, s: State, t: Id, newId: Id)
    requires Inv(linked, s) && CanCommit(s, t, newId) && NeedsSlot(s.txs[t].op)
    ensures Inv(linked, Committed(s, t, newId))
  {
    var tx := s.txs[t];
    assert TxOk(linked, s, tx);
    var c := tx.pc.candidate;
    var r := if tx.op.CreateTheory? then TheoryLesson(newId) else if tx.op.CreatePractice? then PracticeLesson(newId)
             else LessonOf(tx.op).value;
    assert Committed(s, t, newId) == Ended(WithLesson(s, r, c), t);
    assert MayWrite(s, tx, r, c);
    forall q | q in s.db.lessons && q != r
      ensures !Clash(linked, s.db, c, s.db.lessons[q])
    {
      var sameKind := KindMatches(q, c);
    }
    WriteKeeps(linked, s, t, r, c);
  }

  lemma CancelCommitKeeps(linked: bool, s: State, t: Id, newId: Id)
    requires Inv(linked, s) && CanCommit(s, t, newId) && (s.txs[t].op.CancelTheory? || s.txs[t].op.CancelPractice?)
    ensures Inv(linked, Committed(s, t, newId))
  {
    var tx := s.txs[t];
    assert TxOk(linked, s, tx);
    var r := LessonOf(tx.op).value;
    var row := s.db.lessons[r].(status := CANCELLED);
    assert Committed(s, t, newId) == Ended(WithLesson(s, r, row), t);
    assert MayWrite(s, tx, r, row);
    WriteKeeps(linked, s, t, r, row);
  }

  // ----- Writing groups and enrollments -----

  /** Rows stay, but may become CANCELLED. */
  ghost predicate RowsFade(s: State, s': State) {
    && s'.db.lessons.Keys == s.db.lessons.Keys
    && forall r :: r in s.db.lessons ==>
         s'.db.lessons[r] == s.db.lessons[r] || s'.db.lessons[r] == s.db.lessons[r].(status := CANCELLED)
  }

  /** Groups stay in their organization; with `linked`, teachers stay and enrollments only end. */
  ghost predicate LinksFade(linked: bool, s: State, s': State) {
    && (forall g :: g in s.db.groups ==> g in s'.db.groups && s'.db.groups[g].org == s.db.groups[g].org)
    && (linked ==>
          && (forall g :: g in s.db.groups ==> s'.db.groups[g].teacher == s.db.groups[g].teacher)
          && s'.db.active <= s.db.active)
  }

  lemma NeedsFade(linked: bool, s: State, s': State, row: Row, k: Key)
    requires LinksFade(linked, s, s') && Owned(s, row) && Needs(linked, s'.db, row, k)
    ensures Needs(linked, s.db, row, k)
  {
  }

  lemma FadingKeepsConflictFree(linked: bool, s: State, s': State)
    requires RowsOk(s) && ConflictFree(linked, s.db) && RowsFade(s, s') && LinksFade(linked, s, s')
    ensures ConflictFree(linked, s'.db)
  {
  }

  /** What the step leaves alone for a transaction: its locked lesson, and everything about its locked group. */
  ghost predicate Untouched(s: State, s': State, tx: Tx) {
    && (tx.pc.PastLessonLock() && LessonOf(tx.op).Some? && LessonOf(tx.op).value in s.db.lessons
          && LessonOf(tx.op).value in s'.db.lessons
        ==> s'.db.lessons[LessonOf(tx.op).value] == s.db.lessons[LessonOf(tx.op).value])
    && (tx.group.Some? ==>
          var g := tx.group.value;
          && (g in s.db.groups && g in s'.db.groups ==> s'.db.groups[g].status == s.db.groups[g].status)
          && (tx.op.ChangeGroupStatus? ==>
                UntouchedGroup(s, s', g) && (g in s'.closedAt ==> g in s.closedAt && s'.closedAt[g] == s.closedAt[g])))
  }

  ghost predicate UntouchedGroup(s: State, s': State, g: Id) {
    && (forall p :: p in s'.db.active && p.0 == g ==> p in s.db.active)
    && (forall r :: r in s.db.lessons && s.db.lessons[r].Theory? && s.db.lessons[r].group == g && r in s'.db.lessons
          ==> s'.db.lessons[r] == s.db.lessons[r])
  }

  lemma FadingKeepsTx(linked: bool, s: State, s': State, tx: Tx)
    requires TxOk(linked, s, tx) && RowsOk(s)
    requires s'.owner == s.owner && s'.clock == s.clock && s'.marks == s.marks
    requires RowsFade(s, s') && LinksFade(linked, s, s') && Untouched(s, s', tx)
    ensures TxOk(linked, s', tx)
  {
    assert TargetOk(s', tx);
    assert CheckedOk(s', tx);
    if tx.pc.HasCandidate() {
      var c := tx.pc.candidate;
      assert CandidateOf(s', tx) == CandidateOf(s, tx);
      assert Owned(s', c);
      forall k | Needs(linked, s'.db, c, k)
        ensures KeyLock(k) in tx.held || (tx.pc.Locking? && k in tx.pc.todo)
      {
        NeedsFade(linked, s, s', c, k);
      }
      if !tx.pc.Locking? {
        FadingKeepsClear(linked, s, s', tx, c, true);
      }
      if tx.pc.Clear? {
        FadingKeepsClear(linked, s, s', tx, c, false);
      }
      assert CandidateOk(linked, s', tx);
    }
  }

  lemma FadingKeepsClear(linked: bool, s: State, s': State, tx: Tx, c: Row, ownKind: bool)
    requires ClearOf(linked, s, tx, c, ownKind) && RowsOk(s) && Owned(s, c)
    requires RowsFade(s, s') && LinksFade(linked, s, s')
    ensures ClearOf(linked, s', tx, c, ownKind)
  {
  }

  /** A step on groups, enrollments and cancelled lessons that leaves the given transactions alone. */
  lemma FadingKeeps(linked: bool, s: State, s': State)
    requires Inv(linked, s)
    requires s'.owner == s.owner && s'.clock == s.clock && s'.marks == s.marks
    requires RowsFade(s, s') && LinksFade(linked, s, s') && LinksOk(s') && ClosedOk(s')
    requires s'.txs.Keys <= s.txs.Keys && forall u :: u in s'.txs ==> s'.txs[u] == s.txs[u] && Untouched(s, s', s.txs[u])
    ensures Inv(linked, s')
  {
    FadingKeepsConflictFree(linked, s, s');
    forall u | u in s'.txs
      ensures TxOk(linked, s', s'.txs[u])
    {
      FadingKeepsTx(linked, s, s', s.txs[u]);
    }
    FewerExclude(s, s');
    assert RowsOk(s') && MarksOk(s');
  }

  /** FOR UPDATE on a group excludes every other transaction that has locked it. */
  lemma SoleHolder(linked: bool, s: State, t: Id, u: Id)
    requires Inv(linked, s) && t in s.txs && u in s.txs && t != u
    requires s.txs[t].op.ChangeGroupStatus? && s.txs[t].group.Some?
    ensures s.txs[u].group != s.txs[t].group
  {
  }

  lemma StatusCommitKeeps(linked: bool, s: State, t: Id, newId: Id)
    requires Inv(linked, s) && CanCommit(s, t, newId) && s.txs[t].op.ChangeGroupStatus? && s.txs[t].op.next.Open()
    ensures Inv(linked, Committed(s, t, newId))
  {
    var tx := s.txs[t];
    assert TxOk(linked, s, tx);
    var g := tx.op.group;
    var s' := Committed(s, t, newId);
    assert s' == Ended(WithGroupStatus(s, g, tx.op.next), t);
    forall u | u in s'.txs
      ensures Untouched(s, s', s.txs[u])
    {
      SoleHolder(linked, s, t, u);
    }
    assert ClosedOk(s');
    FadingKeeps(linked, s, s');
  }

  lemma CloseCommitKeeps(linked: bool, s: State, t: Id, newId: Id)
    requires Inv(linked, s) && CanCommit(s, t, newId) && s.txs[t].op.ChangeGroupStatus? && !s.txs[t].op.next.Open()
    ensures Inv(linked, Committed(s, t, newId))
  {
    var tx := s.txs[t];
    assert TxOk(linked, s, tx);
    var g := tx.op.group;
    var s' := Committed(s, t, newId);
    assert s' == Ended(Close(s, g, tx.pc, tx.op.next), t);
    assert tx.group == Some(g);
    forall u | u in s'.txs
      ensures Untouched(s, s', s.txs[u])
    {
      SoleHolder(linked, s, t, u);
      assert TxOk(linked, s, s.txs[u]);
    }
    CloseKeepsClosedOk(linked, s, t, s');
    FadingKeeps(linked, s, s');
  }

  lemma CloseKeepsClosedOk(linked: bool, s: State, t: Id, s': State)
    requires Inv(linked, s) && t in s.txs && s.txs[t].op.ChangeGroupStatus? && s.txs[t].pc.Cancelling?
    requires s.txs[t].op.group in s.db.groups
    requires s' == Ended(Close(s, s.txs[t].op.group, s.txs[t].pc, s.txs[t].op.next), t)
    ensures ClosedOk(s')
  {
  }

  lemma EnrollCommitKeeps(s: State, t: Id, newId: Id)
    requires Inv(false, s) && CanCommit(s, t, newId) && s.txs[t].op.Enroll?
    ensures Inv(false, Committed(s, t, newId))
  {
    var tx := s.txs[t];
    assert TxOk(false, s, tx);
    var g := tx.op.group;
    var s' := Committed(s, t, newId);
    assert s' == Ended(s.(db := s.db.(active := s.db.active + {(g, tx.op.student)})), t);
    forall u | u in s'.txs
      ensures Untouched(s, s', s.txs[u])
    {
      if s.txs[u].op.ChangeGroupStatus? && s.txs[u].group.Some? {
        SoleHolder(false, s, u, t);
      }
    }
    assert LinksOk(s') && ClosedOk(s');
    FadingKeeps(false, s, s');
  }

  lemma MarkCommitKeeps(linked: bool, s: State, t: Id, newId: Id)
    requires Inv(linked, s) && CanCommit(s, t, newId) && s.txs[t].op.MarkAttendance?
    ensures Inv(linked, Committed(s, t, newId))
  {
    var tx := s.txs[t];
    assert TxOk(linked, s, tx);
    var l := tx.op.lesson;
    var s' := Committed(s, t, newId);
    forall u | u in s'.txs
      ensures TxOk(linked, s', s'.txs[u])
    {
      assert TxOk(linked, s, s.txs[u]);
      HeldAlone(s, t, u, LessonLock(TheoryLesson(l)));
      MarkKeepsOther(linked, s, s', s.txs[u], l);
    }
    assert RowsOk(s') && LinksOk(s') && MarksOk(s') && ClosedOk(s');
    assert s'.db == s.db;
  }

  lemma MarkKeepsOther(linked: bool, s: State, s': State, tx: Tx, l: Id)
    requires TxOk(linked, s, tx) && LessonLock(TheoryLesson(l)) !in tx.held
    requires s'.db == s.db && s'.owner == s.owner && s'.clock == s.clock && s'.closedAt == s.closedAt
    requires forall m :: m in s'.marks ==> m in s.marks || m == l
    ensures TxOk(linked, s', tx)
  {
  }

  // ----- Steps of the surrounding services -----

  lemma RetireKeeps(linked: bool, s: State, g: Id, student: Id)
    requires Inv(linked, s)
    ensures Inv(linked, Retired(s, g, student))
  {
    FadingKeeps(linked, s, Retired(s, g, student));
  }

  lemma SetTeacherKeeps(s: State, g: Id, teacher: Id)
    requires Inv(false, s) && CanSetTeacher(s, g, teacher)
    ensures Inv(false, WithTeacher(s, g, teacher))
  {
    var s' := WithTeacher(s, g, teacher);
    assert ClosedOk(s');
    FadingKeeps(false, s, s');
  }

  lemma NewGroupKeeps(linked: bool, s: State, g: Id, row: Group)
    requires Inv(linked, s) && CanAddGroup(s, g, row)
    ensures Inv(linked, WithGroup(s, g, row))
  {
    var s' := WithGroup(s, g, row);
    forall u | u in s'.txs
      ensures Untouched(s, s', s.txs[u])
    {
      assert TxOk(linked, s, s.txs[u]);
    }
    assert ClosedOk(s');
    FadingKeeps(linked, s, s');
  }
}
