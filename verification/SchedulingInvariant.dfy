/**
 * The inductive invariant of the scheduling protocol. With `linked`, clashes through ACTIVE enrollments
 * and group teachers count too.
 */
module SchedulingInvariant {
  import opened Options
  import opened Timetable
  import opened ScheduleLock
  import opened SchedulingProtocol

  /** `k` is one of the resources whose lock a writer of `row` must hold. */
  ghost predicate Needs(linked: bool, db: Tables, row: Row, k: Key) {
    match row
    case Theory(_, g, _, _, _) =>
      k == GroupKey(g) || (linked && g in db.groups && k == Teacher(db.groups[g].teacher))
    case Practice(_, i, c, student, _, _, _) =>
      || k == Instructor(i) || k == Student(student) || (c.Some? && k == Car(c.value))
      || (linked && k.GroupKey? && (k.id, student) in db.active)
  }

  /** Two lessons that clash are locked under a common key. */
  lemma ClashNeedsCommonKey(linked: bool, db: Tables, a: Row, b: Row) returns (k: Key)
    requires Clash(linked, db, a, b)
    ensures Needs(linked, db, a, k) && Needs(linked, db, b, k)
  {
    match (a, b)
    case (Theory(_, g, _, _, _), Theory(_, h, _, _, _)) =>
      k := if g == h then GroupKey(g) else Teacher(db.groups[g].teacher);
    case (Practice(_, i, c, student, _, _, _), Practice(_, j, _, _, _, _, _)) =>
      k := if i == j then Instructor(i) else if c.Some? && c == b.car then Car(c.value) else Student(student);
    case (Theory(_, g, _, _, _), Practice(_, _, _, _, _, _, _)) => k := GroupKey(g);
    case (Practice(_, _, _, _, _, _, _), Theory(_, g, _, _, _)) => k := GroupKey(g);
  }

  ghost predicate RowsOk(s: State) {
    forall r :: r in s.db.lessons ==>
      && KindMatches(r, s.db.lessons[r]) && s.db.lessons[r].LegalDuration() && Owned(s, s.db.lessons[r])
  }

  ghost predicate LinksOk(s: State) {
    && (forall g :: g in s.db.groups ==> s.owner(Teacher(s.db.groups[g].teacher)) == s.db.groups[g].org)
    && (forall p :: p in s.db.active ==> p.0 in s.db.groups && s.db.groups[p.0].org == s.owner(Student(p.1)))
  }

  /** A mark is made once the lesson has begun, and never in the future. */
  ghost predicate MarksOk(s: State) {
    forall l :: l in s.marks ==>
      && TheoryLesson(l) in s.db.lessons && s.db.lessons[TheoryLesson(l)].start <= s.marks[l] <= s.clock
  }

  /** A closed group has no ACTIVE member and no SCHEDULED lesson from its closing time on. */
  ghost predicate ClosedOk(s: State) {
    && (forall g :: g in s.db.groups && !s.db.groups[g].status.Open() <==> g in s.closedAt)
    && (forall g :: g in s.closedAt ==> s.closedAt[g] <= s.clock)
    && (forall p :: p in s.db.active ==> p.0 !in s.closedAt)
    && (forall r :: r in s.db.lessons && s.db.lessons[r].Theory? && s.db.lessons[r].Live()
                    && s.db.lessons[r].group in s.closedAt
          ==> s.db.lessons[r].start < s.closedAt[s.db.lessons[r].group])
  }

  ghost predicate WorldOk(linked: bool, s: State) {
    RowsOk(s) && LinksOk(s) && MarksOk(s) && ClosedOk(s) && ConflictFree(linked, s.db)
  }

  /** Two transactions hold the same lock only when both hold a group row FOR SHARE. */
  ghost predicate Exclusion(s: State) {
    forall t, u, lock :: t in s.txs && u in s.txs && t != u && lock in s.txs[t].held && lock in s.txs[u].held
      ==> Compatible(lock, s.txs[t], s.txs[u])
  }

  /** Which locks a transaction holds at each point, and that advisory keys come in increasing order. */
  ghost predicate HeldOk(tx: Tx) {
    && (forall g :: GroupLock(g) in tx.held <==> tx.group == Some(g))
    && (tx.group.Some? ==> NamesGroup(tx.op) && !tx.pc.Begun?)
    && (NamesGroup(tx.op) && !tx.pc.Begun? ==> tx.group.Some?)
    && (tx.pc.GroupHeld? ==> NamesGroup(tx.op))
    && (forall r :: LessonLock(r) in tx.held ==>
          (LessonOf(tx.op) == Some(r) && tx.pc.PastLessonLock()) || (tx.pc.Cancelling? && r in tx.pc.targets))
    && (tx.pc.PastLessonLock() && LessonOf(tx.op).Some? ==> LessonLock(LessonOf(tx.op).value) in tx.held)
    && (forall k :: KeyLock(k) in tx.held ==> tx.pc.HasCandidate())
    && (tx.pc.Locking? ==>
          && StrictlyIncreasing(tx.pc.todo)
          && forall k, j :: KeyLock(k) in tx.held && 0 <= j < |tx.pc.todo| ==> KeyLess(k, tx.pc.todo[j]))
    && (tx.pc.Ending? || tx.pc.Cancelling? ==> tx.op.ChangeGroupStatus?)
    && (tx.pc.HasCandidate() ==> NeedsSlot(tx.op))
    && (tx.pc.LessonHeld? ==> LessonOf(tx.op).Some?)
    && (tx.pc.Approved? ==> !NeedsSlot(tx.op))
  }

  /** The locked group row is the one the operation is about, and so is the locked lesson. */
  ghost predicate TargetOk(s: State, tx: Tx) {
    && tx.stamp <= s.clock && WellFormed(tx.op, tx.stamp)
    && (tx.group.Some? ==> tx.group.value in s.db.groups && s.db.groups[tx.group.value].org == tx.org)
    && (tx.group.Some? && (tx.op.CreateTheory? || tx.op.ChangeGroupStatus? || tx.op.Enroll?) ==> tx.group.value == tx.op.group)
    && ((tx.group.Some? || tx.pc.PastLessonLock()) && LessonOf(tx.op).Some? ==>
          && LessonOf(tx.op).value in s.db.lessons
          && var row := s.db.lessons[LessonOf(tx.op).value];
          && KindMatches(LessonOf(tx.op).value, row) && (row.Theory? ==> tx.group == Some(row.group))
          && (tx.pc.PastLessonLock() ==> row.org == tx.org))
  }

  /** What the checks established still holds: no lock that protects it has been let go. */
  ghost predicate CheckedOk(s: State, tx: Tx) {
    && (tx.pc.HasCandidate() || tx.pc.Approved? ==>
          && (NamesGroup(tx.op) && !tx.op.ChangeGroupStatus? ==> GroupOpen(s, tx))
          && match tx.op
             case CancelTheory(l) => CanCancel(s, tx, TheoryLesson(l))
             case CancelPractice(l) => CanCancel(s, tx, PracticeLesson(l))
             case MarkAttendance(l) => CanMark(s, tx, TheoryLesson(l))
             case Enroll(_, student) => s.owner(Student(student)) == tx.org
             case ChangeGroupStatus(g, next) => g in s.db.groups && CanChangeGroup(s.db.groups[g].status, next)
             case _ => true)
    && (tx.pc.Ending? || tx.pc.Cancelling? ==>
          && tx.op.ChangeGroupStatus? && !tx.op.next.Open() && tx.op.group in s.db.groups && CanChangeGroup(s.db.groups[tx.op.group].status, tx.op.next)
          && (forall p :: p in s.db.active && p.0 == tx.op.group ==> p in tx.pc.completed)
          && (forall p :: p in tx.pc.completed ==> p.0 == tx.op.group))
    && (tx.pc.Cancelling? ==>
          && tx.op.ChangeGroupStatus? && tx.pc.now <= s.clock
          && (tx.op.group in s.closedAt ==> s.closedAt[tx.op.group] <= tx.pc.now)
          && forall r :: r in tx.pc.targets <==>
               && r in s.db.lessons && s.db.lessons[r].Theory? && s.db.lessons[r].group == tx.op.group
               && s.db.lessons[r].Live() && s.db.lessons[r].start >= tx.pc.now)
  }

  ghost predicate CanCancel(s: State, tx: Tx, r: Ref) {
    r in s.db.lessons && s.db.lessons[r].Live() && s.db.lessons[r].start > tx.stamp
  }

  ghost predicate CanMark(s: State, tx: Tx, r: Ref) {
    r in s.db.lessons && !s.db.lessons[r].status.CANCELLED? && s.db.lessons[r].start <= tx.stamp
  }

  /** The candidate is what the commit will write, and its keys are held or still to be locked. */
  ghost predicate CandidateOk(linked: bool, s: State, tx: Tx) {
    tx.pc.HasCandidate() ==>
      var c := tx.pc.candidate;
      && c == CandidateOf(s, tx) && c.Live() && c.LegalDuration() && Owned(s, c) && c.start > tx.stamp
      && (c.Theory? ==> tx.group == Some(c.group))
      && (c.Theory? <==> tx.op.CreateTheory? || tx.op.ChangeTheory?) && (c.Practice? ==> HasCar(c))
      && (tx.op.ChangeTheory? && tx.op.lesson in s.marks && TheoryLesson(tx.op.lesson) in s.db.lessons
          ==> c.start == s.db.lessons[TheoryLesson(tx.op.lesson)].start)
      && (Self(tx.op).Some? && Self(tx.op).value in s.db.lessons ==> c != s.db.lessons[Self(tx.op).value])
      && (forall k :: Needs(linked, s.db, c, k) ==> KeyLock(k) in tx.held || (tx.pc.Locking? && k in tx.pc.todo))
      && (tx.pc.HalfSearched? || tx.pc.Clear? ==> ClearOf(linked, s, tx, c, true))
      && (tx.pc.Clear? ==> ClearOf(linked, s, tx, c, false))
  }

  /** No committed lesson of one kind, except the one being changed, clashes with the candidate. */
  ghost predicate ClearOf(linked: bool, s: State, tx: Tx, c: Row, ownKind: bool) {
    forall r :: r in s.db.lessons && Some(r) != Self(tx.op) && KindMatches(r, c) == ownKind
      ==> !Clash(linked, s.db, c, s.db.lessons[r])
  }

  ghost predicate TxOk(linked: bool, s: State, tx: Tx) {
    HeldOk(tx) && TargetOk(s, tx) && CheckedOk(s, tx) && CandidateOk(linked, s, tx)
  }

  ghost predicate Inv(linked: bool, s: State) {
    WorldOk(linked, s) && Exclusion(s) && forall t :: t in s.txs ==> TxOk(linked, s, s.txs[t])
  }

  /** A lock that is not shared is held by nobody else. */
  lemma HeldAlone(s: State, t: Id, u: Id, lock: Lock)
    requires Exclusion(s) && t in s.txs && u in s.txs && t != u
    requires lock in s.txs[t].held && !Compatible(lock, s.txs[t], s.txs[u])
    ensures lock !in s.txs[u].held
  {
  }

  // ----- Steps that change one transaction only -----

  lemma LocalStep(linked: bool, s: State, t: Id, tx: Tx)
    requires Inv(linked, s)
    requires TxOk(linked, s, tx)
    requires CompatibleWithOthers(s, t, tx)
    ensures Inv(linked, WithTx(s, t, tx))
  {
    var s' := WithTx(s, t, tx);
    forall u | u in s'.txs
      ensures TxOk(linked, s', s'.txs[u])
    {
      TxOkIgnoresTxs(linked, s, s', s'.txs[u]);
    }
    WorldIgnoresTxs(linked, s, s');
    ExclusionWith(s, t, tx);
  }

  ghost predicate CompatibleWithOthers(s: State, t: Id, tx: Tx) {
    forall u, lock :: u in s.txs && u != t && lock in tx.held && lock in s.txs[u].held ==> Compatible(lock, tx, s.txs[u])
  }

  lemma TakeAvailable(s: State, t: Id, tx: Tx, lock: Lock)
    requires Exclusion(s) && t in s.txs && Available(s, t, lock)
    requires tx.op == s.txs[t].op && tx.held == s.txs[t].held + {lock}
    ensures CompatibleWithOthers(s, t, tx)
  {
  }

  lemma ExclusionWith(s: State, t: Id, tx: Tx)
    requires Exclusion(s)
    requires CompatibleWithOthers(s, t, tx)
    ensures Exclusion(WithTx(s, t, tx))
  {
  }

  lemma WorldIgnoresTxs(linked: bool, s: State, s': State)
    requires WorldOk(linked, s)
    requires s'.db == s.db && s'.owner == s.owner && s'.clock >= s.clock && s'.marks == s.marks && s'.closedAt == s.closedAt
    ensures WorldOk(linked, s')
  {
  }

  /** Time passes, or a transaction ends without writing. */
  lemma FewerTransactions(linked: bool, s: State, s': State)
    requires Inv(linked, s)
    requires s'.db == s.db && s'.owner == s.owner && s'.clock >= s.clock && s'.marks == s.marks && s'.closedAt == s.closedAt
    requires s'.txs.Keys <= s.txs.Keys && forall u :: u in s'.txs ==> s'.txs[u] == s.txs[u]
    ensures Inv(linked, s')
  {
    WorldIgnoresTxs(linked, s, s');
    FewerExclude(s, s');
    forall u | u in s'.txs
      ensures TxOk(linked, s', s'.txs[u])
    {
      TxOkIgnoresTxs(linked, s, s', s'.txs[u]);
    }
  }

  lemma FewerExclude(s: State, s': State)
    requires Exclusion(s)
    requires s'.txs.Keys <= s.txs.Keys && forall u :: u in s'.txs ==> s'.txs[u] == s.txs[u]
    ensures Exclusion(s')
  {
  }

  lemma TxOkIgnoresTxs(linked: bool, s: State, s': State, tx: Tx)
    requires TxOk(linked, s, tx)
    requires s'.db == s.db && s'.owner == s.owner && s'.clock >= s.clock && s'.marks == s.marks && s'.closedAt == s.closedAt
    ensures TxOk(linked, s', tx)
  {
  }
}
