/** What holds in every interleaving of the scheduling transactions. */
module SchedulingSafety {
  import opened Timetable
  import opened SchedulingProtocol
  import opened SchedulingInvariant
  import opened SchedulingSteps
  import opened SchedulingCommits
  import opened SchedulingLinks

  /** Any committed timetable free of clashes, with no transaction under way. */
  ghost predicate Initial(linked: bool, s: State) {
    WorldOk(linked, s) && s.txs == map[]
  }

  /** Every step keeps the invariant; with `linked`, every step that passes the guard of the linking steps. */
  lemma StepKeepsInvariant(linked: bool, s: State, l: Label)
    requires Inv(linked, s) && Enabled(s, l) && (linked ==> LinkFits(s, l))
    ensures Inv(linked, Next(s, l))
  {
    match l
    case Tick => TickKeeps(linked, s);
    case Begin(t, org, op) => BeginKeeps(linked, s, t, org, op);
    case Abort(t) => AbortKeeps(linked, s, t);
    case LockGroup(t) => LockGroupKeeps(linked, s, t);
    case LockLesson(t) => LockLessonKeeps(linked, s, t);
    case Validate(t, memberOf) => ValidateKeeps(linked, s, t, memberOf);
    case LockNextKey(t) => LockNextKeyKeeps(linked, s, t);
    case SearchOwnKind(t) => SearchOwnKindKeeps(linked, s, t);
    case SearchOtherKind(t) => SearchOtherKindKeeps(linked, s, t);
    case EndEnrollments(t) => EndEnrollmentsKeeps(linked, s, t);
    case PickLessons(t) => PickLessonsKeeps(linked, s, t);
    case LockPicked(t, r) => LockPickedKeeps(linked, s, t, r);
    case Commit(t, newId) => CommitKeepsInvariant(linked, s, t, newId);
    case Retire(g, student) => RetireKeeps(linked, s, g, student);
    case SetTeacher(g, teacher) =>
      if linked {
        SetTeacherKeepsLinksIff(s, g, teacher);
      } else {
        SetTeacherKeeps(s, g, teacher);
      }
    case NewGroup(g, row) => NewGroupKeeps(linked, s, g, row);
  }

  lemma CommitKeepsInvariant(linked: bool, s: State, t: Id, newId: Id)
    requires Inv(linked, s) && CanCommit(s, t, newId) && (linked ==> LinkFits(s, Commit(t, newId)))
    ensures Inv(linked, Committed(s, t, newId))
  {
    match s.txs[t].op
    case CancelTheory(_) => CancelCommitKeeps(linked, s, t, newId);
    case CancelPractice(_) => CancelCommitKeeps(linked, s, t, newId);
    case MarkAttendance(_) => MarkCommitKeeps(linked, s, t, newId);
    case ChangeGroupStatus(_, next) =>
      if next.Open() {
        StatusCommitKeeps(linked, s, t, newId);
      } else {
        CloseCommitKeeps(linked, s, t, newId);
      }
    case Enroll(_, _) =>
      if linked {
        EnrollKeepsLinksIff(s, t, newId);
      } else {
        EnrollCommitKeeps(s, t, newId);
      }
    case _ => SlotCommitKeeps(linked, s, t, newId);
  }

  /** For the cross-table invariant the guard is exact, step by step. */
  lemma StepKeepsLinkedInvariantIff(s: State, l: Label)
    requires Inv(true, s) && Enabled(s, l)
    ensures Inv(true, Next(s, l)) <==> LinkFits(s, l)
  {
    if LinkFits(s, l) {
      StepKeepsInvariant(true, s, l);
    } else if l.SetTeacher? {
      SetTeacherKeepsLinksIff(s, l.group, l.teacher);
    } else {
      EnrollKeepsLinksIff(s, l.t, l.newId);
    }
  }

  /** Whoever is enrolled and whichever teacher is replaced in the run, the lessons leave room for it at that moment. */
  ghost predicate LinksFit(s: State, labels: seq<Label>)
    requires Run(s, labels)
    decreases |labels|
  {
    labels == [] || (LinkFits(s, labels[0]) && LinksFit(Next(s, labels[0]), labels[1..]))
  }

  lemma {:induction false} RunKeepsInvariant(linked: bool, s: State, labels: seq<Label>)
    requires Inv(linked, s) && Run(s, labels) && (linked ==> LinksFit(s, labels))
    ensures Inv(linked, After(s, labels))
    decreases |labels|
  {
    if labels != [] {
      StepKeepsInvariant(linked, s, labels[0]);
      RunKeepsInvariant(linked, Next(s, labels[0]), labels[1..]);
    }
  }

  /** Some run leads here from a timetable free of clashes. */
  ghost predicate Reachable(s: State) {
    exists start, labels :: LeadsTo(start, labels, s)
  }

  ghost predicate LeadsTo(start: State, labels: seq<Label>, s: State) {
    Initial(false, start) && Run(start, labels) && After(start, labels) == s
  }

  lemma ReachableStatesAreSound(s: State)
    requires Reachable(s)
    ensures Inv(false, s)
  {
    var start, labels :| LeadsTo(start, labels, s);
    RunKeepsInvariant(false, start, labels);
  }

  lemma InitialIsSound(linked: bool, s: State)
    requires Initial(linked, s)
    ensures Inv(linked, s)
  {
  }

  lemma SoundTimetable(linked: bool, s: State)
    requires Inv(linked, s)
    ensures ConflictFree(linked, s.db) && OneAtATime(linked, s.db)
  {
    assert forall r :: r in s.db.lessons ==> s.db.lessons[r].LegalDuration();
    ConflictFreeIff(linked, s.db);
  }

  /**
   * In every interleaving, no group, instructor, car or student has two SCHEDULED lessons of one kind at one moment.
   */
  lemma NoDoubleBooking(s: State, labels: seq<Label>)
    requires Initial(false, s) && Run(s, labels)
    ensures ConflictFree(false, After(s, labels).db) && OneAtATime(false, After(s, labels).db)
  {
    InitialIsSound(false, s);
    RunKeepsInvariant(false, s, labels);
    SoundTimetable(false, After(s, labels));
  }

  /**
   * As long as enrollments and changes of teacher fit, a student never has practice during the theory of a group
   * where they are ACTIVE, and no teacher has two lessons at once.
   */
  lemma NoDoubleBookingAcrossTables(s: State, labels: seq<Label>)
    requires Initial(true, s) && Run(s, labels) && LinksFit(s, labels)
    ensures ConflictFree(true, After(s, labels).db) && OneAtATime(true, After(s, labels).db)
  {
    InitialIsSound(true, s);
    RunKeepsInvariant(true, s, labels);
    SoundTimetable(true, After(s, labels));
  }

  // ----- Closed groups -----

  /** Nothing about the closed group differs between the two states: its lessons, its closing time, its empty roster. */
  ghost predicate StaysClosed(s: State, s': State, g: Id) {
    && g in s.closedAt && g in s'.closedAt && s'.closedAt[g] == s.closedAt[g]
    && g in s'.db.groups && !s'.db.groups[g].status.Open()
    && (forall p :: p in s'.db.active ==> p.0 != g)
    && (forall r :: r in s.db.lessons && TheoryRowOf(s, r, g) ==> r in s'.db.lessons && s'.db.lessons[r] == s.db.lessons[r])
    && (forall r :: r in s'.db.lessons && TheoryRowOf(s', r, g) ==> TheoryRowOf(s, r, g))
    && (forall r :: r in s'.db.lessons && TheoryRowOf(s', r, g) && s'.db.lessons[r].Live() ==> s'.db.lessons[r].start < s.closedAt[g])
  }

  ghost predicate TheoryRowOf(s: State, r: Ref, g: Id) {
    r in s.db.lessons && s.db.lessons[r].Theory? && s.db.lessons[r].group == g
  }

  /** The rows of the group are the same before and after. */
  ghost predicate SameTheoryRows(s: State, s': State, g: Id) {
    && (forall r :: TheoryRowOf(s, r, g) ==> r in s'.db.lessons && s'.db.lessons[r] == s.db.lessons[r])
    && (forall r :: TheoryRowOf(s', r, g) ==> TheoryRowOf(s, r, g))
  }

  ghost predicate SparesClosed(s: State, s': State, g: Id) {
    SameTheoryRows(s, s', g) && g in s.closedAt && g in s'.closedAt && s'.closedAt[g] == s.closedAt[g]
  }

  /** A write to a row of another group, or to a practice lesson, spares the closed group. */
  lemma RowWriteSparesClosed(s: State, t: Id, r: Ref, row: Row, g: Id)
    requires g in s.closedAt && !TheoryRowOf(s, r, g) && (row.Theory? ==> row.group != g)
    ensures SparesClosed(s, Ended(WithLesson(s, r, row), t), g)
  {
  }

  lemma ClosedLessonsAreNotPicked(s: State, tx: Tx, g: Id)
    requires ClosedOk(s) && CheckedOk(s, tx) && tx.pc.Cancelling? && g in s.closedAt
    ensures forall r :: r in tx.pc.targets ==> !TheoryRowOf(s, r, g)
  {
  }

  lemma CloseSparesClosed(s: State, t: Id, g: Id, group: Id, pc: Pc, next: GroupStatus)
    requires pc.Cancelling? && group in s.db.groups && g in s.closedAt
    requires forall r :: r in pc.targets ==> !TheoryRowOf(s, r, g)
    ensures SparesClosed(s, Ended(Close(s, group, pc, next), t), g)
  {
  }

  lemma ClosingSparesClosed(s: State, t: Id, newId: Id, g: Id)
    requires Inv(false, s) && CanCommit(s, t, newId) && g in s.closedAt && s.txs[t].op.ChangeGroupStatus?
    ensures SparesClosed(s, Committed(s, t, newId), g)
  {
    var tx := s.txs[t];
    if !tx.op.next.Open() {
      assert TxOk(false, s, tx);
      ClosedLessonsAreNotPicked(s, tx, g);
      CloseSparesClosed(s, t, g, tx.op.group, tx.pc, tx.op.next);
    }
  }

  lemma CancellingSparesClosed(s: State, t: Id, newId: Id, g: Id)
    requires Inv(false, s) && CanCommit(s, t, newId) && g in s.closedAt
    requires s.txs[t].op.CancelTheory? || s.txs[t].op.CancelPractice?
    ensures SparesClosed(s, Committed(s, t, newId), g)
  {
    var tx := s.txs[t];
    assert TxOk(false, s, tx);
    RowWriteSparesClosed(s, t, LessonOf(tx.op).value, s.db.lessons[LessonOf(tx.op).value].(status := CANCELLED), g);
  }

  lemma SlotSparesClosed(s: State, t: Id, newId: Id, g: Id)
    requires Inv(false, s) && CanCommit(s, t, newId) && g in s.closedAt && NeedsSlot(s.txs[t].op)
    ensures SparesClosed(s, Committed(s, t, newId), g)
  {
    var tx := s.txs[t];
    assert TxOk(false, s, tx);
    var c := tx.pc.candidate;
    assert c == CandidateOf(s, tx) && (c.Theory? ==> c.group != g);
    var r := if tx.op.CreateTheory? then TheoryLesson(newId) else if tx.op.CreatePractice? then PracticeLesson(newId)
             else LessonOf(tx.op).value;
    assert Committed(s, t, newId) == Ended(WithLesson(s, r, c), t);
    RowWriteSparesClosed(s, t, r, c, g);
  }

  lemma CommitSparesClosed(s: State, t: Id, newId: Id, g: Id)
    requires Inv(false, s) && CanCommit(s, t, newId) && g in s.closedAt
    ensures SparesClosed(s, Committed(s, t, newId), g)
  {
    var op := s.txs[t].op;
    if op.ChangeGroupStatus? {
      ClosingSparesClosed(s, t, newId, g);
    } else if NeedsSlot(op) {
      SlotSparesClosed(s, t, newId, g);
    } else if op.CancelTheory? || op.CancelPractice? {
      CancellingSparesClosed(s, t, newId, g);
    }
  }

  lemma OthersLeaveLessons(s: State, l: Label)
    requires Enabled(s, l) && !l.Commit?
    ensures Next(s, l).db.lessons == s.db.lessons && Next(s, l).closedAt == s.closedAt
  {
  }

  lemma StepSparesClosed(s: State, l: Label, g: Id)
    requires Inv(false, s) && Enabled(s, l) && g in s.closedAt
    ensures SparesClosed(s, Next(s, l), g)
  {
    if l.Commit? {
      CommitSparesClosed(s, l.t, l.newId, g);
    } else {
      OthersLeaveLessons(s, l);
    }
  }

  lemma ClosedStep(s: State, l: Label, g: Id)
    requires Inv(false, s) && Enabled(s, l) && g in s.closedAt
    ensures StaysClosed(s, Next(s, l), g)
  {
    var s' := Next(s, l);
    StepSparesClosed(s, l, g);
    StepKeepsInvariant(false, s, l);
    ClosedStaysClosed(s, s', g);
  }

  lemma ClosedStaysClosed(s: State, s': State, g: Id)
    requires ClosedOk(s') && SameTheoryRows(s, s', g)
    requires g in s.closedAt && g in s'.closedAt && s'.closedAt[g] == s.closedAt[g]
    ensures StaysClosed(s, s', g)
  {
  }

  /** Once a group is closed it stays closed and empty, and its lessons keep their time and status, in every interleaving. */
  lemma {:induction false} ClosedGroupsAreFrozen(s: State, labels: seq<Label>, g: Id)
    requires Inv(false, s) && Run(s, labels) && g in s.closedAt
    ensures StaysClosed(s, After(s, labels), g)
    decreases |labels|
  {
    if labels != [] {
      ClosedStep(s, labels[0], g);
      StepKeepsInvariant(false, s, labels[0]);
      ClosedGroupsAreFrozen(Next(s, labels[0]), labels[1..], g);
    }
  }
}
