/** Attendance and the timetable: a lesson that has a mark keeps its place. */
module SchedulingAttendance {
  import opened Timetable
  import opened SchedulingProtocol
  import opened SchedulingInvariant
  import opened SchedulingSafety

  /** The time a transaction compares lesson starts with: closing reads the clock late, the others when the request came. */
  function CompareTime(tx: Tx): int {
    if tx.pc.Cancelling? then tx.pc.now else tx.stamp
  }

  ghost predicate Marked(s: State, l: Id) {
    l in s.marks && TheoryLesson(l) in s.db.lessons
  }

  ghost predicate SameStart(s: State, s': State, l: Id) {
    && Marked(s, l) && Marked(s', l) && s'.marks[l] == s.marks[l]
    && s'.db.lessons[TheoryLesson(l)].start == s.db.lessons[TheoryLesson(l)].start
  }

  ghost predicate SameSlot(s: State, s': State, l: Id) {
    && SameStart(s, s', l)
    && s'.db.lessons[TheoryLesson(l)] == s.db.lessons[TheoryLesson(l)]
  }

  /** A commit of this transaction cancels the lesson or changes its duration. */
  predicate Loses(tx: Tx, l: Id) {
    || tx.op == CancelTheory(l)
    || (tx.op.ChangeTheory? && tx.op.lesson == l)
    || (tx.pc.Cancelling? && TheoryLesson(l) in tx.pc.targets)
  }

  /** The start stays, the slot is lost exactly when the commit is one of those, and then the comparison was early. */
  ghost predicate CommitVerdict(s: State, t: Id, s': State, l: Id)
    requires t in s.txs
  {
    && SameStart(s, s', l)
    && (SameSlot(s, s', l) <==> !Loses(s.txs[t], l))
    && (Loses(s.txs[t], l) ==> CompareTime(s.txs[t]) <= s.db.lessons[TheoryLesson(l)].start <= s.marks[l])
  }

  lemma CancelOnMarked(s: State, t: Id, newId: Id, l: Id)
    requires Inv(false, s) && CanCommit(s, t, newId) && Marked(s, l)
    requires s.txs[t].op.CancelTheory? || s.txs[t].op.CancelPractice?
    ensures CommitVerdict(s, t, Committed(s, t, newId), l)
  {
    var tx := s.txs[t];
    assert TxOk(false, s, tx);
  }

  lemma SlotOnMarked(s: State, t: Id, newId: Id, l: Id)
    requires Inv(false, s) && CanCommit(s, t, newId) && Marked(s, l) && NeedsSlot(s.txs[t].op)
    ensures CommitVerdict(s, t, Committed(s, t, newId), l)
  {
    var tx := s.txs[t];
    assert TxOk(false, s, tx);
    assert tx.pc.candidate == CandidateOf(s, tx);
  }

  lemma CloseOnMarked(s: State, t: Id, newId: Id, l: Id)
    requires Inv(false, s) && CanCommit(s, t, newId) && Marked(s, l) && s.txs[t].op.ChangeGroupStatus?
    ensures CommitVerdict(s, t, Committed(s, t, newId), l)
  {
    var tx := s.txs[t];
    assert TxOk(false, s, tx);
  }

  lemma OtherOnMarked(s: State, t: Id, newId: Id, l: Id)
    requires Inv(false, s) && CanCommit(s, t, newId) && Marked(s, l)
    requires s.txs[t].op.MarkAttendance? || s.txs[t].op.Enroll?
    ensures CommitVerdict(s, t, Committed(s, t, newId), l)
  {
    assert TxOk(false, s, s.txs[t]);
  }

  /**
   * A commit never moves the start of a marked lesson. It changes its duration or status exactly when it cancels the
   * lesson, changes it, or closes its group having picked it; and then it compared the start with a time no later than
   * that start, hence no later than the mark.
   */
  lemma CommitOnMarkedLesson(s: State, t: Id, newId: Id, l: Id)
    requires Inv(false, s) && CanCommit(s, t, newId) && l in s.marks
    ensures CommitVerdict(s, t, Committed(s, t, newId), l)
  {
    assert Marked(s, l);
    var op := s.txs[t].op;
    if op.CancelTheory? || op.CancelPractice? {
      CancelOnMarked(s, t, newId, l);
    } else if NeedsSlot(op) {
      SlotOnMarked(s, t, newId, l);
    } else if op.ChangeGroupStatus? {
      CloseOnMarked(s, t, newId, l);
    } else {
      OtherOnMarked(s, t, newId, l);
    }
  }

  lemma StepKeepsMarkedStart(s: State, step: Label, l: Id)
    requires Inv(false, s) && Enabled(s, step) && l in s.marks
    ensures SameStart(s, Next(s, step), l)
  {
    assert Marked(s, l);
    if step.Commit? {
      CommitOnMarkedLesson(s, step.t, step.newId, l);
    }
  }

  /** In every interleaving, the start of a marked lesson never moves. */
  lemma {:induction false} MarkedStartNeverMoves(s: State, labels: seq<Label>, l: Id)
    requires Inv(false, s) && Run(s, labels) && l in s.marks
    ensures SameStart(s, After(s, labels), l)
    decreases |labels|
  {
    assert Marked(s, l);
    if labels != [] {
      StepKeepsMarkedStart(s, labels[0], l);
      StepKeepsInvariant(false, s, labels[0]);
      MarkedStartNeverMoves(Next(s, labels[0]), labels[1..], l);
    }
  }

  // ----- Transactions that do not overlap, under a strictly increasing clock -----

  /** A request starts when no transaction is under way, at a time later than every mark made before. */
  ghost predicate StartsAlone(s: State, step: Label) {
    step.Begin? ==> s.txs == map[] && forall m :: m in s.marks ==> s.marks[m] < s.clock
  }

  ghost predicate AtomicRun(s: State, labels: seq<Label>)
    requires Run(s, labels)
    decreases |labels|
  {
    labels == [] || (StartsAlone(s, labels[0]) && AtomicRun(Next(s, labels[0]), labels[1..]))
  }

  /** The one transaction under way is later than every mark. */
  ghost predicate MarksAreOlder(s: State) {
    && (forall t, u :: t in s.txs && u in s.txs ==> t == u)
    && (forall t, m :: t in s.txs && m in s.marks ==> s.marks[m] < CompareTime(s.txs[t]))
  }

  lemma AtomicStepKeepsSlot(s: State, step: Label, l: Id)
    requires Inv(false, s) && MarksAreOlder(s) && Enabled(s, step) && l in s.marks
    ensures SameSlot(s, Next(s, step), l)
  {
    assert Marked(s, l);
    if step.Commit? {
      CommitOnMarkedLesson(s, step.t, step.newId, l);
    }
  }

  lemma AtomicCommitEndsAlone(s: State, t: Id, newId: Id)
    requires MarksAreOlder(s) && CanCommit(s, t, newId)
    ensures MarksAreOlder(Committed(s, t, newId))
  {
  }

  lemma LaterKeepsAge(s: State, s': State)
    requires MarksAreOlder(s) && s'.marks == s.marks && s'.txs.Keys <= s.txs.Keys
    requires forall t :: t in s'.txs ==> CompareTime(s.txs[t]) <= CompareTime(s'.txs[t])
    ensures MarksAreOlder(s')
  {
  }

  lemma AtomicBeginKeepsAge(s: State, t: Id, org: Id, op: Op)
    requires MarksAreOlder(s) && CanBegin(s, t, op) && StartsAlone(s, Begin(t, org, op))
    ensures MarksAreOlder(Next(s, Begin(t, org, op)))
  {
  }

  lemma AtomicStepKeepsAge(s: State, step: Label)
    requires Inv(false, s) && MarksAreOlder(s) && Enabled(s, step) && StartsAlone(s, step)
    ensures MarksAreOlder(Next(s, step))
  {
    if step.Commit? {
      AtomicCommitEndsAlone(s, step.t, step.newId);
    } else if step.Begin? {
      AtomicBeginKeepsAge(s, step.t, step.org, step.op);
    } else {
      var s' := Next(s, step);
      forall t | t in s'.txs
        ensures t in s.txs && CompareTime(s.txs[t]) <= CompareTime(s'.txs[t])
      {
        assert TargetOk(s, s.txs[t]);
      }
      LaterKeepsAge(s, s');
    }
  }

  /** Marks freeze the slot and the status of a lesson when transactions are atomic steps of a strictly increasing clock. */
  lemma {:induction false} AtomicRunFreezesMarkedLessons(s: State, labels: seq<Label>, l: Id)
    requires Inv(false, s) && MarksAreOlder(s) && Run(s, labels) && AtomicRun(s, labels) && l in s.marks
    ensures SameSlot(s, After(s, labels), l)
    decreases |labels|
  {
    assert Marked(s, l);
    if labels != [] {
      AtomicStepKeepsSlot(s, labels[0], l);
      AtomicStepKeepsAge(s, labels[0]);
      StepKeepsInvariant(false, s, labels[0]);
      AtomicRunFreezesMarkedLessons(Next(s, labels[0]), labels[1..], l);
    }
  }
}
