/** Interleaved: exactly which requests can still take the slot of a lesson that has attendance marks. */
module SchedulingFreeze {
  import opened Timetable
  import opened SchedulingProtocol
  import opened SchedulingInvariant
  import opened SchedulingSafety
  import opened SchedulingAttendance

  // ----- Along one run -----

  ghost predicate LosingStep(s: State, step: Label, l: Id) {
    step.Commit? && step.t in s.txs && Loses(s.txs[step.t], l)
  }

  ghost predicate NoLosingStep(s: State, labels: seq<Label>, l: Id)
    requires Run(s, labels)
    decreases |labels|
  {
    labels == [] || (!LosingStep(s, labels[0], l) && NoLosingStep(Next(s, labels[0]), labels[1..], l))
  }

  /** Every state of the run has the lesson as the state before it. */
  ghost predicate KeepsSlot(s: State, labels: seq<Label>, l: Id)
    requires Run(s, labels)
    decreases |labels|
  {
    labels == [] || (SameSlot(s, Next(s, labels[0]), l) && KeepsSlot(Next(s, labels[0]), labels[1..], l))
  }

  lemma StepKeepsSlotIff(s: State, step: Label, l: Id)
    requires Inv(false, s) && Enabled(s, step) && l in s.marks
    ensures SameSlot(s, Next(s, step), l) <==> !LosingStep(s, step, l)
  {
    assert Marked(s, l);
    if step.Commit? {
      CommitOnMarkedLesson(s, step.t, step.newId, l);
    }
  }

  /** A run keeps the slot of a marked lesson exactly when none of its commits cancels, changes or picks the lesson. */
  lemma {:induction false} RunKeepsSlotIff(s: State, labels: seq<Label>, l: Id)
    requires Inv(false, s) && Run(s, labels) && l in s.marks
    ensures KeepsSlot(s, labels, l) <==> NoLosingStep(s, labels, l)
    decreases |labels|
  {
    if labels != [] {
      StepKeepsSlotIff(s, labels[0], l);
      StepKeepsMarkedStart(s, labels[0], l);
      StepKeepsInvariant(false, s, labels[0]);
      RunKeepsSlotIff(Next(s, labels[0]), labels[1..], l);
    }
  }

  // ----- Over all runs from a state -----

  /** The lesson of a marked lesson's row, which is a theory lesson. */
  ghost predicate Editable(s: State, l: Id) {
    && Marked(s, l) && s.db.lessons[TheoryLesson(l)].Theory? && s.db.lessons[TheoryLesson(l)].Live()
    && s.db.lessons[TheoryLesson(l)].group in s.db.groups
    && s.db.groups[s.db.lessons[TheoryLesson(l)].group].status.Open()
  }

  /** A cancellation of the lesson that was received before the lesson began. */
  ghost predicate StaleCancel(s: State, tx: Tx, l: Id)
    requires Marked(s, l)
  {
    var row := s.db.lessons[TheoryLesson(l)];
    tx.op == CancelTheory(l) && tx.org == row.org && tx.stamp < row.start
  }

  /** A closing that has picked the lesson. */
  ghost predicate Picked(tx: Tx, l: Id) {
    tx.pc.Cancelling? && TheoryLesson(l) in tx.pc.targets
  }

  /** A change of the duration that was received before the lesson began. */
  ghost predicate StaleChange(s: State, tx: Tx, l: Id)
    requires Marked(s, l)
  {
    var row := s.db.lessons[TheoryLesson(l)];
    && tx.op.ChangeTheory? && tx.op.lesson == l && tx.org == row.org && tx.stamp < row.start
    && Patch(row, tx.op) != row && Patch(row, tx.op).start == row.start
  }

  /** What may still cancel the lesson: such a request under way, or a closing that reads the clock this very moment. */
  ghost predicate MayBeCancelled(s: State, l: Id) {
    && Editable(s, l)
    && (s.clock == s.db.lessons[TheoryLesson(l)].start
        || exists t :: t in s.txs && (StaleCancel(s, s.txs[t], l) || Picked(s.txs[t], l)))
  }

  ghost predicate MayBeChanged(s: State, l: Id) {
    Editable(s, l) && exists t :: t in s.txs && StaleChange(s, s.txs[t], l)
  }

  ghost predicate Cancelled(s: State, l: Id) {
    TheoryLesson(l) in s.db.lessons && s.db.lessons[TheoryLesson(l)].status.CANCELLED?
  }

  // ----- Nothing else can -----

  lemma LoserIsNamed(s: State, t: Id, newId: Id, l: Id)
    requires Inv(false, s) && CanCommit(s, t, newId) && Marked(s, l) && Loses(s.txs[t], l)
    ensures Editable(s, l)
    ensures StaleCancel(s, s.txs[t], l) || Picked(s.txs[t], l) || StaleChange(s, s.txs[t], l)
  {
    var tx := s.txs[t];
    assert TxOk(false, s, tx);
    assert Owned(s, s.db.lessons[TheoryLesson(l)]);
    if Picked(tx, l) {
      PickedIsEditable(s, tx, l);
    } else {
      assert tx.op.ChangeTheory? ==> tx.pc.candidate == CandidateOf(s, tx);
    }
  }

  lemma PickedIsEditable(s: State, tx: Tx, l: Id)
    requires RowsOk(s) && ClosedOk(s) && CheckedOk(s, tx) && Marked(s, l) && Picked(tx, l)
    ensures Editable(s, l)
  {
  }

  /** Where a transaction of the next state comes from. */
  ghost predicate ComesFrom(s: State, step: Label, t: Id, tx: Tx) {
    || (step.Begin? && step.t == t && tx.stamp == s.clock && tx.pc.Begun?)
    || (&& t in s.txs && tx.op == s.txs[t].op && tx.org == s.txs[t].org && tx.stamp == s.txs[t].stamp
        && (tx.pc.Cancelling? ==>
              || (s.txs[t].pc.Cancelling? && tx.pc.targets == s.txs[t].pc.targets)
              || (forall r :: r in tx.pc.targets ==> r in s.db.lessons && s.db.lessons[r].start >= s.clock)))
  }

  lemma TransactionsComeFrom(s: State, step: Label)
    requires Enabled(s, step)
    ensures forall t :: t in Next(s, step).txs ==> ComesFrom(s, step, t, Next(s, step).txs[t])
  {
  }

  lemma EditableBefore(s: State, step: Label, l: Id)
    requires Inv(false, s) && Enabled(s, step) && l in s.marks && Editable(Next(s, step), l)
    ensures Editable(s, l) && SameStart(s, Next(s, step), l)
    ensures s.db.lessons[TheoryLesson(l)].org == Next(s, step).db.lessons[TheoryLesson(l)].org
  {
    assert Marked(s, l);
    StepKeepsMarkedStart(s, step, l);
    StepKeepsSlotIff(s, step, l);
    if LosingStep(s, step, l) {
      LoserIsNamed(s, step.t, step.newId, l);
    } else {
      StaysOpenBefore(s, step, s.db.lessons[TheoryLesson(l)].group);
    }
  }

  lemma StaysOpenBefore(s: State, step: Label, g: Id)
    requires Inv(false, s) && Enabled(s, step)
    requires g in Next(s, step).db.groups && Next(s, step).db.groups[g].status.Open()
    requires exists r :: r in s.db.lessons && s.db.lessons[r].Theory? && s.db.lessons[r].group == g
    ensures g in s.db.groups && s.db.groups[g].status.Open()
  {
    StepKeepsInvariant(false, s, step);
    if g in s.closedAt {
      StepSparesClosed(s, step, g);
    }
  }

  lemma NextClock(s: State, step: Label)
    requires Enabled(s, step)
    ensures Next(s, step).clock >= s.clock
  {
  }

  /** No new threat of a cancellation arises: a new request is stamped after the start, a new closing reads after it. */
  lemma StaysUncancellable(s: State, step: Label, l: Id)
    requires Inv(false, s) && Enabled(s, step) && l in s.marks && !MayBeCancelled(s, l)
    ensures !MayBeCancelled(Next(s, step), l)
  {
    var s' := Next(s, step);
    if Editable(s', l) {
      EditableBefore(s, step, l);
      NextClock(s, step);
      assert s.db.lessons[TheoryLesson(l)].start < s.clock;
      TransactionsComeFrom(s, step);
      forall t | t in s'.txs
        ensures !StaleCancel(s', s'.txs[t], l) && !Picked(s'.txs[t], l)
      {
        assert ComesFrom(s, step, t, s'.txs[t]);
      }
    }
  }

  lemma StaysUncancelled(s: State, step: Label, l: Id)
    requires Inv(false, s) && Enabled(s, step) && l in s.marks && !MayBeCancelled(s, l) && !Cancelled(s, l)
    ensures !Cancelled(Next(s, step), l)
  {
    StepKeepsSlotIff(s, step, l);
    if LosingStep(s, step, l) {
      LoserIsNamed(s, step.t, step.newId, l);
      assert s.txs[step.t].pc.candidate == CandidateOf(s, s.txs[step.t]) by {
        assert TxOk(false, s, s.txs[step.t]);
      }
    }
  }

  lemma {:induction false} RunStaysUncancelled(s: State, labels: seq<Label>, l: Id)
    requires Inv(false, s) && Run(s, labels) && l in s.marks && !MayBeCancelled(s, l) && !Cancelled(s, l)
    ensures !Cancelled(After(s, labels), l)
    decreases |labels|
  {
    if labels != [] {
      StaysUncancellable(s, labels[0], l);
      StaysUncancelled(s, labels[0], l);
      StepKeepsMarkedStart(s, labels[0], l);
      StepKeepsInvariant(false, s, labels[0]);
      RunStaysUncancelled(Next(s, labels[0]), labels[1..], l);
    }
  }

  /** The slot is out of danger. */
  ghost predicate Safe(s: State, l: Id) {
    !MayBeCancelled(s, l) && !MayBeChanged(s, l)
  }

  lemma SafeStep(s: State, step: Label, l: Id)
    requires Inv(false, s) && Enabled(s, step) && l in s.marks && Safe(s, l)
    ensures SameSlot(s, Next(s, step), l) && Safe(Next(s, step), l)
  {
    var s' := Next(s, step);
    StepKeepsSlotIff(s, step, l);
    if LosingStep(s, step, l) {
      LoserIsNamed(s, step.t, step.newId, l);
    }
    StaysUncancellable(s, step, l);
    if Editable(s', l) {
      EditableBefore(s, step, l);
      TransactionsComeFrom(s, step);
      forall t | t in s'.txs
        ensures !StaleChange(s', s'.txs[t], l)
      {
        assert ComesFrom(s, step, t, s'.txs[t]);
      }
    }
  }

  /** Once no early request for it is under way and the clock has passed its start, a marked lesson is frozen for good. */
  lemma {:induction false} SafeLessonsAreFrozen(s: State, labels: seq<Label>, l: Id)
    requires Inv(false, s) && Run(s, labels) && l in s.marks && Safe(s, l)
    ensures SameSlot(s, After(s, labels), l)
    decreases |labels|
  {
    assert Marked(s, l);
    if labels != [] {
      SafeStep(s, labels[0], l);
      StepKeepsInvariant(false, s, labels[0]);
      SafeLessonsAreFrozen(Next(s, labels[0]), labels[1..], l);
    }
  }
}
