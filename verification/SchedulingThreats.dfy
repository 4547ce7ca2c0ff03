/** The early requests that may take the slot of a marked lesson really can: runs in which they do. */
module SchedulingThreats {
  import opened Options
  import opened Timetable
  import opened SchedulingProtocol
  import opened SchedulingInvariant
  import opened SchedulingRuns
  import opened SchedulingSafety
  import opened SchedulingAttendance
  import opened SchedulingFreeze
  import opened SchedulingEffects
  import opened SchedulingRequests

  lemma CommitLeads(s: State, last: State, t: Id, newId: Id)
    requires OwnLeads(s, last, t) && CanCommit(last, t, newId)
    ensures Leads(s, Committed(last, t, newId))
  {
    var labels :| Ends(s, labels, last) && OwnSteps(labels, t);
    assert Steps(last, Commit(t, newId), Committed(last, t, newId));
    LeadsNowhere(Committed(last, t, newId));
    LeadsOn(last, Commit(t, newId), Committed(last, t, newId), Committed(last, t, newId));
    LeadsThrough(s, last, Committed(last, t, newId));
  }

  lemma EditableIsTheoryAt(s: State, l: Id)
    requires Inv(false, s) && Editable(s, l)
    ensures TheoryAt(s, s.db.lessons[TheoryLesson(l)].org, l)
  {
    assert Owned(s, s.db.lessons[TheoryLesson(l)]);
  }

  // ----- A stale cancellation -----

  lemma StaleCancelSucceeds(s: State, t: Id, l: Id) returns (end: State)
    requires Inv(false, s) && Alone(s, t) && Editable(s, l) && StaleCancel(s, s.txs[t], l)
    ensures Leads(s, end) && Cancelled(end, l)
  {
    EditableIsTheoryAt(s, l);
    var last, newId := AllowedComesToCommit(s, t);
    CancelWrites(last, t, newId, TheoryLesson(l));
    CommitLeads(s, last, t, newId);
    end := Committed(last, t, newId);
  }

  // ----- A closing that has picked the lesson, or is about to -----

  lemma ClosingCancels(s: State, t: Id, newId: Id, l: Id)
    requires Inv(false, s) && CanCommit(s, t, newId) && s.txs[t].pc.Cancelling? && Editable(s, l)
    requires Closing(s.txs[t].op) && s.txs[t].op.group == s.db.lessons[TheoryLesson(l)].group
    requires s.txs[t].pc.now <= s.db.lessons[TheoryLesson(l)].start
    ensures Cancelled(Committed(s, t, newId), l)
  {
    CloseWrites(s, t, newId, s.txs[t].op.group, s.txs[t].op.next);
  }

  lemma PickedIsAllowed(s: State, t: Id, l: Id)
    requires Inv(false, s) && Alone(s, t) && l in s.marks && Picked(s.txs[t], l)
    ensures Permitted(s, t) && Editable(s, l) && Closing(s.txs[t].op)
    ensures s.txs[t].op.group == s.db.lessons[TheoryLesson(l)].group
    ensures s.txs[t].pc.now <= s.db.lessons[TheoryLesson(l)].start
  {
    assert TxOk(false, s, s.txs[t]);
    PickedIsEditable(s, s.txs[t], l);
  }

  lemma PickedClosingSucceeds(s: State, t: Id, l: Id) returns (end: State)
    requires Inv(false, s) && Alone(s, t) && l in s.marks && Picked(s.txs[t], l)
    ensures Leads(s, end) && Cancelled(end, l)
  {
    PickedIsAllowed(s, t, l);
    var last, newId := AllowedComesToCommit(s, t);
    ClosingCancels(last, t, newId, l);
    CommitLeads(s, last, t, newId);
    end := Committed(last, t, newId);
  }

  lemma EarlyClosingSucceeds(s: State, t: Id, l: Id) returns (end: State)
    requires Permitted(s, t) && Closing(s.txs[t].op) && s.txs[t].pc.Begun? && Editable(s, l)
    requires s.txs[t].op.group == s.db.lessons[TheoryLesson(l)].group && s.clock <= s.db.lessons[TheoryLesson(l)].start
    ensures Leads(s, end) && Cancelled(end, l)
  {
    var last, newId := AllowedComesToCommit(s, t);
    ClosingCancels(last, t, newId, l);
    CommitLeads(s, last, t, newId);
    end := Committed(last, t, newId);
  }

  lemma ArchivingIsReceived(s: State, l: Id, org: Id, op: Op, first: State)
    requires Inv(false, s) && Editable(s, l) && s.clock == s.db.lessons[TheoryLesson(l)].start && s.txs == map[]
    requires org == s.db.lessons[TheoryLesson(l)].org && op == ChangeGroupStatus(s.db.lessons[TheoryLesson(l)].group, Archived)
    requires first == Received(s, 0, org, op)
    ensures Steps(s, Begin(0, org, op), first) && Permitted(first, 0) && first.txs[0] == Tx(org, s.clock, op, Begun, None, {})
    ensures Editable(first, l) && first == s.(txs := first.txs)
  {
    EditableIsTheoryAt(s, l);
    ReceivedIsPermitted(s, 0, org, op);
  }

  /** At the very moment the lesson starts, a new request may archive its group. */
  lemma ArchivingSucceeds(s: State, l: Id) returns (end: State)
    requires Inv(false, s) && Editable(s, l) && s.clock == s.db.lessons[TheoryLesson(l)].start && s.txs == map[]
    ensures Leads(s, end) && Cancelled(end, l)
  {
    var org := s.db.lessons[TheoryLesson(l)].org;
    var op := ChangeGroupStatus(s.db.lessons[TheoryLesson(l)].group, Archived);
    var first := Received(s, 0, org, op);
    ArchivingIsReceived(s, l, org, op, first);
    end := EarlyClosingSucceeds(first, 0, l);
    LeadsOn(s, Begin(0, org, op), first, end);
  }

  // ----- A stale change of the duration -----

  ghost predicate Moved(s: State, s': State, l: Id) {
    Marked(s, l) && TheoryLesson(l) in s'.db.lessons && s'.db.lessons[TheoryLesson(l)] != s.db.lessons[TheoryLesson(l)]
  }

  lemma StaleChangeSucceeds(s: State, t: Id, l: Id) returns (end: State)
    requires Permitted(s, t) && Editable(s, l) && StaleChange(s, s.txs[t], l)
    ensures Leads(s, end) && Moved(s, end, l)
  {
    var last, newId := AllowedComesToCommit(s, t);
    ChangeTheoryWrites(last, t, newId, l, s.txs[t].op.newStart, s.txs[t].op.newDur);
    CommitLeads(s, last, t, newId);
    end := Committed(last, t, newId);
  }

  // ----- Exactly when a marked lesson can still lose its slot -----

  ghost predicate SomeRunCancels(s: State, l: Id) {
    exists end :: Leads(s, end) && Cancelled(end, l)
  }

  ghost predicate SomeRunMoves(s: State, l: Id) {
    exists end :: Leads(s, end) && Moved(s, end, l)
  }

  lemma LeadsToSound(s: State, s': State)
    requires Inv(false, s) && Leads(s, s')
    ensures Inv(false, s')
  {
    var labels :| Ends(s, labels, s');
    RunKeepsInvariant(false, s, labels);
  }

  lemma OnlyOneIsAlone(s: State, t: Id)
    requires t in s.txs
    ensures Alone(Only(s, {t}), t) && Only(s, {t}).txs[t] == s.txs[t] && Only(s, {}).txs == map[]
  {
  }

  lemma ThreatsSucceed(s: State, l: Id)
    requires Inv(false, s) && l in s.marks && MayBeCancelled(s, l)
    ensures SomeRunCancels(s, l)
  {
    var end: State;
    if t :| t in s.txs && (StaleCancel(s, s.txs[t], l) || Picked(s.txs[t], l)) {
      var alone := Only(s, {t});
      OnlyOneIsAlone(s, t);
      OthersMayAbort(s, {t});
      LeadsToSound(s, alone);
      if Picked(s.txs[t], l) {
        end := PickedClosingSucceeds(alone, t, l);
      } else {
        end := StaleCancelSucceeds(alone, t, l);
      }
      LeadsThrough(s, alone, end);
    } else {
      var empty := Only(s, {});
      assert empty.txs == map[];
      OthersMayAbort(s, {});
      LeadsToSound(s, empty);
      end := ArchivingSucceeds(empty, l);
      LeadsThrough(s, empty, end);
    }
  }

  /**
   * Some run cancels a marked lesson exactly when it is still SCHEDULED in an open group and a cancellation received
   * before its start is under way, or a closing has picked it, or its start is this very moment.
   */
  lemma MarkedLessonCancellableIff(s: State, l: Id)
    requires Inv(false, s) && l in s.marks && !Cancelled(s, l)
    ensures SomeRunCancels(s, l) <==> MayBeCancelled(s, l)
  {
    if MayBeCancelled(s, l) {
      ThreatsSucceed(s, l);
    } else if end :| Leads(s, end) && Cancelled(end, l) {
      var labels :| Ends(s, labels, end);
      RunStaysUncancelled(s, labels, l);
      assert false;
    }
  }

  /** A change received before the start is under way and allowed as things stand; its duration may be taken over. */
  ghost predicate MayBeChangedNow(s: State, l: Id) {
    && Editable(s, l)
    && exists t :: t in s.txs && StaleChange(s, s.txs[t], l) && Allowed(s, s.txs[t].org, s.txs[t].stamp, s.txs[t].op)
  }

  lemma FittingChangeSucceeds(s: State, l: Id)
    requires Inv(false, s) && l in s.marks && MayBeChangedNow(s, l)
    ensures SomeRunMoves(s, l)
  {
    var t :| t in s.txs && StaleChange(s, s.txs[t], l) && Allowed(s, s.txs[t].org, s.txs[t].stamp, s.txs[t].op);
    var alone := Only(s, {t});
    OnlyOneIsAlone(s, t);
    OthersMayAbort(s, {t});
    LeadsToSound(s, alone);
    AllowedIgnoresTxs(s, alone, s.txs[t].org, s.txs[t].stamp, s.txs[t].op);
    var end := StaleChangeSucceeds(alone, t, l);
    LeadsThrough(s, alone, end);
    assert Moved(s, end, l);
  }

  lemma CancellationMoves(s: State, l: Id)
    requires Inv(false, s) && l in s.marks && MayBeCancelled(s, l)
    ensures SomeRunMoves(s, l)
  {
    ThreatsSucceed(s, l);
    var end :| Leads(s, end) && Cancelled(end, l);
    assert Moved(s, end, l);
  }

  lemma OnlyThreatsMove(s: State, l: Id)
    requires Inv(false, s) && l in s.marks && SomeRunMoves(s, l)
    ensures MayBeCancelled(s, l) || MayBeChanged(s, l)
  {
    if Safe(s, l) {
      var end :| Leads(s, end) && Moved(s, end, l);
      var labels :| Ends(s, labels, end);
      SafeLessonsAreFrozen(s, labels, l);
      assert false;
    }
  }

  /**
   * Some run changes a marked lesson's row exactly when it may be cancelled, or a change of its duration received
   * before its start is under way and finds its slot free. A change that finds it taken may have to wait for others.
   */
  lemma MarkedSlotLosableIff(s: State, l: Id)
    requires Inv(false, s) && l in s.marks && (MayBeChanged(s, l) ==> MayBeChangedNow(s, l))
    ensures SomeRunMoves(s, l) <==> MayBeCancelled(s, l) || MayBeChangedNow(s, l)
  {
    if MayBeChangedNow(s, l) {
      FittingChangeSucceeds(s, l);
    }
    if MayBeCancelled(s, l) {
      CancellationMoves(s, l);
    }
    if SomeRunMoves(s, l) {
      OnlyThreatsMove(s, l);
    }
  }
}
