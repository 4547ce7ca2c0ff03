/** Every statement of a transaction, short of its commit, keeps the scheduling invariant. */
module SchedulingSteps {
  import opened Options
  import opened Timetable
  import opened ScheduleConflicts
  import opened ScheduleLock
  import opened SchedulingProtocol
  import opened SchedulingInvariant

  lemma BeginKeeps(linked: bool, s: State, t: Id, org: Id, op: Op)
    requires Inv(linked, s) && CanBegin(s, t, op)
    ensures Inv(linked, WithTx(s, t, Tx(org, s.clock, op, Begun, None, {})))
  {
    LocalStep(linked, s, t, Tx(org, s.clock, op, Begun, None, {}));
  }

  lemma EndedHasFewer(s: State, t: Id)
    ensures var s' := Ended(s, t);
      && s'.db == s.db && s'.owner == s.owner && s'.clock == s.clock && s'.marks == s.marks && s'.closedAt == s.closedAt
      && s'.txs.Keys <= s.txs.Keys && forall u :: u in s'.txs ==> s'.txs[u] == s.txs[u]
  {
  }

  lemma AbortKeeps(linked: bool, s: State, t: Id)
    requires Inv(linked, s)
    ensures Inv(linked, Ended(s, t))
  {
    EndedHasFewer(s, t);
    FewerTransactions(linked, s, Ended(s, t));
  }

  lemma TickKeeps(linked: bool, s: State)
    requires Inv(linked, s)
    ensures Inv(linked, Ticked(s))
  {
    FewerTransactions(linked, s, Ticked(s));
  }

  lemma LockGroupKeeps(linked: bool, s: State, t: Id)
    requires Inv(linked, s) && CanLockGroup(s, t)
    ensures Inv(linked, WithTx(s, t, GroupLocked(s, s.txs[t])))
  {
    var tx := s.txs[t];
    var tx' := GroupLocked(s, tx);
    assert TxOk(linked, s, tx);
    assert HeldOk(tx');
    assert TargetOk(s, tx');
    TakeAvailable(s, t, tx', GroupLock(tx'.group.value));
    LocalStep(linked, s, t, tx');
  }

  lemma LockLessonKeeps(linked: bool, s: State, t: Id)
    requires Inv(linked, s) && CanLockLesson(s, t)
    ensures Inv(linked, WithTx(s, t, LessonLocked(s.txs[t])))
  {
    var tx := s.txs[t];
    var tx' := LessonLocked(tx);
    assert TxOk(linked, s, tx);
    assert HeldOk(tx');
    assert TargetOk(s, tx');
    TakeAvailable(s, t, tx', LessonLock(LessonOf(tx.op).value));
    LocalStep(linked, s, t, tx');
  }

  lemma ValidateSlotKeeps(linked: bool, s: State, t: Id, memberOf: seq<Id>)
    requires Inv(linked, s) && CanValidate(s, t, memberOf) && NeedsSlot(s.txs[t].op)
    ensures Inv(linked, WithTx(s, t, Checked(s, s.txs[t], memberOf)))
  {
    var tx := s.txs[t];
    assert TxOk(linked, s, tx);
    var tx' := Checked(s, tx, memberOf);
    LockOrderIsStrict(KeysFor(s, CandidateOf(s, tx), memberOf));
    CandidateIsOk(linked, s, tx, memberOf);
    assert HeldOk(tx');
    assert TargetOk(s, tx');
    assert CheckedOk(s, tx');
    LocalStep(linked, s, t, tx');
  }

  lemma ValidateOtherKeeps(linked: bool, s: State, t: Id, memberOf: seq<Id>)
    requires Inv(linked, s) && CanValidate(s, t, memberOf) && !NeedsSlot(s.txs[t].op)
    ensures Inv(linked, WithTx(s, t, Checked(s, s.txs[t], memberOf)))
  {
    var tx := s.txs[t];
    assert TxOk(linked, s, tx);
    var tx' := Checked(s, tx, memberOf);
    assert HeldOk(tx') && TargetOk(s, tx');
    assert CheckedOk(s, tx');
    LocalStep(linked, s, t, tx');
  }

  lemma ValidateKeeps(linked: bool, s: State, t: Id, memberOf: seq<Id>)
    requires Inv(linked, s) && CanValidate(s, t, memberOf)
    ensures Inv(linked, WithTx(s, t, Checked(s, s.txs[t], memberOf)))
  {
    if NeedsSlot(s.txs[t].op) {
      ValidateSlotKeeps(linked, s, t, memberOf);
    } else {
      ValidateOtherKeeps(linked, s, t, memberOf);
    }
  }

  lemma CandidateIsOk(linked: bool, s: State, tx: Tx, memberOf: seq<Id>)
    requires RowsOk(s) && TargetOk(s, tx) && HeldOk(tx) && NeedsSlot(tx.op)
    requires Accepts(s, tx) && ListsGroups(s, CandidateOf(s, tx), memberOf)
    ensures CandidateOk(linked, s, Checked(s, tx, memberOf))
  {
    var c := CandidateOf(s, tx);
    LockOrderIsStrict(KeysFor(s, c, memberOf));
    var tx' := Checked(s, tx, memberOf);
    forall k | Needs(linked, s.db, c, k)
      ensures k in tx'.pc.todo
    {
      KeysCoverNeeds(linked, s, c, memberOf, k);
    }
    assert CandidateOf(s, tx') == c;
    assert c.LegalDuration();
  }

  lemma KeysCoverNeeds(linked: bool, s: State, c: Row, memberOf: seq<Id>, k: Key)
    requires Needs(linked, s.db, c, k) && ListsGroups(s, c, memberOf)
    ensures k in KeysFor(s, c, memberOf)
  {
    var keys := KeysFor(s, c, memberOf);
    match c
    case Theory(_, g, _, _, _) =>
      assert keys[|keys| - 1] == GroupKey(g);
      if k != GroupKey(g) {
        assert keys[0] == k;
      }
    case Practice(_, i, car, student, _, _, _) =>
      var front := [Instructor(i)] + (if car.Some? then [Car(car.value)] else []) + [Student(student)];
      assert front <= keys;
      assert keys[0] == Instructor(i) && keys[|front| - 1] == Student(student) && (car.Some? ==> keys[1] == Car(car.value));
      if k.GroupKey? {
        assert (k.id, student) in s.db.active;
        var n :| 0 <= n < |memberOf| && memberOf[n] == k.id;
        assert keys[|front| + n] == k;
      }
  }

  lemma LockNextKeyKeeps(linked: bool, s: State, t: Id)
    requires Inv(linked, s) && CanLockNextKey(s, t)
    ensures Inv(linked, WithTx(s, t, KeyLocked(s.txs[t])))
  {
    var tx := s.txs[t];
    assert TxOk(linked, s, tx);
    var todo := tx.pc.todo;
    var tx' := KeyLocked(tx);
    assert todo == [todo[0]] + todo[1..];
    assert HeldOk(tx');
    assert CandidateOf(s, tx') == CandidateOf(s, tx);
    assert CandidateOk(linked, s, tx');
    TakeAvailable(s, t, tx', KeyLock(todo[0]));
    LocalStep(linked, s, t, tx');
  }

  lemma OwnOrganizationIsEnough(linked: bool, s: State, tx: Tx, c: Row, ownKind: bool)
    requires RowsOk(s) && LinksOk(s) && Owned(s, c)
    requires if ownKind then OwnKindClear(s.db, Self(tx.op), c) else OtherKindClear(s.db, c)
    ensures ClearOf(linked, s, tx, c, ownKind)
  {
  }

  lemma SearchOwnKindKeeps(linked: bool, s: State, t: Id)
    requires Inv(linked, s) && CanSearchOwnKind(s, t)
    ensures Inv(linked, WithTx(s, t, s.txs[t].(pc := HalfSearched(s.txs[t].pc.candidate))))
  {
    var tx := s.txs[t];
    assert TxOk(linked, s, tx);
    var tx' := tx.(pc := HalfSearched(tx.pc.candidate));
    OwnOrganizationIsEnough(linked, s, tx, tx.pc.candidate, true);
    assert HeldOk(tx');
    assert CandidateOf(s, tx') == CandidateOf(s, tx);
    LocalStep(linked, s, t, tx');
  }

  lemma SearchOtherKindKeeps(linked: bool, s: State, t: Id)
    requires Inv(linked, s) && CanSearchOtherKind(s, t)
    ensures Inv(linked, WithTx(s, t, s.txs[t].(pc := Clear(s.txs[t].pc.candidate))))
  {
    var tx := s.txs[t];
    assert TxOk(linked, s, tx);
    var tx' := tx.(pc := Clear(tx.pc.candidate));
    OwnOrganizationIsEnough(linked, s, tx, tx.pc.candidate, false);
    assert HeldOk(tx');
    assert CandidateOf(s, tx') == CandidateOf(s, tx);
    LocalStep(linked, s, t, tx');
  }

  lemma EndEnrollmentsKeeps(linked: bool, s: State, t: Id)
    requires Inv(linked, s) && CanEndEnrollments(s, t)
    ensures Inv(linked, WithTx(s, t, EnrollmentsEnded(s, s.txs[t])))
  {
    assert TxOk(linked, s, s.txs[t]);
    LocalStep(linked, s, t, EnrollmentsEnded(s, s.txs[t]));
  }

  lemma PickLessonsKeeps(linked: bool, s: State, t: Id)
    requires Inv(linked, s) && CanPickLessons(s, t)
    ensures Inv(linked, WithTx(s, t, LessonsPicked(s, s.txs[t])))
  {
    assert TxOk(linked, s, s.txs[t]);
    LocalStep(linked, s, t, LessonsPicked(s, s.txs[t]));
  }

  lemma LockPickedKeeps(linked: bool, s: State, t: Id, r: Ref)
    requires Inv(linked, s) && CanLockPicked(s, t, r)
    ensures Inv(linked, WithTx(s, t, s.txs[t].(held := s.txs[t].held + {LessonLock(r)})))
  {
    var tx := s.txs[t];
    assert TxOk(linked, s, tx);
    var tx' := tx.(held := tx.held + {LessonLock(r)});
    TakeAvailable(s, t, tx', LessonLock(r));
    LocalStep(linked, s, t, tx');
  }
}
