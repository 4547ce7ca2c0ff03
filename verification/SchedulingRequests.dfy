/** Exactly when a request goes through that nobody else interferes with. */
module SchedulingRequests {
  import opened Options
  import opened Timetable
  import opened ScheduleConflicts
  import opened SchedulingProtocol
  import opened SchedulingInvariant
  import opened SchedulingRuns
  import opened SchedulingSafety

  // ----- What the school allows -----

  predicate OpenFor(s: State, org: Id, g: Id) {
    g in s.db.groups && s.db.groups[g].org == org && (s.db.groups[g].status == Planned || s.db.groups[g].status == Active)
  }

  predicate Duration(dur: int) {
    15 <= dur <= 240
  }

  /** No other lesson of the school stands in the way of the row. */
  ghost predicate Free(s: State, self: Option<Ref>, row: Row) {
    forall r :: r in s.db.lessons && Some(r) != self && s.db.lessons[r].org == row.org ==> !Clash(true, s.db, row, s.db.lessons[r])
  }

  /** A theory lesson of the school, in a group still open. */
  ghost predicate TheoryAt(s: State, org: Id, l: Id) {
    && TheoryLesson(l) in s.db.lessons && s.db.lessons[TheoryLesson(l)].Theory? && s.db.lessons[TheoryLesson(l)].org == org
    && OpenFor(s, org, s.db.lessons[TheoryLesson(l)].group)
  }

  ghost predicate PracticeAt(s: State, org: Id, l: Id) {
    PracticeLesson(l) in s.db.lessons && s.db.lessons[PracticeLesson(l)].Practice? && s.db.lessons[PracticeLesson(l)].org == org
  }

  predicate People(s: State, org: Id, instructor: Id, car: Id, student: Id) {
    s.owner(Instructor(instructor)) == org && s.owner(Car(car)) == org && s.owner(Student(student)) == org
  }

  /** The request, received at `stamp`, is one the school allows. */
  ghost predicate Allowed(s: State, org: Id, stamp: int, op: Op) {
    match op
    case CreateTheory(g, start, dur) =>
      OpenFor(s, org, g) && stamp < start && Duration(dur) && Free(s, None, Theory(org, g, start, dur, SCHEDULED))
    case CreatePractice(student, i, c, start, dur) =>
      && People(s, org, i, c, student) && stamp < start && Duration(dur)
      && Free(s, None, Practice(org, i, Some(c), student, start, dur, SCHEDULED))
    case ChangeTheory(l, newStart, newDur) =>
      && TheoryAt(s, org, l)
      && var row := s.db.lessons[TheoryLesson(l)];
      && var start, dur := if newStart.Some? then newStart.value else row.start, if newDur.Some? then newDur.value else row.dur;
      && row.status == SCHEDULED && stamp < start && Duration(dur)
      && (start != row.start || dur != row.dur) && (start != row.start ==> l !in s.marks)
      && Free(s, Some(TheoryLesson(l)), Theory(org, row.group, start, dur, SCHEDULED))
    case CancelTheory(l) =>
      TheoryAt(s, org, l) && s.db.lessons[TheoryLesson(l)].status == SCHEDULED && stamp < s.db.lessons[TheoryLesson(l)].start
    case MarkAttendance(l) =>
      TheoryAt(s, org, l) && s.db.lessons[TheoryLesson(l)].status != CANCELLED && s.db.lessons[TheoryLesson(l)].start <= stamp
    case ChangePractice(l, newStart, newDur, newInstructor, newCar, profileCar) =>
      && PracticeAt(s, org, l)
      && var row := s.db.lessons[PracticeLesson(l)];
      && var start, dur := if newStart.Some? then newStart.value else row.start, if newDur.Some? then newDur.value else row.dur;
      && var i := if newInstructor.Some? then newInstructor.value else row.instructor;
      && var car := if newCar.Some? then newCar else if row.car.Some? then row.car else profileCar;
      && row.status == SCHEDULED && stamp < start && Duration(dur)
      && car.Some? && People(s, org, i, car.value, row.student)
      && (start != row.start || dur != row.dur || i != row.instructor || car != row.car)
      && (row.car == None ==> newStart.Some? || newDur.Some? || newInstructor.Some? || newCar.Some?)
      && Free(s, Some(PracticeLesson(l)), Practice(org, i, car, row.student, start, dur, SCHEDULED))
    case CancelPractice(l) =>
      PracticeAt(s, org, l) && s.db.lessons[PracticeLesson(l)].status == SCHEDULED && stamp < s.db.lessons[PracticeLesson(l)].start
    case ChangeGroupStatus(g, next) =>
      && g in s.db.groups && s.db.groups[g].org == org
      && (|| (s.db.groups[g].status == Planned && (next == Active || next == Archived))
          || (s.db.groups[g].status == Active && (next == Completed || next == Archived))
          || (s.db.groups[g].status == Completed && next == Archived))
    case Enroll(g, student) => OpenFor(s, org, g) && s.owner(Student(student)) == org
  }

  // ----- A transaction on its own -----

  ghost predicate Alone(s: State, t: Id) {
    s.txs.Keys == {t}
  }

  lemma AloneAdvances(s: State, t: Id, tx: Tx)
    requires Alone(s, t)
    ensures Alone(WithTx(s, t, tx), t) && WithTx(s, t, tx).txs[t] == tx
  {
  }

  lemma Sound(s: State, step: Label, s': State)
    requires Inv(false, s) && Steps(s, step, s')
    ensures Inv(false, s')
  {
    StepKeepsInvariant(false, s, step);
  }

  /** A step of the transaction itself, other than giving up and committing. */
  predicate OwnStep(l: Label, t: Id) {
    && (l.LockGroup? || l.LockLesson? || l.Validate? || l.LockNextKey? || l.SearchOwnKind? || l.SearchOtherKind?
        || l.EndEnrollments? || l.PickLessons? || l.LockPicked?)
    && l.t == t
  }

  /** One step of its own later: the same world and request, with less left to do. */
  ghost predicate Advanced(s: State, s': State, t: Id) {
    && Alone(s, t) && Alone(s', t) && s' == s.(txs := s'.txs)
    && s'.txs[t].op == s.txs[t].op && s'.txs[t].org == s.txs[t].org && s'.txs[t].stamp == s.txs[t].stamp
    && (s.txs[t].pc.Cancelling? ==> s'.txs[t].pc.Cancelling?)
    && (s'.txs[t].pc.Cancelling? ==> s'.txs[t].pc.now == if s.txs[t].pc.Cancelling? then s.txs[t].pc.now else s.clock)
  }

  function Stage(pc: Pc): nat {
    match pc
    case Begun => 8
    case GroupHeld => 7
    case LessonHeld => 6
    case Locking(_, _) => 5
    case HalfSearched(_) => 4
    case Clear(_) => 3
    case Approved => 3
    case Ending(_) => 2
    case Cancelling(_, _, _) => 1
  }

  ghost function Unlocked(tx: Tx): set<Ref> {
    if tx.pc.Cancelling? then set r | r in tx.pc.targets && LessonLock(r) !in tx.held else {}
  }

  ghost function Left(tx: Tx): nat {
    if tx.pc.Locking? then |tx.pc.todo| else |Unlocked(tx)|
  }

  ghost predicate Closer(s: State, s': State, t: Id)
    requires t in s.txs && t in s'.txs
  {
    || Stage(s'.txs[t].pc) < Stage(s.txs[t].pc)
    || (Stage(s'.txs[t].pc) == Stage(s.txs[t].pc) && Left(s'.txs[t]) < Left(s.txs[t]))
  }

  ghost predicate Closing(op: Op) {
    op.ChangeGroupStatus? && !op.next.Open()
  }

  /** Only the commit is left. */
  ghost predicate Ready(tx: Tx) {
    || tx.pc.Clear?
    || (tx.pc.Approved? && !Closing(tx.op))
    || (tx.pc.Cancelling? && Unlocked(tx) == {})
  }

  ghost predicate Permitted(s: State, t: Id) {
    Inv(false, s) && Alone(s, t) && Allowed(s, s.txs[t].org, s.txs[t].stamp, s.txs[t].op)
  }

  lemma AllowedIgnoresTxs(s: State, s': State, org: Id, stamp: int, op: Op)
    requires s' == s.(txs := s'.txs)
    ensures Allowed(s, org, stamp, op) <==> Allowed(s', org, stamp, op)
  {
    assert forall self, row :: Free(s, self, row) <==> Free(s', self, row);
  }

  lemma StillPermitted(s: State, step: Label, s': State, t: Id)
    requires Permitted(s, t) && Steps(s, step, s') && Advanced(s, s', t)
    ensures Permitted(s', t)
  {
    Sound(s, step, s');
    AllowedIgnoresTxs(s, s', s.txs[t].org, s.txs[t].stamp, s.txs[t].op);
  }

  lemma AdvancedThrough(s: State, mid: State, s': State, t: Id)
    requires Advanced(s, mid, t) && Advanced(mid, s', t)
    ensures Advanced(s, s', t)
  {
  }

  // ----- Every step but the last -----

  lemma LocksGroup(s: State, t: Id) returns (s': State)
    requires Permitted(s, t) && s.txs[t].pc.Begun? && NamesGroup(s.txs[t].op)
    ensures Steps(s, LockGroup(t), s') && Advanced(s, s', t) && Closer(s, s', t)
  {
    assert TxOk(false, s, s.txs[t]);
    s' := WithTx(s, t, GroupLocked(s, s.txs[t]));
    AloneAdvances(s, t, GroupLocked(s, s.txs[t]));
  }

  lemma LocksLesson(s: State, t: Id) returns (s': State)
    requires Permitted(s, t) && LessonOf(s.txs[t].op).Some?
    requires if NamesGroup(s.txs[t].op) then s.txs[t].pc.GroupHeld? else s.txs[t].pc.Begun?
    ensures Steps(s, LockLesson(t), s') && Advanced(s, s', t) && Closer(s, s', t)
  {
    s' := WithTx(s, t, LessonLocked(s.txs[t]));
    AloneAdvances(s, t, LessonLocked(s.txs[t]));
  }

  /** The checks are made once every row lock is held. */
  predicate AtChecks(tx: Tx) {
    if LessonOf(tx.op).Some? then tx.pc.LessonHeld? else if NamesGroup(tx.op) then tx.pc.GroupHeld? else tx.pc.Begun?
  }

  lemma AllowedIsAccepted(s: State, t: Id)
    requires Permitted(s, t) && AtChecks(s.txs[t])
    ensures Accepts(s, s.txs[t])
  {
    assert TxOk(false, s, s.txs[t]);
  }

  lemma {:induction false} SomeListing(active: set<(Id, Id)>, student: Id) returns (groups: seq<Id>)
    ensures forall p :: p in active && p.1 == student ==> p.0 in groups
    ensures forall g :: g in groups ==> (g, student) in active
    decreases active
  {
    groups := [];
    if p :| p in active {
      groups := SomeListing(active - {p}, student);
      if p.1 == student {
        groups := [p.0] + groups;
        assert (p.0, student) == p;
      }
      assert forall q :: q in active ==> q == p || q in active - {p};
    }
  }

  lemma SomeGroupList(s: State, c: Row) returns (groups: seq<Id>)
    ensures ListsGroups(s, c, groups)
  {
    groups := [];
    if c.Practice? {
      groups := SomeListing(s.db.active, c.student);
    }
  }

  lemma IsChecked(s: State, t: Id) returns (step: Label, s': State)
    requires Permitted(s, t) && AtChecks(s.txs[t])
    ensures OwnStep(step, t) && Steps(s, step, s') && Advanced(s, s', t) && Closer(s, s', t)
  {
    AllowedIsAccepted(s, t);
    var groups := SomeGroupList(s, CandidateOf(s, s.txs[t]));
    step := Validate(t, groups);
    s' := WithTx(s, t, Checked(s, s.txs[t], groups));
    AloneAdvances(s, t, Checked(s, s.txs[t], groups));
  }

  lemma LocksKey(s: State, t: Id) returns (s': State)
    requires Permitted(s, t) && s.txs[t].pc.Locking? && s.txs[t].pc.todo != []
    ensures Steps(s, LockNextKey(t), s') && Advanced(s, s', t) && Closer(s, s', t)
  {
    s' := WithTx(s, t, KeyLocked(s.txs[t]));
    AloneAdvances(s, t, KeyLocked(s.txs[t]));
  }

  /** The candidate is the row the request is allowed to write. */
  lemma CandidateIsFree(s: State, t: Id)
    requires Permitted(s, t) && s.txs[t].pc.HasCandidate()
    ensures var c := s.txs[t].pc.candidate; c == CandidateOf(s, s.txs[t]) && Free(s, Self(s.txs[t].op), c)
  {
    assert TxOk(false, s, s.txs[t]);
  }

  lemma SearchesOwn(s: State, t: Id) returns (s': State)
    requires Permitted(s, t) && s.txs[t].pc.Locking? && s.txs[t].pc.todo == []
    ensures Steps(s, SearchOwnKind(t), s') && Advanced(s, s', t) && Closer(s, s', t)
  {
    CandidateIsFree(s, t);
    s' := WithTx(s, t, s.txs[t].(pc := HalfSearched(s.txs[t].pc.candidate)));
    AloneAdvances(s, t, s'.txs[t]);
  }

  lemma SearchesOther(s: State, t: Id) returns (s': State)
    requires Permitted(s, t) && s.txs[t].pc.HalfSearched?
    ensures Steps(s, SearchOtherKind(t), s') && Advanced(s, s', t) && Closer(s, s', t)
  {
    CandidateIsFree(s, t);
    assert TxOk(false, s, s.txs[t]);
    s' := WithTx(s, t, s.txs[t].(pc := Clear(s.txs[t].pc.candidate)));
    AloneAdvances(s, t, s'.txs[t]);
  }

  lemma EndsEnrollments(s: State, t: Id) returns (s': State)
    requires Permitted(s, t) && s.txs[t].pc.Approved? && Closing(s.txs[t].op)
    ensures Steps(s, EndEnrollments(t), s') && Advanced(s, s', t) && Closer(s, s', t)
  {
    s' := WithTx(s, t, EnrollmentsEnded(s, s.txs[t]));
    AloneAdvances(s, t, EnrollmentsEnded(s, s.txs[t]));
  }

  lemma PicksLessons(s: State, t: Id) returns (s': State)
    requires Permitted(s, t) && s.txs[t].pc.Ending?
    ensures Steps(s, PickLessons(t), s') && Advanced(s, s', t) && Closer(s, s', t)
  {
    assert TxOk(false, s, s.txs[t]);
    s' := WithTx(s, t, LessonsPicked(s, s.txs[t]));
    AloneAdvances(s, t, LessonsPicked(s, s.txs[t]));
  }

  lemma LocksPicked(s: State, t: Id, r: Ref) returns (s': State)
    requires Permitted(s, t) && r in Unlocked(s.txs[t])
    ensures Steps(s, LockPicked(t, r), s') && Advanced(s, s', t) && Closer(s, s', t)
  {
    var tx := s.txs[t].(held := s.txs[t].held + {LessonLock(r)});
    s' := WithTx(s, t, tx);
    AloneAdvances(s, t, tx);
    assert Unlocked(tx) == Unlocked(s.txs[t]) - {r};
  }

  lemma Advances(s: State, t: Id) returns (step: Label, s': State)
    requires Permitted(s, t) && !Ready(s.txs[t])
    ensures OwnStep(step, t) && Steps(s, step, s') && Advanced(s, s', t) && Closer(s, s', t)
  {
    var tx := s.txs[t];
    assert TxOk(false, s, tx);
    if AtChecks(tx) {
      step, s' := IsChecked(s, t);
    } else {
      match tx.pc
      case Begun =>
        if NamesGroup(tx.op) {
          step := LockGroup(t);
          s' := LocksGroup(s, t);
        } else {
          step := LockLesson(t);
          s' := LocksLesson(s, t);
        }
      case GroupHeld =>
        step := LockLesson(t);
        s' := LocksLesson(s, t);
      case Locking(todo, _) =>
        if todo == [] {
          step := SearchOwnKind(t);
          s' := SearchesOwn(s, t);
        } else {
          step := LockNextKey(t);
          s' := LocksKey(s, t);
        }
      case HalfSearched(_) =>
        step := SearchOtherKind(t);
        s' := SearchesOther(s, t);
      case Approved =>
        step := EndEnrollments(t);
        s' := EndsEnrollments(s, t);
      case Ending(_) =>
        step := PickLessons(t);
        s' := PicksLessons(s, t);
      case Cancelling(_, _, _) =>
        var r :| r in Unlocked(tx);
        step := LockPicked(t, r);
        s' := LocksPicked(s, t, r);
    }
  }

  // ----- The commit -----

  lemma {:induction false} SomeFreshId(taken: set<Ref>) returns (n: Id)
    ensures forall r :: r in taken ==> r.id < n
    decreases taken
  {
    if r :| r in taken {
      n := SomeFreshId(taken - {r});
      n := if r.id < n then n else r.id + 1;
      assert forall q :: q in taken ==> q == r || q in taken - {r};
    } else {
      n := 0;
    }
  }

  lemma ReadyMayCommit(s: State, t: Id) returns (newId: Id)
    requires Permitted(s, t) && Ready(s.txs[t])
    ensures CanCommit(s, t, newId)
  {
    newId := SomeFreshId(s.db.lessons.Keys);
    assert TxOk(false, s, s.txs[t]);
    assert forall r :: r in s.db.lessons.Keys ==> r.id < newId;
    if s.txs[t].pc.Cancelling? {
      assert forall r :: r in s.txs[t].pc.targets ==> r !in Unlocked(s.txs[t]);
    }
  }

  // ----- The whole transaction -----

  predicate OwnSteps(labels: seq<Label>, t: Id) {
    forall l :: l in labels ==> OwnStep(l, t)
  }

  /** Steps of its own lead the transaction from one state to the other. */
  ghost predicate OwnLeads(s: State, s': State, t: Id) {
    exists labels :: Ends(s, labels, s') && OwnSteps(labels, t)
  }

  lemma OwnLeadsNowhere(s: State, t: Id)
    ensures OwnLeads(s, s, t)
  {
    assert Ends(s, [], s) && OwnSteps([], t);
  }

  lemma OwnLeadsOn(s: State, l: Label, mid: State, s': State, t: Id)
    requires Steps(s, l, mid) && OwnStep(l, t) && OwnLeads(mid, s', t)
    ensures OwnLeads(s, s', t)
  {
    var labels :| Ends(mid, labels, s') && OwnSteps(labels, t);
    Then(s, l, mid, labels, s');
    assert OwnSteps([l] + labels, t);
  }

  /** A transaction that is alone and whose request is allowed comes to its commit, wherever it stands now. */
  lemma {:induction false} AllowedComesToCommit(s: State, t: Id) returns (last: State, newId: Id)
    requires Permitted(s, t)
    ensures OwnLeads(s, last, t) && Advanced(s, last, t) && Permitted(last, t) && CanCommit(last, t, newId)
    decreases Stage(s.txs[t].pc), Left(s.txs[t])
  {
    if Ready(s.txs[t]) {
      newId := ReadyMayCommit(s, t);
      last := s;
      OwnLeadsNowhere(s, t);
    } else {
      var step, mid := Advances(s, t);
      StillPermitted(s, step, mid, t);
      last, newId := AllowedComesToCommit(mid, t);
      AdvancedThrough(s, mid, last, t);
      OwnLeadsOn(s, step, mid, last, t);
    }
  }

  // ----- Nothing else goes through -----

  /** The transaction on its own since `start`, with what its own searches have found. */
  ghost predicate Tracked(start: State, s: State, t: Id) {
    && Inv(false, s) && Alone(start, t) && Alone(s, t) && s == start.(txs := s.txs)
    && s.txs[t].op == start.txs[t].op && s.txs[t].org == start.txs[t].org && s.txs[t].stamp == start.txs[t].stamp
    && Found(s, s.txs[t])
  }

  ghost predicate Found(s: State, tx: Tx) {
    && (tx.pc.HalfSearched? || tx.pc.Clear? ==> OwnKindClear(s.db, Self(tx.op), tx.pc.candidate))
    && (tx.pc.Clear? ==> OtherKindClear(s.db, tx.pc.candidate))
  }

  lemma OwnStepFinds(s: State, l: Label, s': State, t: Id)
    requires Alone(s, t) && Found(s, s.txs[t]) && Steps(s, l, s') && OwnStep(l, t)
    ensures Alone(s', t) && s' == s.(txs := s'.txs) && Found(s', s'.txs[t])
    ensures s'.txs[t].op == s.txs[t].op && s'.txs[t].org == s.txs[t].org && s'.txs[t].stamp == s.txs[t].stamp
  {
    assert s'.txs.Keys == s.txs.Keys;
  }

  lemma OwnStepTracks(start: State, s: State, l: Label, s': State, t: Id)
    requires Tracked(start, s, t) && Steps(s, l, s') && OwnStep(l, t)
    ensures Tracked(start, s', t)
  {
    OwnStepFinds(s, l, s', t);
    Sound(s, l, s');
  }

  lemma {:induction false} OwnRunTracks(start: State, s: State, labels: seq<Label>, t: Id)
    requires Tracked(start, s, t) && Run(s, labels) && OwnSteps(labels, t)
    ensures Tracked(start, After(s, labels), t)
    decreases |labels|
  {
    if labels != [] {
      OwnStepTracks(start, s, labels[0], Next(s, labels[0]), t);
      OwnRunTracks(start, Next(s, labels[0]), labels[1..], t);
    }
  }

  lemma SearchedIsFree(start: State, s: State, t: Id)
    requires Tracked(start, s, t) && s.txs[t].pc.Clear?
    ensures Free(s, Self(s.txs[t].op), s.txs[t].pc.candidate) && s.txs[t].pc.candidate == CandidateOf(s, s.txs[t])
  {
    assert TxOk(false, s, s.txs[t]);
    forall r | r in s.db.lessons && Some(r) != Self(s.txs[t].op) && s.db.lessons[r].org == s.txs[t].pc.candidate.org
      ensures !Clash(true, s.db, s.txs[t].pc.candidate, s.db.lessons[r])
    {
      assert KindMatches(r, s.txs[t].pc.candidate) || !KindMatches(r, s.txs[t].pc.candidate);
    }
  }

  lemma CommittableSlotIsAllowed(start: State, s: State, t: Id, newId: Id)
    requires Tracked(start, s, t) && CanCommit(s, t, newId) && NeedsSlot(s.txs[t].op)
    ensures Allowed(s, s.txs[t].org, s.txs[t].stamp, s.txs[t].op)
  {
    assert TxOk(false, s, s.txs[t]);
    SearchedIsFree(start, s, t);
  }

  lemma CommittableOtherIsAllowed(start: State, s: State, t: Id, newId: Id)
    requires Tracked(start, s, t) && CanCommit(s, t, newId) && !NeedsSlot(s.txs[t].op)
    ensures Allowed(s, s.txs[t].org, s.txs[t].stamp, s.txs[t].op)
  {
    assert TxOk(false, s, s.txs[t]);
  }

  /** The state after the request has come in. */
  function Received(s: State, t: Id, org: Id, op: Op): State {
    WithTx(s, t, Tx(org, s.clock, op, Begun, None, {}))
  }

  /** The request can begin and come, by steps of its own, to a point where it may commit. */
  ghost predicate Succeeds(s: State, t: Id, org: Id, op: Op) {
    CanBegin(s, t, op) && exists last, newId :: OwnLeads(Received(s, t, org, op), last, t) && CanCommit(last, t, newId)
  }

  lemma AllowedIsWellFormed(s: State, org: Id, op: Op)
    requires Inv(false, s) && Allowed(s, org, s.clock, op)
    ensures WellFormed(op, s.clock)
  {
  }

  lemma ReceivedIsSound(s: State, t: Id, org: Id, op: Op)
    requires Inv(false, s) && s.txs == map[] && CanBegin(s, t, op)
    ensures Inv(false, Received(s, t, org, op)) && Alone(Received(s, t, org, op), t)
  {
    assert Steps(s, Begin(t, org, op), Received(s, t, org, op));
    Sound(s, Begin(t, org, op), Received(s, t, org, op));
  }

  lemma ReceivedIsPermitted(s: State, t: Id, org: Id, op: Op)
    requires Inv(false, s) && s.txs == map[] && Allowed(s, org, s.clock, op)
    ensures CanBegin(s, t, op) && Permitted(Received(s, t, org, op), t)
  {
    AllowedIsWellFormed(s, org, op);
    ReceivedIsSound(s, t, org, op);
    AllowedIgnoresTxs(s, Received(s, t, org, op), org, s.clock, op);
  }

  lemma AllowedSucceeds(s: State, t: Id, org: Id, op: Op)
    requires Inv(false, s) && s.txs == map[] && Allowed(s, org, s.clock, op)
    ensures Succeeds(s, t, org, op)
  {
    ReceivedIsPermitted(s, t, org, op);
    var last, newId := AllowedComesToCommit(Received(s, t, org, op), t);
  }

  lemma CommittableIsAllowed(start: State, s: State, t: Id, newId: Id, world: State)
    requires Tracked(start, s, t) && CanCommit(s, t, newId) && world == start.(txs := world.txs)
    ensures Allowed(world, start.txs[t].org, start.txs[t].stamp, start.txs[t].op)
  {
    if NeedsSlot(s.txs[t].op) {
      CommittableSlotIsAllowed(start, s, t, newId);
    } else {
      CommittableOtherIsAllowed(start, s, t, newId);
    }
    AllowedIgnoresTxs(s, world, s.txs[t].org, s.txs[t].stamp, s.txs[t].op);
  }

  lemma OwnRunIsAllowed(s: State, start: State, last: State, t: Id, newId: Id, org: Id, op: Op)
    requires Tracked(start, start, t) && OwnLeads(start, last, t) && CanCommit(last, t, newId)
    requires s == start.(txs := s.txs) && start.txs[t] == Tx(org, s.clock, op, Begun, None, {})
    ensures Allowed(s, org, s.clock, op)
  {
    var labels :| Ends(start, labels, last) && OwnSteps(labels, t);
    OwnRunTracks(start, start, labels, t);
    CommittableIsAllowed(start, last, t, newId, s);
  }

  lemma ReceivedIsTracked(s: State, start: State, t: Id, org: Id, op: Op)
    requires Inv(false, s) && s.txs == map[] && CanBegin(s, t, op) && start == Received(s, t, org, op)
    ensures Tracked(start, start, t) && start.txs[t] == Tx(org, s.clock, op, Begun, None, {}) && start == s.(txs := start.txs)
  {
    ReceivedIsSound(s, t, org, op);
  }

  lemma SuccessIsAllowed(s: State, t: Id, org: Id, op: Op)
    requires Inv(false, s) && s.txs == map[] && Succeeds(s, t, org, op)
    ensures Allowed(s, org, s.clock, op)
  {
    var start := Received(s, t, org, op);
    ReceivedIsTracked(s, start, t, org, op);
    var last, newId :| OwnLeads(start, last, t) && CanCommit(last, t, newId);
    OwnRunIsAllowed(s, start, last, t, newId, org, op);
  }

  /** Left to itself a request goes through exactly when the school allows it. */
  lemma RequestSucceedsIff(s: State, t: Id, org: Id, op: Op)
    requires Inv(false, s) && s.txs == map[]
    ensures Succeeds(s, t, org, op) <==> Allowed(s, org, s.clock, op)
  {
    if Succeeds(s, t, org, op) {
      SuccessIsAllowed(s, t, org, op);
    }
    if Allowed(s, org, s.clock, op) {
      AllowedSucceeds(s, t, org, op);
    }
  }
}
