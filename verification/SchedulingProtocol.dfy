/**
 * The scheduling transactions as a state machine. Any number of transactions run interleaved; each
 * statement is one step and sees the rows committed so far; locks live until the transaction ends.
 */
module SchedulingProtocol {
  import opened Options
  import opened Timetable
  import opened ScheduleConflicts
  import opened ScheduleLock

  datatype Lock = GroupLock(group: Id) | LessonLock(lesson: Ref) | KeyLock(key: Key)

  datatype Op =
    | CreateTheory(group: Id, start: int, dur: int)
    | ChangeTheory(lesson: Id, newStart: Option<int>, newDur: Option<int>)
    | CancelTheory(lesson: Id)
    | MarkAttendance(lesson: Id)
    | CreatePractice(student: Id, instructor: Id, car: Id, start: int, dur: int)
    | ChangePractice(lesson: Id, newStart: Option<int>, newDur: Option<int>,
                     newInstructor: Option<Id>, newCar: Option<Id>, profileCar: Option<Id>)
    | CancelPractice(lesson: Id)
    | ChangeGroupStatus(group: Id, next: GroupStatus)
    | Enroll(group: Id, student: Id)

  /** Where a transaction stands between two of its statements. */
  datatype Pc =
    | Begun
    | GroupHeld
    | LessonHeld
    | Locking(todo: seq<Key>, candidate: Row)
    | HalfSearched(candidate: Row)
    | Clear(candidate: Row)
    | Approved
    | Ending(completed: set<(Id, Id)>)
    | Cancelling(completed: set<(Id, Id)>, now: int, targets: set<Ref>)
  {
    predicate HasCandidate() {
      Locking? || HalfSearched? || Clear?
    }

    /** The row lock of the lesson being changed is held from LessonHeld on. */
    predicate PastLessonLock() {
      LessonHeld? || HasCandidate() || Approved?
    }
  }

  /** `stamp` is the time the request was received; `group` is the group row it has locked. */
  datatype Tx = Tx(org: Id, stamp: int, op: Op, pc: Pc, group: Option<Id>, held: set<Lock>)

  /**
   * `owner` gives the organization of an instructor, car, student or teacher, which never changes.
   * `marks` gives the time of the first attendance mark of a theory lesson, `closedAt` the time a group was closed.
   */
  datatype State = State(clock: int, db: Tables, owner: Key -> Id, marks: map<Id, int>, closedAt: map<Id, int>,
                         txs: map<Id, Tx>)

  datatype Label =
    | Tick
    | Begin(t: Id, org: Id, op: Op)
    | Abort(t: Id)
    | LockGroup(t: Id)
    | LockLesson(t: Id)
    | Validate(t: Id, memberOf: seq<Id>)
    | LockNextKey(t: Id)
    | SearchOwnKind(t: Id)
    | SearchOtherKind(t: Id)
    | EndEnrollments(t: Id)
    | PickLessons(t: Id)
    | LockPicked(t: Id, lesson: Ref)
    | Commit(t: Id, newId: Id)
    | Retire(group: Id, student: Id)
    | SetTeacher(group: Id, teacher: Id)
    | NewGroup(group: Id, row: Group)

  predicate NamesGroup(op: Op) {
    !op.CreatePractice? && !op.ChangePractice? && !op.CancelPractice?
  }

  function LessonOf(op: Op): Option<Ref> {
    match op
    case ChangeTheory(l, _, _) => Some(TheoryLesson(l))
    case CancelTheory(l) => Some(TheoryLesson(l))
    case MarkAttendance(l) => Some(TheoryLesson(l))
    case ChangePractice(l, _, _, _, _, _) => Some(PracticeLesson(l))
    case CancelPractice(l) => Some(PracticeLesson(l))
    case _ => None
  }

  /** The lesson a slot search leaves out: the one being changed, none for a new one. */
  function Self(op: Op): Option<Ref> {
    if op.ChangeTheory? || op.ChangePractice? then LessonOf(op) else None
  }

  function Or<T>(wanted: Option<T>, current: T): T {
    if wanted.Some? then wanted.value else current
  }

  /** The row as the change leaves it. A lesson without a car takes the student's when its schedule is touched. */
  function Patch(row: Row, op: Op): Row {
    match (op, row)
    case (ChangeTheory(_, newStart, newDur), Theory(org, group, start, dur, status)) =>
      Theory(org, group, Or(newStart, start), Or(newDur, dur), status)
    case (ChangePractice(_, newStart, newDur, newInstructor, newCar, profileCar),
          Practice(org, instructor, car, student, start, dur, status)) =>
      var touches := newStart.Some? || newDur.Some? || newInstructor.Some? || newCar.Some?;
      var nextCar := if newCar.Some? then newCar else if car.Some? then car else if touches then profileCar else None;
      Practice(org, Or(newInstructor, instructor), nextCar, student, Or(newStart, start), Or(newDur, dur), status)
    case (CancelTheory(_), _) => row.(status := CANCELLED)
    case (CancelPractice(_), _) => row.(status := CANCELLED)
    case _ => row
  }

  /** What the request validation lets through: legal durations, and a new lesson starts in the future. */
  predicate WellFormed(op: Op, now: int) {
    match op
    case CreateTheory(_, start, dur) => start > now && LESSON_MIN_DURATION_MIN <= dur <= LESSON_MAX_DURATION_MIN
    case CreatePractice(_, _, _, start, dur) => start > now && LESSON_MIN_DURATION_MIN <= dur <= LESSON_MAX_DURATION_MIN
    case ChangeTheory(_, _, dur) => dur.Some? ==> LESSON_MIN_DURATION_MIN <= dur.value <= LESSON_MAX_DURATION_MIN
    case ChangePractice(_, _, dur, _, _, _) => dur.Some? ==> LESSON_MIN_DURATION_MIN <= dur.value <= LESSON_MAX_DURATION_MIN
    case _ => true
  }

  /** FOR UPDATE excludes everybody, FOR SHARE only FOR UPDATE; every other lock is exclusive. */
  predicate Compatible(lock: Lock, a: Tx, b: Tx) {
    lock.GroupLock? && !a.op.ChangeGroupStatus? && !b.op.ChangeGroupStatus?
  }

  predicate Available(s: State, t: Id, lock: Lock)
    requires t in s.txs
  {
    forall u :: u in s.txs && u != t && lock in s.txs[u].held ==> Compatible(lock, s.txs[t], s.txs[u])
  }

  function TargetGroup(s: State, op: Op): Option<Id> {
    match op
    case CreateTheory(g, _, _) => Some(g)
    case ChangeGroupStatus(g, _) => Some(g)
    case Enroll(g, _) => Some(g)
    case _ =>
      var lesson := LessonOf(op);
      if lesson.Some? && lesson.value in s.db.lessons && s.db.lessons[lesson.value].Theory?
      then Some(s.db.lessons[lesson.value].group) else None
  }

  predicate CanLockGroup(s: State, t: Id) {
    && t in s.txs && s.txs[t].pc.Begun? && NamesGroup(s.txs[t].op)
    && var target := TargetGroup(s, s.txs[t].op);
    && target.Some? && target.value in s.db.groups && s.db.groups[target.value].org == s.txs[t].org
    && Available(s, t, GroupLock(target.value))
  }

  predicate CanLockLesson(s: State, t: Id) {
    && t in s.txs
    && var tx := s.txs[t];
    && LessonOf(tx.op).Some?
    && (if NamesGroup(tx.op) then tx.pc.GroupHeld? else tx.pc.Begun?)
    && var lesson := LessonOf(tx.op).value;
    && lesson in s.db.lessons && KindMatches(lesson, s.db.lessons[lesson]) && s.db.lessons[lesson].org == tx.org
    && Available(s, t, LessonLock(lesson))
  }

  predicate HasCar(row: Row) {
    match row
    case Practice(_, _, car, _, _, _, _) => car.Some?
    case Theory(_, _, _, _, _) => false
  }

  predicate GroupOpen(s: State, tx: Tx) {
    tx.group.Some? && tx.group.value in s.db.groups && s.db.groups[tx.group.value].status.Open()
  }

  /** A practice lesson stays inside one organization. */
  predicate Owned(s: State, row: Row) {
    match row
    case Theory(org, g, _, _, _) => g in s.db.groups && s.db.groups[g].org == org
    case Practice(org, i, c, student, _, _, _) =>
      s.owner(Instructor(i)) == org && s.owner(Student(student)) == org && (c.Some? ==> s.owner(Car(c.value)) == org)
  }

  /** The lesson the transaction would write. */
  function CandidateOf(s: State, tx: Tx): Row {
    match tx.op
    case CreateTheory(g, start, dur) => Theory(tx.org, g, start, dur, SCHEDULED)
    case CreatePractice(student, i, c, start, dur) => Practice(tx.org, i, Some(c), student, start, dur, SCHEDULED)
    case _ =>
      var lesson := LessonOf(tx.op);
      if lesson.Some? && lesson.value in s.db.lessons then Patch(s.db.lessons[lesson.value], tx.op)
      else Theory(tx.org, 0, 0, 0, CANCELLED)
  }

  /**
   * The checks between the row locks and the advisory locks. Rights, dates of the group, active people
   * and car rules only ever reject, so they are left to Abort.
   */
  predicate Accepts(s: State, tx: Tx) {
    var next := CandidateOf(s, tx);
    match tx.op
    case CreateTheory(_, _, _) => tx.pc.GroupHeld? && GroupOpen(s, tx)
    case CreatePractice(_, _, _, _, _) => tx.pc.Begun? && Owned(s, next)
    case ChangeGroupStatus(_, to) =>
      tx.pc.GroupHeld? && tx.group.Some? && tx.group.value in s.db.groups
      && CanChangeGroup(s.db.groups[tx.group.value].status, to)
    case Enroll(g, student) =>
      tx.pc.GroupHeld? && GroupOpen(s, tx) && s.owner(Student(student)) == tx.org
    case _ =>
      && tx.pc.LessonHeld? && LessonOf(tx.op).Some? && LessonOf(tx.op).value in s.db.lessons
      && var row := s.db.lessons[LessonOf(tx.op).value];
      match tx.op
      case ChangeTheory(l, _, _) =>
        && row.Live() && GroupOpen(s, tx) && next != row && next.start > tx.stamp
        && (next.start != row.start ==> l !in s.marks)
      case CancelTheory(_) => row.Live() && GroupOpen(s, tx) && row.start > tx.stamp
      case MarkAttendance(_) => !row.status.CANCELLED? && GroupOpen(s, tx) && row.start <= tx.stamp
      case ChangePractice(_, _, _, _, _, _) =>
        row.Live() && next != row && next.start > tx.stamp && HasCar(next) && Owned(s, next)
      case _ => row.Live() && row.start > tx.stamp
  }

  predicate NeedsSlot(op: Op) {
    op.CreateTheory? || op.ChangeTheory? || op.CreatePractice? || op.ChangePractice?
  }

  /** The resources a candidate is locked under; `memberOf` lists the groups where the student is ACTIVE. */
  function KeysFor(s: State, candidate: Row, memberOf: seq<Id>): seq<Key> {
    match candidate
    case Theory(_, g, _, _, _) =>
      (if g in s.db.groups then [Teacher(s.db.groups[g].teacher)] else []) + [GroupKey(g)]
    case Practice(_, i, c, student, _, _, _) =>
      [Instructor(i)] + (if c.Some? then [Car(c.value)] else []) + [Student(student)]
      + seq(|memberOf|, n requires 0 <= n < |memberOf| => GroupKey(memberOf[n]))
  }

  predicate ListsGroups(s: State, candidate: Row, memberOf: seq<Id>) {
    candidate.Practice? ==>
      && (forall p :: p in s.db.active && p.1 == candidate.student ==> p.0 in memberOf)
      && (forall g :: g in memberOf ==> (g, candidate.student) in s.db.active)
  }

  predicate CanCommit(s: State, t: Id, newId: Id) {
    && t in s.txs
    && var tx := s.txs[t];
    && (if NeedsSlot(tx.op) then tx.pc.Clear?
        else if tx.op.ChangeGroupStatus? && !tx.op.next.Open() then
          tx.pc.Cancelling? && forall r :: r in tx.pc.targets ==> LessonLock(r) in tx.held
        else tx.pc.Approved?)
    && (tx.op.CreateTheory? ==> TheoryLesson(newId) !in s.db.lessons)
    && (tx.op.CreatePractice? ==> PracticeLesson(newId) !in s.db.lessons)
    && (LessonOf(tx.op).Some? ==> LessonOf(tx.op).value in s.db.lessons)
    && (tx.op.ChangeGroupStatus? ==> tx.op.group in s.db.groups)
  }

  ghost predicate CanBegin(s: State, t: Id, op: Op) {
    t !in s.txs && WellFormed(op, s.clock)
  }

  ghost predicate CanValidate(s: State, t: Id, memberOf: seq<Id>) {
    t in s.txs && Accepts(s, s.txs[t]) && ListsGroups(s, CandidateOf(s, s.txs[t]), memberOf)
  }

  predicate CanLockNextKey(s: State, t: Id) {
    t in s.txs && s.txs[t].pc.Locking? && s.txs[t].pc.todo != [] && Available(s, t, KeyLock(s.txs[t].pc.todo[0]))
  }

  ghost predicate CanSearchOwnKind(s: State, t: Id) {
    && t in s.txs && s.txs[t].pc.Locking? && s.txs[t].pc.todo == []
    && OwnKindClear(s.db, Self(s.txs[t].op), s.txs[t].pc.candidate)
  }

  ghost predicate CanSearchOtherKind(s: State, t: Id) {
    t in s.txs && s.txs[t].pc.HalfSearched? && OtherKindClear(s.db, s.txs[t].pc.candidate)
  }

  predicate CanEndEnrollments(s: State, t: Id) {
    t in s.txs && s.txs[t].pc.Approved? && s.txs[t].op.ChangeGroupStatus? && !s.txs[t].op.next.Open()
  }

  predicate CanPickLessons(s: State, t: Id) {
    t in s.txs && s.txs[t].pc.Ending? && s.txs[t].op.ChangeGroupStatus?
  }

  predicate CanLockPicked(s: State, t: Id, r: Ref) {
    t in s.txs && s.txs[t].pc.Cancelling? && r in s.txs[t].pc.targets && Available(s, t, LessonLock(r))
  }

  /**
   * An UPDATE of the group row waits for every FOR SHARE and FOR UPDATE on it. That the group is open was read
   * earlier and without a lock, so by now it may be closed.
   */
  predicate CanSetTeacher(s: State, g: Id, teacher: Id) {
    && g in s.db.groups && s.owner(Teacher(teacher)) == s.db.groups[g].org
    && forall t :: t in s.txs ==> GroupLock(g) !in s.txs[t].held
  }

  predicate CanAddGroup(s: State, g: Id, row: Group) {
    g !in s.db.groups && row.status.Planned? && s.owner(Teacher(row.teacher)) == row.org
  }

  ghost predicate Enabled(s: State, l: Label) {
    match l
    case Tick => true
    case Begin(t, org, op) => CanBegin(s, t, op)
    case Abort(t) => t in s.txs
    case LockGroup(t) => CanLockGroup(s, t)
    case LockLesson(t) => CanLockLesson(s, t)
    case Validate(t, memberOf) => CanValidate(s, t, memberOf)
    case LockNextKey(t) => CanLockNextKey(s, t)
    case SearchOwnKind(t) => CanSearchOwnKind(s, t)
    case SearchOtherKind(t) => CanSearchOtherKind(s, t)
    case EndEnrollments(t) => CanEndEnrollments(s, t)
    case PickLessons(t) => CanPickLessons(s, t)
    case LockPicked(t, r) => CanLockPicked(s, t, r)
    case Commit(t, newId) => CanCommit(s, t, newId)
    case Retire(g, student) => true
    case SetTeacher(g, teacher) => CanSetTeacher(s, g, teacher)
    case NewGroup(g, row) => CanAddGroup(s, g, row)
  }

  function WithTx(s: State, t: Id, tx: Tx): State {
    s.(txs := s.txs[t := tx])
  }

  function WithLesson(s: State, r: Ref, row: Row): State {
    s.(db := s.db.(lessons := s.db.lessons[r := row]))
  }

  function WithGroupStatus(s: State, g: Id, status: GroupStatus): State
    requires g in s.db.groups
  {
    s.(db := s.db.(groups := s.db.groups[g := s.db.groups[g].(status := status)]))
  }

  /** The rows changed by a closing: its members' enrollments end, its future lessons are cancelled. */
  function Close(s: State, g: Id, pc: Pc, next: GroupStatus): State
    requires pc.Cancelling? && g in s.db.groups
  {
    var lessons := map r | r in s.db.lessons ::
      if r in pc.targets then s.db.lessons[r].(status := CANCELLED) else s.db.lessons[r];
    var closed := WithGroupStatus(s, g, next);
    closed.(db := closed.db.(lessons := lessons, active := s.db.active - pc.completed),
            closedAt := if g in s.closedAt then s.closedAt else s.closedAt[g := pc.now])
  }

  /** The writes of a transaction, which become visible together when it commits. */
  function Written(s: State, tx: Tx, newId: Id): State
    requires NeedsSlot(tx.op) ==> tx.pc.Clear?
    requires tx.op.ChangeGroupStatus? && !tx.op.next.Open() ==> tx.pc.Cancelling?
    requires LessonOf(tx.op).Some? ==> LessonOf(tx.op).value in s.db.lessons
    requires tx.op.ChangeGroupStatus? ==> tx.op.group in s.db.groups
  {
    match tx.op
    case CreateTheory(_, _, _) => WithLesson(s, TheoryLesson(newId), tx.pc.candidate)
    case CreatePractice(_, _, _, _, _) => WithLesson(s, PracticeLesson(newId), tx.pc.candidate)
    case MarkAttendance(l) => if l in s.marks then s else s.(marks := s.marks[l := tx.stamp])
    case ChangeGroupStatus(g, next) =>
      if next.Open() then WithGroupStatus(s, g, next) else Close(s, g, tx.pc, next)
    case Enroll(g, student) => s.(db := s.db.(active := s.db.active + {(g, student)}))
    case _ => WithLesson(s, LessonOf(tx.op).value, Patch(s.db.lessons[LessonOf(tx.op).value], tx.op))
  }

  function Ended(s: State, t: Id): State {
    s.(txs := s.txs - {t})
  }

  function Committed(s: State, t: Id, newId: Id): State
    requires CanCommit(s, t, newId)
  {
    Ended(Written(s, s.txs[t], newId), t)
  }

  // The transaction as its next statement leaves it.

  function GroupLocked(s: State, tx: Tx): Tx
    requires TargetGroup(s, tx.op).Some?
  {
    var g := TargetGroup(s, tx.op).value;
    tx.(pc := GroupHeld, group := Some(g), held := tx.held + {GroupLock(g)})
  }

  function LessonLocked(tx: Tx): Tx
    requires LessonOf(tx.op).Some?
  {
    tx.(pc := LessonHeld, held := tx.held + {LessonLock(LessonOf(tx.op).value)})
  }

  function Checked(s: State, tx: Tx, memberOf: seq<Id>): Tx {
    var candidate := CandidateOf(s, tx);
    if NeedsSlot(tx.op) then tx.(pc := Locking(LockOrder(KeysFor(s, candidate, memberOf)), candidate))
    else tx.(pc := Approved)
  }

  function KeyLocked(tx: Tx): Tx
    requires tx.pc.Locking? && tx.pc.todo != []
  {
    tx.(pc := Locking(tx.pc.todo[1..], tx.pc.candidate), held := tx.held + {KeyLock(tx.pc.todo[0])})
  }

  function EnrollmentsEnded(s: State, tx: Tx): Tx
    requires tx.op.ChangeGroupStatus?
  {
    tx.(pc := Ending(set p | p in s.db.active && p.0 == tx.op.group))
  }

  function LessonsPicked(s: State, tx: Tx): Tx
    requires tx.op.ChangeGroupStatus? && tx.pc.Ending?
  {
    var targets := set r | r in s.db.lessons && s.db.lessons[r].Theory? && s.db.lessons[r].group == tx.op.group
                           && s.db.lessons[r].Live() && s.db.lessons[r].start >= s.clock;
    tx.(pc := Cancelling(tx.pc.completed, s.clock, targets))
  }

  function Ticked(s: State): State {
    s.(clock := s.clock + 1)
  }

  function Retired(s: State, g: Id, student: Id): State {
    s.(db := s.db.(active := s.db.active - {(g, student)}))
  }

  function WithTeacher(s: State, g: Id, teacher: Id): State
    requires g in s.db.groups
  {
    s.(db := s.db.(groups := s.db.groups[g := s.db.groups[g].(teacher := teacher)]))
  }

  function WithGroup(s: State, g: Id, row: Group): State {
    s.(db := s.db.(groups := s.db.groups[g := row]))
  }

  ghost function Next(s: State, l: Label): State
    requires Enabled(s, l)
  {
    match l
    case Tick => Ticked(s)
    case Begin(t, org, op) => WithTx(s, t, Tx(org, s.clock, op, Begun, None, {}))
    case Abort(t) => Ended(s, t)
    case LockGroup(t) => WithTx(s, t, GroupLocked(s, s.txs[t]))
    case LockLesson(t) => WithTx(s, t, LessonLocked(s.txs[t]))
    case Validate(t, memberOf) => WithTx(s, t, Checked(s, s.txs[t], memberOf))
    case LockNextKey(t) => WithTx(s, t, KeyLocked(s.txs[t]))
    case SearchOwnKind(t) => WithTx(s, t, s.txs[t].(pc := HalfSearched(s.txs[t].pc.candidate)))
    case SearchOtherKind(t) => WithTx(s, t, s.txs[t].(pc := Clear(s.txs[t].pc.candidate)))
    case EndEnrollments(t) => WithTx(s, t, EnrollmentsEnded(s, s.txs[t]))
    case PickLessons(t) => WithTx(s, t, LessonsPicked(s, s.txs[t]))
    case LockPicked(t, r) => WithTx(s, t, s.txs[t].(held := s.txs[t].held + {LessonLock(r)}))
    case Commit(t, newId) => Committed(s, t, newId)
    case Retire(g, student) => Retired(s, g, student)
    case SetTeacher(g, teacher) => WithTeacher(s, g, teacher)
    case NewGroup(g, row) => WithGroup(s, g, row)
  }

  /** Every label of the sequence is enabled when its turn comes. */
  ghost predicate Run(s: State, labels: seq<Label>)
    decreases |labels|
  {
    labels == [] || (Enabled(s, labels[0]) && Run(Next(s, labels[0]), labels[1..]))
  }

  ghost function After(s: State, labels: seq<Label>): State
    requires Run(s, labels)
    decreases |labels|
  {
    if labels == [] then s else After(Next(s, labels[0]), labels[1..])
  }
}
