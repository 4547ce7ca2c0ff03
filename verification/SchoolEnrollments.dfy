/** Enrollments over runs of atomic requests. */
module SchoolEnrollments {
  import opened Accounts
  import opened Options
  import opened Timetable
  import opened School
  import opened SchoolRuns

  /** An ACTIVE enrollment names the profile's own, open group, and the training has not ended. */
  predicate EnrollmentOk(s: Records, g: Id, x: Id) {
    && x in s.profiles && s.profiles[x].group == Some(g) && !s.profiles[x].training.Terminal()
    && IsGroup(s, s.profiles[x].org, g) && s.groups[g].status.Open()
  }

  ghost predicate EnrollmentsOk(s: Records) {
    && s.profiles.Keys <= s.users.Keys
    && (forall k :: k in s.enrollments ==> k.1 in s.users)
    && (forall k :: k in s.enrollments && s.enrollments[k] == EnrollmentStatus.ACTIVE ==> EnrollmentOk(s, k.0, k.1))
    && (forall x :: x in s.profiles && s.profiles[x].group.Some? ==> s.profiles[x].group.value in s.groups)
  }

  lemma CreateStudentKeeps(s: Records, org: Id, x: Id, group: Option<Id>, category: Option<Category>,
                           transmission: Option<Transmission>)
    requires EnrollmentsOk(s) && CreateStudent(s, org, x, group, category, transmission).Some?
    ensures EnrollmentsOk(CreateStudent(s, org, x, group, category, transmission).value)
  {
  }

  lemma AssignGroupKeeps(s: Records, org: Id, x: Id, g: Id)
    requires EnrollmentsOk(s) && AssignGroup(s, org, x, g).Some?
    ensures EnrollmentsOk(AssignGroup(s, org, x, g).value)
  {
  }

  lemma RemoveFromGroupKeeps(s: Records, org: Id, x: Id, g: Id)
    requires EnrollmentsOk(s) && RemoveFromGroup(s, org, x, g).Some?
    ensures EnrollmentsOk(RemoveFromGroup(s, org, x, g).value)
  {
  }

  lemma ChangeTrainingKeeps(s: Records, org: Id, x: Id, next: TrainingStatus)
    requires EnrollmentsOk(s) && ChangeTraining(s, org, x, next).Some?
    ensures EnrollmentsOk(ChangeTraining(s, org, x, next).value)
  {
  }

  lemma ArchiveStudentKeeps(s: Records, org: Id, x: Id)
    requires EnrollmentsOk(s) && ArchiveStudent(s, org, x).Some?
    ensures EnrollmentsOk(ArchiveStudent(s, org, x).value)
  {
  }

  lemma ChangeGroupStatusKeeps(s: Records, org: Id, g: Id, next: GroupStatus)
    requires EnrollmentsOk(s) && ChangeGroupStatus(s, org, g, next).Some?
    ensures EnrollmentsOk(ChangeGroupStatus(s, org, g, next).value)
    ensures forall x :: !next.Open() ==> !IsEnrolled(ChangeGroupStatus(s, org, g, next).value, g, x)
    ensures forall k :: k in s.enrollments && (k.0 != g || next.Open() || s.enrollments[k] != EnrollmentStatus.ACTIVE) ==>
              (k in ChangeGroupStatus(s, org, g, next).value.enrollments
               && ChangeGroupStatus(s, org, g, next).value.enrollments[k] == s.enrollments[k])
    ensures ChangeGroupStatus(s, org, g, next).value.enrollments.Keys == s.enrollments.Keys
  {
  }

  lemma ChangeRoleKeeps(s: Records, org: Id, x: Id, next: Role)
    requires EnrollmentsOk(s) && ChangeRole(s, org, x, next).Some?
    ensures EnrollmentsOk(ChangeRole(s, org, x, next).value)
  {
  }

  lemma InviteKeeps(s: Records, org: Id, x: Id, role: Role)
    requires EnrollmentsOk(s) && Invite(s, org, x, role).Some?
    ensures EnrollmentsOk(Invite(s, org, x, role).value)
  {
  }

  /** What the remaining requests have in common. */
  predicate LeavesEnrollments(s: Records, t: Records) {
    && t.enrollments == s.enrollments && t.users.Keys == s.users.Keys && t.profiles.Keys == s.profiles.Keys
    && s.groups.Keys <= t.groups.Keys
    && (forall g :: g in s.groups ==> t.groups[g].status == s.groups[g].status && t.groups[g].org == s.groups[g].org)
    && (forall x :: x in s.profiles ==> t.profiles[x].group == s.profiles[x].group && t.profiles[x].org == s.profiles[x].org)
    && (forall x :: x in s.profiles && t.profiles[x].training.Terminal() ==> s.profiles[x].training.Terminal())
  }

  predicate TouchesEnrollments(r: Request) {
    || r.RCreateStudent? || r.RAssignGroup? || r.RRemoveFromGroup? || r.RChangeTraining? || r.RArchiveStudent?
    || r.RChangeGroupStatus? || r.RChangeRole? || r.RInvite?
  }

  predicate TouchesProfile(r: Request) {
    r.RGrantPractice? || r.RUpdateCard?
  }

  lemma CardsLeaveEnrollments(s: Records, r: Request)
    requires TouchesProfile(r)
    ensures LeavesEnrollments(s, Step(s, r))
  {
  }

  predicate TouchesUsers(r: Request) {
    r.RChangeMemberStatus? || r.RActivate? || r.RDeleteUser?
  }

  lemma UserStepsLeaveEnrollments(s: Records, r: Request)
    requires TouchesUsers(r)
    ensures LeavesEnrollments(s, Step(s, r))
  {
    assert Step(s, r).users.Keys == s.users.Keys;
  }

  lemma OtherTablesLeaveEnrollments(s: Records, r: Request)
    requires !TouchesEnrollments(r) && !TouchesProfile(r) && !TouchesUsers(r)
    ensures LeavesEnrollments(s, Step(s, r))
  {
    assert Step(s, r).users == s.users && Step(s, r).profiles == s.profiles && Step(s, r).enrollments == s.enrollments;
  }

  lemma OthersLeaveEnrollments(s: Records, r: Request)
    requires !TouchesEnrollments(r)
    ensures LeavesEnrollments(s, Step(s, r))
  {
    if TouchesProfile(r) {
      CardsLeaveEnrollments(s, r);
    } else if TouchesUsers(r) {
      UserStepsLeaveEnrollments(s, r);
    } else {
      OtherTablesLeaveEnrollments(s, r);
    }
  }

  lemma LeavingKeeps(s: Records, t: Records)
    requires EnrollmentsOk(s) && LeavesEnrollments(s, t)
    ensures EnrollmentsOk(t)
  {
  }

  lemma StepKeepsEnrollments(s: Records, r: Request)
    requires EnrollmentsOk(s)
    ensures EnrollmentsOk(Step(s, r))
  {
    if !TouchesEnrollments(r) {
      OthersLeaveEnrollments(s, r);
      LeavingKeeps(s, Step(s, r));
    } else if Apply(s, r).Some? {
      match r
      case RCreateStudent(org, x, group, category, transmission) =>
        CreateStudentKeeps(s, org, x, group, category, transmission);
      case RAssignGroup(org, x, g) => AssignGroupKeeps(s, org, x, g);
      case RRemoveFromGroup(org, x, g) => RemoveFromGroupKeeps(s, org, x, g);
      case RChangeTraining(org, x, training) => ChangeTrainingKeeps(s, org, x, training);
      case RArchiveStudent(org, x) => ArchiveStudentKeeps(s, org, x);
      case RChangeGroupStatus(org, g, next) => ChangeGroupStatusKeeps(s, org, g, next);
      case RChangeRole(org, x, next) => ChangeRoleKeeps(s, org, x, next);
      case RInvite(org, x, role) => InviteKeeps(s, org, x, role);
    }
  }

  lemma {:induction false} RunKeepsEnrollments(s: Records, requests: seq<Request>)
    requires EnrollmentsOk(s)
    ensures EnrollmentsOk(RunAll(s, requests))
    decreases |requests|
  {
    if requests != [] {
      StepKeepsEnrollments(s, requests[0]);
      RunKeepsEnrollments(Step(s, requests[0]), requests[1..]);
    }
  }

  function Empty(): Records {
    Records(map[], map[], map[], map[], map[], map[], {})
  }

  /** Over every run: one ACTIVE enrollment at most, in the profile's own open group, and none once training ended. */
  lemma OneActiveEnrollment(requests: seq<Request>, g: Id, h: Id, x: Id)
    requires IsEnrolled(RunAll(Empty(), requests), g, x)
    ensures var s := RunAll(Empty(), requests);
      && (IsEnrolled(s, h, x) ==> h == g)
      && x in s.profiles && s.profiles[x].group == Some(g)
      && s.profiles[x].training != GRADUATED && s.profiles[x].training != TrainingStatus.DROPPED
      && s.profiles[x].training != TrainingStatus.ARCHIVED
      && IsGroup(s, s.profiles[x].org, g) && s.groups[g].status.Open()
  {
    RunKeepsEnrollments(Empty(), requests);
    var s := RunAll(Empty(), requests);
    assert EnrollmentOk(s, g, x);
    assert IsEnrolled(s, h, x) ==> EnrollmentOk(s, h, x);
  }

  // ----- Enrolled people are students, unless they are invited again in another role -----

  ghost predicate EnrolledAreStudents(s: Records) {
    forall k :: k in s.enrollments && s.enrollments[k] == EnrollmentStatus.ACTIVE
      ==> k.1 in s.users && s.users[k.1].role == STUDENT
  }

  /** The request re-invites somebody who is enrolled, in a role other than STUDENT. */
  predicate TurnsEnrolledPerson(s: Records, r: Request) {
    && r.RInvite? && r.role != STUDENT
    && r.x in s.users && s.users[r.x].status == UserStatus.INVITED && !s.users[r.x].deleted && s.users[r.x].org == r.org
    && exists k :: k in s.enrollments && k.1 == r.x && s.enrollments[k] == EnrollmentStatus.ACTIVE
  }

  /** Roles other than by ChangeRole and Invite stay; who becomes enrolled is a student. */
  predicate EnrollsStudentsOnly(s: Records, t: Records) {
    && (forall x :: x in s.users ==> x in t.users && t.users[x].role == s.users[x].role)
    && (forall k :: k in t.enrollments && t.enrollments[k] == EnrollmentStatus.ACTIVE ==>
          (k in s.enrollments && s.enrollments[k] == EnrollmentStatus.ACTIVE)
          || (k.1 in t.users && t.users[k.1].role == STUDENT))
  }

  lemma EnrollingRequestsEnrollStudentsOnly(s: Records, r: Request)
    requires TouchesEnrollments(r) && !r.RInvite? && !r.RChangeRole?
    ensures EnrollsStudentsOnly(s, Step(s, r))
  {
  }

  lemma OthersKeepRoles(s: Records, r: Request)
    requires !TouchesEnrollments(r)
    ensures forall x :: x in s.users ==> x in Step(s, r).users && Step(s, r).users[x].role == s.users[x].role
  {
  }

  lemma OthersEnrollStudentsOnly(s: Records, r: Request)
    requires !r.RInvite? && !r.RChangeRole?
    ensures EnrollsStudentsOnly(s, Step(s, r))
  {
    if TouchesEnrollments(r) {
      EnrollingRequestsEnrollStudentsOnly(s, r);
    } else {
      OthersKeepRoles(s, r);
      OthersLeaveEnrollments(s, r);
    }
  }

  lemma OthersKeepEnrolledStudents(s: Records, r: Request)
    requires EnrollmentsOk(s) && EnrolledAreStudents(s) && !r.RInvite?
    ensures EnrolledAreStudents(Step(s, r))
  {
    if !r.RChangeRole? {
      OthersEnrollStudentsOnly(s, r);
    }
  }

  lemma StepKeepsEnrolledStudentsIff(s: Records, r: Request)
    requires EnrollmentsOk(s) && EnrolledAreStudents(s)
    ensures EnrolledAreStudents(Step(s, r)) <==> !TurnsEnrolledPerson(s, r)
  {
    if !r.RInvite? {
      OthersKeepEnrolledStudents(s, r);
    } else {
      var t := Step(s, r);
      if k :| k in s.enrollments && k.1 == r.x && s.enrollments[k] == EnrollmentStatus.ACTIVE {
        assert k in t.enrollments && (TurnsEnrolledPerson(s, r) ==> t.users[k.1].role == r.role);
      }
    }
  }

  // ----- A run in which that happens -----

  lemma RunOne(s: Records, r: Request)
    ensures RunAll(s, [r]) == Step(s, r)
  {
    assert RunAll(Step(s, r), []) == Step(s, r);
  }

  lemma {:induction false} RunInTwo(s: Records, front: seq<Request>, back: seq<Request>)
    ensures RunAll(s, front + back) == RunAll(RunAll(s, front), back)
    decreases |front|
  {
    if front == [] {
      assert front + back == back;
    } else {
      assert (front + back)[1..] == front[1..] + back;
      RunInTwo(Step(s, front[0]), front[1..], back);
    }
  }

  /** A teacher is invited and activates. */
  lemma TeacherJoins() returns (s: Records)
    ensures s == RunAll(Empty(), [RInvite(0, 10, TEACHER)] + [RActivate(10)])
    ensures s == Empty().(users := map[10 := User(0, TEACHER, UserStatus.ACTIVE, false)])
  {
    var s1 := Step(Empty(), RInvite(0, 10, TEACHER));
    assert s1.users == map[10 := User(0, TEACHER, UserStatus.INVITED, false)];
    s := Step(s1, RActivate(10));
    assert s.users == map[10 := User(0, TEACHER, UserStatus.ACTIVE, false)];
    RunInTwo(Empty(), [RInvite(0, 10, TEACHER)], [RActivate(10)]);
    RunOne(Empty(), RInvite(0, 10, TEACHER));
    RunOne(s1, RActivate(10));
  }

  /** The teacher gets group 1, and student 40 is created in it. */
  lemma StudentJoins(s: Records) returns (t: Records)
    requires s == Empty().(users := map[10 := User(0, TEACHER, UserStatus.ACTIVE, false)])
    ensures t == RunAll(s, [RCreateGroup(0, 1, 10)] + [RCreateStudent(0, 40, Some(1), None, None)])
    ensures t.enrollments == map[(1, 40) := EnrollmentStatus.ACTIVE]
    ensures 40 in t.users && t.users[40] == User(0, STUDENT, UserStatus.INVITED, false)
  {
    var s1 := Step(s, RCreateGroup(0, 1, 10));
    assert s1.groups == map[1 := Group(0, 10, Planned)];
    t := Step(s1, RCreateStudent(0, 40, Some(1), None, None));
    RunInTwo(s, [RCreateGroup(0, 1, 10)], [RCreateStudent(0, 40, Some(1), None, None)]);
    RunOne(s, RCreateGroup(0, 1, 10));
    RunOne(s1, RCreateStudent(0, 40, Some(1), None, None));
  }

  /** An enrolled student who has not yet activated becomes a teacher by a second invitation. */
  lemma ReinvitedStudentIsATeacher() returns (requests: seq<Request>)
    ensures EnrolledAreStudents(RunAll(Empty(), requests))
    ensures !EnrolledAreStudents(RunAll(Empty(), requests + [RInvite(0, 40, TEACHER)]))
  {
    var front := [RInvite(0, 10, TEACHER)] + [RActivate(10)];
    var back := [RCreateGroup(0, 1, 10)] + [RCreateStudent(0, 40, Some(1), None, None)];
    requests := front + back;
    var s := TeacherJoins();
    var t := StudentJoins(s);
    RunInTwo(Empty(), front, back);
    RunInTwo(Empty(), requests, [RInvite(0, 40, TEACHER)]);
    RunOne(t, RInvite(0, 40, TEACHER));
    assert TurnsEnrolledPerson(t, RInvite(0, 40, TEACHER)) by {
      assert (1, 40) in t.enrollments;
    }
    RunKeepsEnrollments(Empty(), requests);
    StepKeepsEnrolledStudentsIff(t, RInvite(0, 40, TEACHER));
  }

  // ----- What one request leaves open for the next -----

  lemma NewcomerHasNoRow(s: Records, org: Id, x: Id, g: Id)
    requires EnrollmentsOk(s) && x in s.profiles && s.profiles[x].group == None && AssignGroup(s, org, x, g).Some?
    ensures (g, x) !in s.enrollments
  {
    assert forall k :: k in s.enrollments && k.1 == x && k == (g, x) ==> s.enrollments[k] == EnrollmentStatus.ACTIVE;
    assert IsEnrolled(s, g, x) ==> EnrollmentOk(s, g, x);
  }

  /** Removing a student undoes the assignment of somebody who was in no group. */
  lemma RemovalUndoesAssignment(s: Records, org: Id, x: Id, g: Id)
    requires EnrollmentsOk(s) && x in s.profiles && s.profiles[x].group == None && AssignGroup(s, org, x, g).Some?
    ensures RemoveFromGroup(AssignGroup(s, org, x, g).value, org, x, g) == Some(s)
  {
    NewcomerHasNoRow(s, org, x, g);
    var t := AssignGroup(s, org, x, g).value;
    assert t.enrollments - {(g, x)} == s.enrollments;
    assert t.profiles[x := t.profiles[x].(group := None)] == s.profiles;
  }

  /** A removed student may join another open group as if never enrolled: only earlier history bars. */
  lemma RemovedStudentMayJoinIff(s: Records, org: Id, x: Id, g: Id, h: Id)
    requires EnrollmentsOk(s) && RemoveFromGroup(s, org, x, g).Some?
    ensures AssignGroup(RemoveFromGroup(s, org, x, g).value, org, x, h).Some? <==>
            (s.users[x].status != UserStatus.ARCHIVED && !BarredByHistory(s, org, x)
             && IsGroup(s, org, h) && s.groups[h].status.Open())
  {
    var t := RemoveFromGroup(s, org, x, g).value;
    assert EnrollmentOk(s, g, x);
    RemoveFromGroupKeeps(s, org, x, g);
    if k :| k in s.enrollments && k.1 == x && IsGroup(s, org, k.0) && s.enrollments[k] != EnrollmentStatus.ACTIVE {
      assert k in t.enrollments;
    }
    assert BarredByHistory(s, org, x) <==> BarredByHistory(t, org, x);
    forall k | k in t.enrollments && k.1 == x
      ensures t.enrollments[k] != EnrollmentStatus.ACTIVE
    {
      assert s.enrollments[k] == EnrollmentStatus.ACTIVE ==> EnrollmentOk(s, k.0, k.1);
    }
    assert LeaveClosedGroup(t, x, h) == t.enrollments;
  }

  /** Closing a group completes its enrollments, which bars nobody from joining another. */
  lemma ClosingBarsNobody(s: Records, org: Id, g: Id, next: GroupStatus, school: Id, x: Id)
    requires ChangeGroupStatus(s, org, g, next).Some? && !next.Open()
    ensures BarredByHistory(ChangeGroupStatus(s, org, g, next).value, school, x) ==> BarredByHistory(s, school, x)
  {
  }
}
