/** Statuses over runs of atomic requests: what is over stays over. */
module SchoolStatuses {
  import opened Accounts
  import opened Options
  import opened Timetable
  import opened School
  import opened SchoolRuns
  import opened SchoolEnrollments
  import opened SchoolEffects

  // ----- Groups -----

  ghost predicate Closed(s: Records, g: Id) {
    g in s.groups && (s.groups[g].status == Completed || s.groups[g].status == Archived)
  }

  /** The group keeps its school and teacher, and at most goes on from Completed to Archived. */
  ghost predicate StaysClosed(s: Records, t: Records, g: Id) {
    && Closed(s, g) && Closed(t, g)
    && t.groups[g].org == s.groups[g].org && t.groups[g].teacher == s.groups[g].teacher
    && (s.groups[g].status == Archived ==> t.groups[g].status == Archived)
  }

  lemma OthersLeaveGroups(s: Records, r: Request)
    requires !r.RCreateGroup? && !r.RChangeTeacher? && !r.RChangeGroupStatus?
    ensures Step(s, r).groups == s.groups
  {
  }

  lemma StepKeepsClosed(s: Records, r: Request, g: Id)
    requires Closed(s, g)
    ensures StaysClosed(s, Step(s, r), g)
  {
    if !r.RCreateGroup? && !r.RChangeTeacher? && !r.RChangeGroupStatus? {
      OthersLeaveGroups(s, r);
    }
  }

  /** A closed group never reopens, whatever is requested. */
  lemma {:induction false} ClosedGroupsStayClosed(s: Records, requests: seq<Request>, g: Id)
    requires Closed(s, g)
    ensures StaysClosed(s, RunAll(s, requests), g)
    decreases |requests|
  {
    if requests != [] {
      StepKeepsClosed(s, requests[0], g);
      ClosedGroupsStayClosed(Step(s, requests[0]), requests[1..], g);
    }
  }

  // ----- Training -----

  ghost predicate Ended(s: Records, x: Id) {
    x in s.profiles && Over(s.profiles[x].training)
  }

  /** The request gives the student another role, which deletes the profile; nobody and nothing refers to them. */
  ghost predicate Erases(s: Records, r: Request, x: Id) {
    && r.RChangeRole? && r.x == x && r.role != STUDENT && r.role != OWNER
    && x in s.users && s.users[x].role == STUDENT && s.users[x].org == r.org && !s.users[x].deleted
    && (s.users[x].status == UserStatus.INVITED || s.users[x].status == UserStatus.ACTIVE)
    && Unreferenced(s, x) && Untouched(s, x)
  }

  lemma OthersKeepEnded(s: Records, r: Request, x: Id)
    requires s.profiles.Keys <= s.users.Keys && Ended(s, x) && !r.RChangeRole?
    ensures Ended(Step(s, r), x)
  {
  }

  /** One request lets ended training resume exactly when it erases the student's profile. */
  lemma StepKeepsEndedIff(s: Records, r: Request, x: Id)
    requires RulesOk(s) && Ended(s, x)
    ensures Ended(Step(s, r), x) <==> !Erases(s, r, x)
  {
    if r.RChangeRole? {
      if r.x in s.users && r.role != s.users[r.x].role {
        ChangeRoleMeans(s, r.org, r.x, r.role);
      }
    } else {
      OthersKeepEnded(s, r, x);
    }
  }

  /** No request of the run changes the person's role. */
  predicate KeepsRole(requests: seq<Request>, x: Id) {
    forall r :: r in requests && r.RChangeRole? ==> r.x != x
  }

  lemma {:induction false} EndedTrainingNeverResumes(s: Records, requests: seq<Request>, x: Id)
    requires RulesOk(s) && Ended(s, x) && KeepsRole(requests, x)
    ensures Ended(RunAll(s, requests), x)
    decreases |requests|
  {
    if requests != [] {
      StepKeepsEndedIff(s, requests[0], x);
      StepKeepsRules(s, requests[0]);
      EndedTrainingNeverResumes(Step(s, requests[0]), requests[1..], x);
    }
  }

  // ----- A run in which it does resume -----

  const STUDENT_40 := User(0, STUDENT, UserStatus.INVITED, false)
  const NEW_PROFILE := Profile(0, None, None, None, None, None, TrainingStatus.INVITED)

  /** Somebody is invited as a student and drops out before activating. */
  lemma StudentDropsOut() returns (s: Records)
    ensures s == RunAll(Empty(), [RInvite(0, 40, STUDENT)] + [RChangeTraining(0, 40, TrainingStatus.DROPPED)])
    ensures s == Empty().(users := map[40 := STUDENT_40], profiles := map[40 := NEW_PROFILE.(training := TrainingStatus.DROPPED)])
  {
    var s1 := Step(Empty(), RInvite(0, 40, STUDENT));
    assert s1.users == map[40 := STUDENT_40] && s1.profiles == map[40 := NEW_PROFILE];
    s := Step(s1, RChangeTraining(0, 40, TrainingStatus.DROPPED));
    assert s.profiles == map[40 := NEW_PROFILE.(training := TrainingStatus.DROPPED)] && s.enrollments == map[];
    RunInTwo(Empty(), [RInvite(0, 40, STUDENT)], [RChangeTraining(0, 40, TrainingStatus.DROPPED)]);
    RunOne(Empty(), RInvite(0, 40, STUDENT));
    RunOne(s1, RChangeTraining(0, 40, TrainingStatus.DROPPED));
  }

  lemma RoleGoesAndReturns(s: Records) returns (t: Records)
    requires s == Empty().(users := map[40 := STUDENT_40], profiles := map[40 := NEW_PROFILE.(training := TrainingStatus.DROPPED)])
    ensures t == RunAll(s, [RChangeRole(0, 40, ADMIN)] + [RChangeRole(0, 40, STUDENT)])
    ensures 40 in t.profiles && t.profiles[40] == NEW_PROFILE
  {
    var s1 := Step(s, RChangeRole(0, 40, ADMIN));
    assert s1.users == map[40 := STUDENT_40.(role := ADMIN)] && s1.profiles == map[];
    t := Step(s1, RChangeRole(0, 40, STUDENT));
    RunInTwo(s, [RChangeRole(0, 40, ADMIN)], [RChangeRole(0, 40, STUDENT)]);
    RunOne(s, RChangeRole(0, 40, ADMIN));
    RunOne(s1, RChangeRole(0, 40, STUDENT));
  }

  /** A student who dropped out starts anew after a detour through another role. */
  lemma EndedTrainingCanStartAnew() returns (front: seq<Request>, back: seq<Request>)
    ensures Ended(RunAll(Empty(), front), 40)
    ensures !Ended(RunAll(Empty(), front + back), 40) && 40 in RunAll(Empty(), front + back).profiles
  {
    front := [RInvite(0, 40, STUDENT)] + [RChangeTraining(0, 40, TrainingStatus.DROPPED)];
    back := [RChangeRole(0, 40, ADMIN)] + [RChangeRole(0, 40, STUDENT)];
    var s := StudentDropsOut();
    var t := RoleGoesAndReturns(s);
    RunInTwo(Empty(), front, back);
  }
}
