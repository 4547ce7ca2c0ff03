/** What an accepted request means to the school, and exactly when it is accepted, while the rules of the rows hold. */
module SchoolEffects {
  import opened Accounts
  import opened Options
  import opened Timetable
  import opened School
  import opened SchoolRuns
  import opened SchoolEnrollments
  import opened SchoolCars

  /** The rules every run of requests keeps. */
  ghost predicate RulesOk(s: Records) {
    EnrollmentsOk(s) && ProfilesOk(s) && RolesOk(s)
  }

  lemma StepKeepsRules(s: Records, r: Request)
    requires RulesOk(s)
    ensures RulesOk(Step(s, r))
  {
    StepKeepsEnrollments(s, r);
    StepKeepsProfiles(s, r);
    StepKeepsRoles(s, r);
  }

  // ----- The rules, request by request -----

  lemma CreateStudentKeepsRules(s: Records, org: Id, x: Id, group: Option<Id>, category: Option<Category>,
                                transmission: Option<Transmission>)
    requires RulesOk(s)
    ensures var r := CreateStudent(s, org, x, group, category, transmission); r.Some? ==> RulesOk(r.value)
  {
    StepKeepsRules(s, RCreateStudent(org, x, group, category, transmission));
  }

  lemma AssignGroupKeepsRules(s: Records, org: Id, x: Id, g: Id)
    requires RulesOk(s)
    ensures var r := AssignGroup(s, org, x, g); r.Some? ==> RulesOk(r.value)
  {
    StepKeepsRules(s, RAssignGroup(org, x, g));
  }

  lemma RemoveFromGroupKeepsRules(s: Records, org: Id, x: Id, g: Id)
    requires RulesOk(s)
    ensures var r := RemoveFromGroup(s, org, x, g); r.Some? ==> RulesOk(r.value)
  {
    StepKeepsRules(s, RRemoveFromGroup(org, x, g));
  }

  lemma ChangeTrainingKeepsRules(s: Records, org: Id, x: Id, next: TrainingStatus)
    requires RulesOk(s)
    ensures var r := ChangeTraining(s, org, x, next); r.Some? ==> RulesOk(r.value)
  {
    StepKeepsRules(s, RChangeTraining(org, x, next));
  }

  lemma GrantPracticeKeepsRules(s: Records, org: Id, x: Id, i: Id, c: Id)
    requires RulesOk(s)
    ensures var r := GrantPractice(s, org, x, i, c); r.Some? ==> RulesOk(r.value)
  {
    StepKeepsRules(s, RGrantPractice(org, x, i, c));
  }

  lemma ArchiveStudentKeepsRules(s: Records, org: Id, x: Id)
    requires RulesOk(s)
    ensures var r := ArchiveStudent(s, org, x); r.Some? ==> RulesOk(r.value)
  {
    var r := RArchiveStudent(org, x);
    StepKeepsRules(s, r);
    assert ArchiveStudent(s, org, x).Some? ==> Step(s, r) == ArchiveStudent(s, org, x).value;
  }

  lemma UpdateCardKeepsRules(s: Records, org: Id, x: Id, category: Option<Option<Category>>,
                             transmission: Option<Option<Transmission>>)
    requires RulesOk(s)
    ensures var r := UpdateCard(s, org, x, category, transmission); r.Some? ==> RulesOk(r.value)
  {
    StepKeepsRules(s, RUpdateCard(org, x, category, transmission));
  }

  lemma ChangeGroupStatusKeepsRules(s: Records, org: Id, g: Id, next: GroupStatus)
    requires RulesOk(s)
    ensures var r := ChangeGroupStatus(s, org, g, next); r.Some? ==> RulesOk(r.value)
  {
    var r := RChangeGroupStatus(org, g, next);
    StepKeepsRules(s, r);
    assert ChangeGroupStatus(s, org, g, next).Some? ==> Step(s, r) == ChangeGroupStatus(s, org, g, next).value;
  }

  lemma ChangeTeacherKeepsRules(s: Records, org: Id, g: Id, teacher: Id)
    requires RulesOk(s)
    ensures var r := ChangeTeacher(s, org, g, teacher); r.Some? ==> RulesOk(r.value)
  {
    StepKeepsRules(s, RChangeTeacher(org, g, teacher));
  }

  lemma UpdateCarKeepsRules(s: Records, org: Id, c: Id, instructor: Option<Id>, category: Option<Category>,
                            transmission: Option<Transmission>)
    requires RulesOk(s)
    ensures var r := UpdateCar(s, org, c, instructor, category, transmission); r.Some? ==> RulesOk(r.value)
  {
    StepKeepsRules(s, RUpdateCar(org, c, instructor, category, transmission));
  }

  lemma ChangeCarStatusKeepsRules(s: Records, org: Id, c: Id, next: CarStatus)
    requires RulesOk(s)
    ensures var r := ChangeCarStatus(s, org, c, next); r.Some? ==> RulesOk(r.value)
  {
    StepKeepsRules(s, RChangeCarStatus(org, c, next));
  }

  lemma AssignInstructorKeepsRules(s: Records, org: Id, c: Id, instructor: Option<Id>)
    requires RulesOk(s)
    ensures var r := AssignInstructor(s, org, c, instructor); r.Some? ==> RulesOk(r.value)
  {
    StepKeepsRules(s, RAssignInstructor(org, c, instructor));
  }

  lemma ChangeRoleKeepsRules(s: Records, org: Id, x: Id, next: Role)
    requires RulesOk(s)
    ensures var r := ChangeRole(s, org, x, next); r.Some? ==> RulesOk(r.value)
  {
    if ChangeRole(s, org, x, next).Some? {
      ChangeRoleKeeps(s, org, x, next);
      ChangeRoleKeepsProfiles(s, org, x, next);
      ChangeRoleKeepsRoles(s, org, x, next);
    }
  }

  // ----- What a request may change -----

  /** Nothing changes but the account, profile and enrollments of one person. */
  ghost predicate OnlyConcerns(s: Records, t: Records, x: Id) {
    && t.groups == s.groups && t.cars == s.cars && t.lessons == s.lessons && t.marked == s.marked
    && (forall y :: y != x ==> (y in t.users <==> y in s.users) && (y in s.users ==> t.users[y] == s.users[y]))
    && (forall y :: y != x ==> (y in t.profiles <==> y in s.profiles) && (y in s.profiles ==> t.profiles[y] == s.profiles[y]))
    && (forall k: (Id, Id) :: k.1 != x ==>
          (k in t.enrollments <==> k in s.enrollments) && (k in s.enrollments ==> t.enrollments[k] == s.enrollments[k]))
  }

  /** The person belongs to the group given, and to no other. */
  ghost predicate BelongsTo(s: Records, x: Id, group: Option<Id>) {
    forall h :: IsEnrolled(s, h, x) <==> group == Some(h)
  }

  /** No group of any school takes the person. */
  ghost predicate NeverAssigned(s: Records, x: Id) {
    forall org, g :: AssignGroup(s, org, x, g) == None
  }

  predicate OpenGroup(s: Records, org: Id, g: Id) {
    g in s.groups && s.groups[g].org == org && (s.groups[g].status == Planned || s.groups[g].status == Active)
  }

  /** An account in use, in this role. */
  predicate Works(s: Records, org: Id, x: Id, role: Role) {
    x in s.users && s.users[x].org == org && s.users[x].role == role && s.users[x].status == UserStatus.ACTIVE && !s.users[x].deleted
  }

  /** The person's ACTIVE enrollments have become `to`; no row comes or goes, and no other row changes. */
  ghost predicate RowsEnded(s: Records, t: Records, x: Id, to: EnrollmentStatus) {
    && t.enrollments.Keys == s.enrollments.Keys
    && forall k :: k in s.enrollments ==>
         t.enrollments[k] == if k.1 == x && s.enrollments[k] == EnrollmentStatus.ACTIVE then to else s.enrollments[k]
  }

  /** The group's ACTIVE enrollments have become COMPLETED; no row comes or goes, and no other row changes. */
  ghost predicate GroupRowsEnded(s: Records, t: Records, g: Id) {
    && t.enrollments.Keys == s.enrollments.Keys
    && forall k :: k in s.enrollments ==>
         t.enrollments[k] == if k.0 == g && s.enrollments[k] == EnrollmentStatus.ACTIVE then EnrollmentStatus.COMPLETED
                             else s.enrollments[k]
  }

  /** No row of the school bars the person: none DROPPED, and none COMPLETED in a group still open. */
  ghost predicate Unbarred(s: Records, org: Id, x: Id) {
    forall g :: (g, x) in s.enrollments && g in s.groups && s.groups[g].org == org ==>
      && s.enrollments[(g, x)] != EnrollmentStatus.DROPPED
      && (s.enrollments[(g, x)] == EnrollmentStatus.COMPLETED ==> s.groups[g].status == Completed || s.groups[g].status == Archived)
  }

  /** Training that is over. */
  predicate Over(training: TrainingStatus) {
    training == GRADUATED || training == TrainingStatus.DROPPED || training == TrainingStatus.ARCHIVED
  }

  const TRAINING_MOVES: set<(TrainingStatus, TrainingStatus)> := {
    (TrainingStatus.INVITED, TrainingStatus.ACTIVE), (TrainingStatus.INVITED, TrainingStatus.DROPPED),
    (TrainingStatus.INVITED, TrainingStatus.ARCHIVED), (TrainingStatus.ACTIVE, GRADUATED),
    (TrainingStatus.ACTIVE, TrainingStatus.DROPPED), (TrainingStatus.ACTIVE, TrainingStatus.ARCHIVED),
    (PRACTICE, GRADUATED), (PRACTICE, TrainingStatus.DROPPED), (PRACTICE, TrainingStatus.ARCHIVED),
    (GRADUATED, TrainingStatus.ARCHIVED), (TrainingStatus.DROPPED, TrainingStatus.ARCHIVED)
  }

  const GROUP_MOVES: set<(GroupStatus, GroupStatus)> := {
    (Planned, Active), (Planned, Archived), (Active, Completed), (Active, Archived), (Completed, Archived)
  }

  const CAR_MOVES: set<(CarStatus, CarStatus)> := {
    (AVAILABLE, MAINTENANCE), (AVAILABLE, INACTIVE), (MAINTENANCE, AVAILABLE), (MAINTENANCE, INACTIVE), (INACTIVE, AVAILABLE)
  }

  const MEMBER_MOVES: set<(UserStatus, UserStatus)> := {
    (UserStatus.ACTIVE, BLOCKED), (UserStatus.ACTIVE, UserStatus.ARCHIVED), (BLOCKED, UserStatus.ACTIVE),
    (BLOCKED, UserStatus.ARCHIVED), (UserStatus.ARCHIVED, UserStatus.ACTIVE)
  }

  // ----- Students -----

  lemma CreateStudentMeans(s: Records, org: Id, x: Id, group: Option<Id>, category: Option<Category>,
                           transmission: Option<Transmission>)
    requires RulesOk(s)
    ensures var r := CreateStudent(s, org, x, group, category, transmission);
      && (r.Some? <==> x !in s.users && (group == None || OpenGroup(s, org, group.value)))
      && (r.Some? ==>
            && BelongsTo(r.value, x, group) && OnlyConcerns(s, r.value, x)
            && r.value.users[x] == User(org, STUDENT, UserStatus.INVITED, false)
            && r.value.profiles[x] == Profile(org, group, None, None, category, transmission, TrainingStatus.INVITED))
  {
    assert forall k :: k in s.enrollments && k.1 == x ==> x in s.users;
  }

  lemma UnbarredIff(s: Records, org: Id, x: Id)
    ensures Unbarred(s, org, x) <==> !BarredByHistory(s, org, x)
  {
    if BarredByHistory(s, org, x) {
      var k :| k in s.enrollments && k.1 == x && IsGroup(s, org, k.0)
             && (s.enrollments[k] == EnrollmentStatus.DROPPED
                 || (s.enrollments[k] == EnrollmentStatus.COMPLETED && s.groups[k.0].status.Open()));
      assert (k.0, x) in s.enrollments;
    } else if g :| (g, x) in s.enrollments && g in s.groups && s.groups[g].org == org
                   && (s.enrollments[(g, x)] == EnrollmentStatus.DROPPED
                       || (s.enrollments[(g, x)] == EnrollmentStatus.COMPLETED && s.groups[g].status.Open())) {
      assert BarredByHistory(s, org, x) by {
        assert (g, x) in s.enrollments && IsGroup(s, org, (g, x).0);
      }
    }
  }

  /** An ACTIVE row of the person in another group of the school that is still open. */
  ghost predicate OpenElsewhere(s: Records, org: Id, x: Id, g: Id) {
    exists h :: h != g && OpenGroup(s, org, h) && IsEnrolled(s, h, x)
  }

  lemma ElsewhereIff(s: Records, org: Id, x: Id, g: Id)
    requires x in s.profiles
    requires forall h :: s.profiles[x].group == Some(h) && h in s.groups && s.groups[h].status.Open() ==> h == g
    ensures EnrolledElsewhere(s, LeaveClosedGroup(s, x, g), org, x, g) <==> OpenElsewhere(s, org, x, g)
  {
    var left := LeaveClosedGroup(s, x, g);
    if h :| h != g && OpenGroup(s, org, h) && IsEnrolled(s, h, x) {
      assert (h, x) in left && left[(h, x)] == EnrollmentStatus.ACTIVE;
      assert EnrolledElsewhere(s, left, org, x, g) by {
        assert (h, x).0 != g && IsGroup(s, org, (h, x).0);
      }
    }
    if k :| k in left && k.1 == x && left[k] == EnrollmentStatus.ACTIVE && k.0 != g && IsGroup(s, org, k.0) && s.groups[k.0].status.Open() {
      assert IsEnrolled(s, k.0, x) && OpenGroup(s, org, k.0);
    }
  }

  /** Whatever the rows: the person's ACTIVE row in another, closed group of the profile becomes COMPLETED. */
  lemma AssignGroupWrites(s: Records, org: Id, x: Id, g: Id)
    requires IsStudent(s, org, x)
    ensures var r := AssignGroup(s, org, x, g);
      && (r.Some? <==>
            && s.users[x].status != UserStatus.ARCHIVED && !Over(s.profiles[x].training) && Unbarred(s, org, x)
            && OpenGroup(s, org, g) && !OpenElsewhere(s, org, x, g)
            && forall h :: s.profiles[x].group == Some(h) && h in s.groups && s.groups[h].status.Open() ==> h == g)
      && (r.Some? ==>
            && (g, x) in r.value.enrollments && r.value.enrollments[(g, x)] == EnrollmentStatus.ACTIVE
            && r.value.enrollments.Keys == s.enrollments.Keys + {(g, x)}
            && forall k :: k in s.enrollments && k != (g, x) ==>
                 r.value.enrollments[k] == if s.profiles[x].group == Some(k.0) && k.1 == x && k.0 in s.groups
                                              && s.enrollments[k] == EnrollmentStatus.ACTIVE
                                           then EnrollmentStatus.COMPLETED else s.enrollments[k])
  {
    UnbarredIff(s, org, x);
    if forall h :: s.profiles[x].group == Some(h) && h in s.groups && s.groups[h].status.Open() ==> h == g {
      ElsewhereIff(s, org, x, g);
    }
  }

  /**
   * Accepted exactly when the student is free to move: an open group of their own is the only one that can hold them
   * back, so the last check of the request, which comes after its first write, never fails.
   */
  lemma AssignGroupMeans(s: Records, org: Id, x: Id, g: Id)
    requires RulesOk(s) && IsStudent(s, org, x)
    ensures var r := AssignGroup(s, org, x, g);
      && (r.Some? <==>
            s.users[x].status != UserStatus.ARCHIVED && !Over(s.profiles[x].training) && Unbarred(s, org, x)
            && OpenGroup(s, org, g)
            && forall h :: s.profiles[x].group == Some(h) && s.groups[h].status.Open() ==> h == g)
      && (r.Some? ==>
            && BelongsTo(r.value, x, Some(g)) && OnlyConcerns(s, r.value, x)
            && r.value.profiles[x] == s.profiles[x].(group := Some(g)) && r.value.users == s.users
            && r.value.enrollments == s.enrollments[(g, x) := EnrollmentStatus.ACTIVE])
  {
    var r := AssignGroup(s, org, x, g);
    UnbarredIff(s, org, x);
    var left := LeaveClosedGroup(s, x, g);
    forall h
      ensures IsEnrolled(s, h, x) ==> EnrollmentOk(s, h, x)
    {
    }
    if r.Some? {
      assert left == s.enrollments;
      AssignGroupKeeps(s, org, x, g);
      forall h
        ensures IsEnrolled(r.value, h, x) ==> h == g
      {
        assert IsEnrolled(r.value, h, x) ==> EnrollmentOk(r.value, h, x);
      }
    } else {
      forall k | k in left && k.1 == x && left[k] == EnrollmentStatus.ACTIVE
        ensures EnrollmentOk(s, k.0, x)
      {
        assert IsEnrolled(s, k.0, x);
      }
    }
  }

  /** A student is removed exactly from the group they are in, whatever its state; none is left afterwards. */
  lemma RemoveFromGroupMeans(s: Records, org: Id, x: Id, g: Id)
    requires RulesOk(s)
    ensures var r := RemoveFromGroup(s, org, x, g);
      && (r.Some? <==> IsStudent(s, org, x) && IsEnrolled(s, g, x))
      && (r.Some? ==>
            && BelongsTo(r.value, x, None) && OnlyConcerns(s, r.value, x) && r.value.users == s.users
            && r.value.profiles[x] == s.profiles[x].(group := None) && r.value.enrollments == s.enrollments - {(g, x)})
  {
    if IsStudent(s, org, x) && IsEnrolled(s, g, x) {
      assert EnrollmentOk(s, g, x);
      RemoveFromGroupKeeps(s, org, x, g);
      var t := RemoveFromGroup(s, org, x, g).value;
      forall h
        ensures !IsEnrolled(t, h, x)
      {
        assert IsEnrolled(t, h, x) ==> EnrollmentOk(s, h, x);
      }
    }
  }

  /** A graduate's enrollments are COMPLETED, those of somebody who leaves or is archived DROPPED; no other row changes. */
  lemma ChangeTrainingMeans(s: Records, org: Id, x: Id, next: TrainingStatus)
    requires RulesOk(s)
    ensures var r := ChangeTraining(s, org, x, next);
      && (r.Some? <==> IsStudent(s, org, x) && (s.profiles[x].training, next) in TRAINING_MOVES)
      && (r.Some? ==>
            && OnlyConcerns(s, r.value, x) && r.value.users == s.users
            && r.value.profiles[x] == s.profiles[x].(training := next)
            && (next == GRADUATED ==> RowsEnded(s, r.value, x, EnrollmentStatus.COMPLETED))
            && (next == TrainingStatus.DROPPED || next == TrainingStatus.ARCHIVED ==> RowsEnded(s, r.value, x, EnrollmentStatus.DROPPED))
            && (if Over(next) then BelongsTo(r.value, x, None) && NeverAssigned(r.value, x)
                else r.value.enrollments == s.enrollments))
  {
    if ChangeTraining(s, org, x, next).Some? {
      ChangeTrainingKeeps(s, org, x, next);
      OwnRowsEnd(s, org, x);
      var t := ChangeTraining(s, org, x, next).value;
      if Over(next) {
        forall h
          ensures !IsEnrolled(t, h, x)
        {
          assert IsEnrolled(t, h, x) ==> EnrollmentOk(t, h, x);
        }
      }
    }
  }

  /** The updateMany asks for the groups of the school; an ACTIVE enrollment is in no other. */
  lemma OwnRowsEnd(s: Records, org: Id, x: Id)
    requires RulesOk(s) && x in s.profiles && s.profiles[x].org == org
    ensures forall to :: EndOwn(s, org, x, to).Keys == s.enrollments.Keys
    ensures forall to, k :: k in s.enrollments ==>
      EndOwn(s, org, x, to)[k] == if k.1 == x && s.enrollments[k] == EnrollmentStatus.ACTIVE then to else s.enrollments[k]
  {
    forall k | k in s.enrollments && k.1 == x && s.enrollments[k] == EnrollmentStatus.ACTIVE
      ensures EnrollmentOk(s, k.0, x) && IsEnrolled(s, k.0, x)
    {
    }
  }

  /**
   * Access is granted exactly when a practising student could book that instructor and car at this moment, and then the
   * default booking goes through at once.
   */
  lemma GrantPracticeMeans(s: Records, org: Id, x: Id, i: Id, c: Id)
    requires RulesOk(s) && IsStudent(s, org, x)
    ensures var r, p := GrantPractice(s, org, x, i, c), s.profiles[x];
      && (r.Some? <==>
            (p.training.ACTIVE? || p.training.PRACTICE?)
            && JudgeBooking(s.(profiles := s.profiles[x := p.(training := PRACTICE)]), org, x, Some(i), Some(c)) == Bookable(i, c))
      && (r.Some? ==>
            && JudgeBooking(r.value, org, x, None, None) == Bookable(i, c)
            && r.value == s.(profiles := s.profiles[x := p.(instructor := Some(i), car := Some(c), training := PRACTICE)]))
  {
  }

  lemma ArchiveStudentMeans(s: Records, org: Id, x: Id)
    requires RulesOk(s)
    ensures var r := ArchiveStudent(s, org, x);
      && (r.Some? <==> IsStudent(s, org, x))
      && (r.Some? ==>
            && BelongsTo(r.value, x, None) && NeverAssigned(r.value, x) && !EligibleForPractice(r.value, x)
            && OnlyConcerns(s, r.value, x) && RowsEnded(s, r.value, x, EnrollmentStatus.DROPPED)
            && r.value.users[x] == User(org, STUDENT, UserStatus.ARCHIVED, false)
            && r.value.profiles[x] == s.profiles[x].(training := TrainingStatus.ARCHIVED))
  {
    if IsStudent(s, org, x) {
      ArchiveStudentKeeps(s, org, x);
      OwnRowsEnd(s, org, x);
      var t := ArchiveStudent(s, org, x).value;
      forall h
        ensures !IsEnrolled(t, h, x)
      {
        assert IsEnrolled(t, h, x) ==> EnrollmentOk(t, h, x);
      }
    }
  }

  /**
   * A change of the card is accepted exactly when what was sent agrees with the student's car, if there is one. A field
   * that was sent takes the value sent, null included; the others stay.
   */
  lemma UpdateCardMeans(s: Records, org: Id, x: Id, category: Option<Option<Category>>,
                        transmission: Option<Option<Transmission>>)
    requires RulesOk(s)
    ensures var r := UpdateCard(s, org, x, category, transmission);
      && (r.Some? <==> IsStudent(s, org, x)
                       && forall c :: s.profiles[x].car == Some(c) ==>
                            (category.Some? ==> category.value == Some(s.cars[c].category))
                            && (transmission.Some? ==> transmission.value == Some(s.cars[c].transmission)))
      && (r.Some? ==>
            var p, q := s.profiles[x], r.value.profiles[x];
            && OnlyConcerns(s, r.value, x) && r.value.enrollments == s.enrollments && r.value.users == s.users
            && (category.Some? ==> q.category == category.value) && (category == None ==> q.category == p.category)
            && (transmission.Some? ==> q.transmission == transmission.value)
            && (transmission == None ==> q.transmission == p.transmission)
            && q.(category := p.category, transmission := p.transmission) == p)
  {
    if IsStudent(s, org, x) {
      assert ProfileOk(s, x);
    }
  }

  // ----- Groups -----

  /** Closing completes the enrollments in the group and bars nobody; no other enrollment changes. */
  lemma ChangeGroupStatusMeans(s: Records, org: Id, g: Id, next: GroupStatus)
    requires RulesOk(s)
    ensures var r := ChangeGroupStatus(s, org, g, next);
      && (r.Some? <==> g in s.groups && s.groups[g].org == org && (s.groups[g].status, next) in GROUP_MOVES)
      && (r.Some? ==>
            var t := r.value;
            && t == s.(groups := s.groups[g := s.groups[g].(status := next)], enrollments := t.enrollments)
            && (next == Completed || next == Archived ==> GroupRowsEnded(s, t, g))
            && (next == Planned || next == Active ==> t.enrollments == s.enrollments)
            && (forall h, x :: IsEnrolled(t, h, x) <==> IsEnrolled(s, h, x) && (h != g || next.Open()))
            && (forall school, x :: BarredByHistory(t, school, x) ==> BarredByHistory(s, school, x) || next.Open()))
  {
    if ChangeGroupStatus(s, org, g, next).Some? && !next.Open() {
      forall school, x
        ensures BarredByHistory(ChangeGroupStatus(s, org, g, next).value, school, x) ==> BarredByHistory(s, school, x)
      {
        ClosingBarsNobody(s, org, g, next, school, x);
      }
    }
  }

  lemma CreateGroupMeans(s: Records, org: Id, g: Id, teacher: Id)
    ensures var r := CreateGroup(s, org, g, teacher);
      && (r.Some? <==> g !in s.groups && Works(s, org, teacher, TEACHER))
      && (r.Some? ==> r.value == s.(groups := s.groups[g := Group(org, teacher, Planned)]))
  {
  }

  lemma ChangeTeacherMeans(s: Records, org: Id, g: Id, teacher: Id)
    requires RulesOk(s)
    ensures var r := ChangeTeacher(s, org, g, teacher);
      && (r.Some? <==> OpenGroup(s, org, g) && (teacher == s.groups[g].teacher || Works(s, org, teacher, TEACHER)))
      && (r.Some? ==> r.value == s.(groups := s.groups[g := Group(org, teacher, s.groups[g].status)])
                      && Holds(r.value, org, teacher, TEACHER))
  {
    if g in s.groups {
      assert teacher == s.groups[g].teacher ==> s.groups[g := s.groups[g].(teacher := teacher)] == s.groups;
    }
  }

  // ----- Cars -----

  ghost predicate Learns(s: Records, x: Id, c: Id) {
    x in s.profiles && s.profiles[x].car == Some(c)
  }

  /** Only the car's own row differs. */
  ghost predicate OnlyCar(s: Records, t: Records, c: Id, next: Car) {
    t == s.(cars := s.cars[c := next])
  }

  lemma LearnersAgree(s: Records, c: Id, x: Id)
    requires RulesOk(s) && Learns(s, x, c)
    ensures c in s.cars && s.profiles[x].org == s.cars[c].org && s.cars[c].instructor.Some?
    ensures s.profiles[x].instructor == s.cars[c].instructor
    ensures s.profiles[x].category == Some(s.cars[c].category) && s.profiles[x].transmission == Some(s.cars[c].transmission)
  {
    assert ProfileOk(s, x);
  }

  ghost predicate Unused(s: Records, c: Id) {
    forall x :: !Learns(s, x, c)
  }

  /** The learners agree with the car as it is, so with another instructor or another kind of car none of them would. */
  lemma StillMatchMeans(s: Records, org: Id, c: Id, next: Car)
    requires RulesOk(s) && IsCar(s, org, c) && next.org == s.cars[c].org && next.status == s.cars[c].status
    ensures StudentsStillMatch(s, org, c, next) <==> next == s.cars[c] || Unused(s, c)
  {
    StillMatchIff(s, org, c, next);
    if x :| Learns(s, x, c) {
      LearnersAgree(s, c, x);
      assert StudentsStillMatch(s, org, c, next) ==> next == s.cars[c];
    }
    forall x | Learns(s, x, c)
      ensures s.profiles[x].instructor == s.cars[c].instructor
      ensures s.profiles[x].category == Some(s.cars[c].category)
      ensures s.profiles[x].transmission == Some(s.cars[c].transmission)
    {
      LearnersAgree(s, c, x);
    }
    assert forall x :: x in s.profiles && s.profiles[x].car == Some(c) ==> Learns(s, x, c);
  }

  lemma CreateCarMeans(s: Records, org: Id, c: Id, instructor: Id, category: Category, transmission: Transmission)
    ensures var r := CreateCar(s, org, c, instructor, category, transmission);
      && (r.Some? <==> c !in s.cars && Works(s, org, instructor, INSTRUCTOR))
      && (r.Some? ==> OnlyCar(s, r.value, c, Car.Car(org, Some(instructor), category, transmission, AVAILABLE)))
  {
  }

  /**
   * A car may change in what its learners depend on exactly as long as it has none. A field that was sent takes the
   * value sent, the others stay; the instructor is never taken away here.
   */
  lemma UpdateCarMeans(s: Records, org: Id, c: Id, instructor: Option<Id>, category: Option<Category>,
                       transmission: Option<Transmission>)
    requires RulesOk(s) && IsCar(s, org, c)
    ensures var r, car := UpdateCar(s, org, c, instructor, category, transmission), s.cars[c];
      && (r.Some? <==>
            && (Unused(s, c) || ((instructor.Some? ==> instructor == car.instructor)
                                 && (category.Some? ==> category.value == car.category)
                                 && (transmission.Some? ==> transmission.value == car.transmission)))
            && (instructor.Some? && instructor != car.instructor ==>
                  car.status == AVAILABLE && Works(s, org, instructor.value, INSTRUCTOR)))
      && (r.Some? ==>
            && c in r.value.cars && OnlyCar(s, r.value, c, r.value.cars[c])
            && var next := r.value.cars[c];
            && next.org == org && next.status == car.status
            && (if instructor.Some? then next.instructor == instructor else next.instructor == car.instructor)
            && (if category.Some? then next.category == category.value else next.category == car.category)
            && (if transmission.Some? then next.transmission == transmission.value else next.transmission == car.transmission))
  {
    StillMatchMeans(s, org, c, NextCar(s.cars[c], instructor, category, transmission));
  }

  lemma ChangeCarStatusMeans(s: Records, org: Id, c: Id, next: CarStatus)
    requires RulesOk(s)
    ensures var r := ChangeCarStatus(s, org, c, next);
      && (r.Some? <==> c in s.cars && s.cars[c].org == org && (s.cars[c].status, next) in CAR_MOVES
                       && (next == AVAILABLE || forall x :: Learns(s, x, c) ==> s.profiles[x].training != PRACTICE))
      && (r.Some? ==> OnlyCar(s, r.value, c, s.cars[c].(status := next)))
  {
    forall x | Learns(s, x, c)
      ensures IsCar(s, org, c) ==> s.profiles[x].org == org
    {
      LearnersAgree(s, c, x);
    }
  }

  /** The instructor of a car may change exactly while nobody learns on it. */
  lemma AssignInstructorMeans(s: Records, org: Id, c: Id, instructor: Option<Id>)
    requires RulesOk(s) && IsCar(s, org, c)
    ensures var r := AssignInstructor(s, org, c, instructor);
      && (r.Some? <==> s.cars[c].status == AVAILABLE
                       && (instructor == s.cars[c].instructor
                           || ((instructor.Some? ==> Works(s, org, instructor.value, INSTRUCTOR)) && Unused(s, c))))
      && (r.Some? ==> OnlyCar(s, r.value, c, s.cars[c].(instructor := instructor)))
  {
    StillMatchMeans(s, org, c, s.cars[c].(instructor := instructor));
    forall x | Learns(s, x, c)
      ensures s.profiles[x].org == org
    {
      LearnersAgree(s, c, x);
    }
    if x :| Learns(s, x, c) {
      assert InUse(s, org, c);
    }
    assert forall x :: x in s.profiles && s.profiles[x].car == Some(c) ==> Learns(s, x, c);
    assert s.(cars := s.cars[c := s.cars[c]]) == s;
  }

  // ----- Roles -----

  /** No row names the person as a teacher, an instructor or the learner of a lesson. */
  ghost predicate Unreferenced(s: Records, x: Id) {
    && (forall g :: g in s.groups ==> s.groups[g].teacher != x)
    && (forall c :: c in s.cars ==> s.cars[c].instructor != Some(x))
    && (forall l :: l in s.lessons ==> s.lessons[l].instructor != x && s.lessons[l].student != x)
    && (forall y :: y in s.profiles ==> s.profiles[y].instructor != Some(x))
  }

  /** A student who has left no trace in the school. */
  ghost predicate Untouched(s: Records, x: Id) {
    && (x in s.profiles ==> s.profiles[x].group == None && s.profiles[x].instructor == None && s.profiles[x].car == None)
    && x !in s.marked && forall k :: k in s.enrollments ==> k.1 != x
  }

  /** Whoever the rows name somewhere is named in the role they hold, where roleBindings looks. */
  lemma ReferencedIsBound(s: Records, x: Id)
    requires RulesOk(s) && x in s.users && !Unreferenced(s, x)
    ensures Bound(s, x, s.users[x].role)
  {
    forall y | y in s.profiles && s.profiles[y].instructor == Some(x)
      ensures s.profiles[y].car.Some? && s.profiles[y].car.value in s.cars
      ensures s.cars[s.profiles[y].car.value].instructor == Some(x)
    {
      assert ProfileOk(s, y);
    }
    var role := s.users[x].role;
    if g :| g in s.groups && s.groups[g].teacher == x {
      assert role == TEACHER;
    } else if c :| c in s.cars && s.cars[c].instructor == Some(x) {
      assert role == INSTRUCTOR;
    } else if l :| l in s.lessons && s.lessons[l].instructor == x {
      assert role == INSTRUCTOR;
    } else if l :| l in s.lessons && s.lessons[l].student == x {
      assert role == STUDENT;
    }
  }

  lemma UnreferencedIsUnbound(s: Records, x: Id)
    requires x in s.users && Unreferenced(s, x)
    ensures Bound(s, x, s.users[x].role) <==> s.users[x].role == STUDENT && !Untouched(s, x)
  {
  }

  /** A role changes only for somebody no row refers to, in any role; a student leaves no profile or enrollment behind. */
  lemma ChangeRoleMeans(s: Records, org: Id, x: Id, next: Role)
    requires RulesOk(s) && x in s.users && next != s.users[x].role
    ensures var r, user := ChangeRole(s, org, x, next), s.users[x];
      && (r.Some? <==>
            !user.deleted && user.org == org && user.role != OWNER && next != OWNER
            && (user.status == UserStatus.INVITED || user.status == UserStatus.ACTIVE)
            && Unreferenced(s, x) && (user.role == STUDENT ==> Untouched(s, x)))
      && (r.Some? ==>
            && Unreferenced(r.value, x) && r.value.users[x] == user.(role := next) && OnlyConcerns(s, r.value, x)
            && (next == STUDENT ==>
                  (x in r.value.profiles
                   && r.value.profiles[x] == if x in s.profiles then s.profiles[x]
                                             else Profile(org, None, None, None, None, None, TrainingStatus.INVITED)))
            && (next != STUDENT && user.role != STUDENT ==> r.value.profiles == s.profiles)
            && r.value.enrollments == s.enrollments
            && (user.role == STUDENT ==> x !in r.value.profiles && forall k :: k in r.value.enrollments ==> k.1 != x))
  {
    if Unreferenced(s, x) {
      UnreferencedIsUnbound(s, x);
    } else {
      ReferencedIsBound(s, x);
    }
  }

  // ----- Accounts -----

  /** Somebody still INVITED stays so until they activate; every other change follows the table. */
  lemma ChangeMemberStatusMeans(s: Records, org: Id, x: Id, next: UserStatus)
    ensures var r := ChangeMemberStatus(s, org, x, next);
      && (r.Some? <==> x in s.users && !s.users[x].deleted && s.users[x].org == org
                       && (next == s.users[x].status || (s.users[x].status, next) in MEMBER_MOVES))
      && (r.Some? ==> r.value == s.(users := s.users[x := User(org, s.users[x].role, next, false)]))
  {
  }

  lemma ActivateMeans(s: Records, x: Id)
    ensures var r := Activate(s, x);
      && (r.Some? <==> x in s.users && !s.users[x].deleted && s.users[x].status == UserStatus.INVITED)
      && (r.Some? ==> r.value == s.(users := s.users[x := User(s.users[x].org, s.users[x].role, UserStatus.ACTIVE, false)]))
  {
  }

  /** An invitation makes an account, or sets the role of one nobody has activated; only a student gets a profile. */
  lemma InviteMeans(s: Records, org: Id, x: Id, role: Role)
    ensures var r := Invite(s, org, x, role);
      && (r.Some? <==> (x in s.users ==> !s.users[x].deleted && s.users[x].status == UserStatus.INVITED && s.users[x].org == org))
      && (r.Some? ==>
            && r.value == s.(users := s.users[x := User(org, role, UserStatus.INVITED, false)], profiles := r.value.profiles)
            && (role != STUDENT || x in s.profiles ==> r.value.profiles == s.profiles)
            && (role == STUDENT && x !in s.profiles ==>
                  r.value.profiles == s.profiles[x := Profile(org, None, None, None, None, None, TrainingStatus.INVITED)]))
  {
  }

  lemma DeleteUserMeans(s: Records, x: Id)
    requires x in s.users
    ensures var u := s.users[x]; DeleteUser(s, x) == Some(s.(users := s.users[x := User(u.org, u.role, u.status, true)]))
  {
  }

  // ----- Practice lessons -----

  /** A practice lesson may be booked exactly with an instructor at work and an available car of theirs that suits the student. */
  lemma BookableIff(s: Records, org: Id, x: Id, instructor: Option<Id>, car: Option<Id>, i: Id, c: Id)
    ensures JudgeBooking(s, org, x, instructor, car) == Bookable(i, c) <==>
            && Works(s, org, x, STUDENT) && x in s.profiles && s.profiles[x].org == org && s.profiles[x].training == PRACTICE
            && Some(i) == (if instructor.Some? then instructor else s.profiles[x].instructor) && Works(s, org, i, INSTRUCTOR)
            && Some(c) == (if car.Some? then car else s.profiles[x].car)
            && c in s.cars && s.cars[c].org == org && s.cars[c].instructor == Some(i) && s.cars[c].status == AVAILABLE
            && Some(s.cars[c].category) == s.profiles[x].category && Some(s.cars[c].transmission) == s.profiles[x].transmission
  {
  }

  lemma BookPracticeMeans(s: Records, org: Id, lesson: Id, x: Id, instructor: Option<Id>, car: Option<Id>)
    ensures var r, verdict := BookPractice(s, org, lesson, x, instructor, car), JudgeBooking(s, org, x, instructor, car);
      && (r.Some? <==> verdict.Bookable? && lesson !in s.lessons)
      && (r.Some? ==>
            r.value == s.(lessons := s.lessons[lesson := DrivingLesson(org, verdict.instructor, x, Some(verdict.car))]))
  {
  }

  lemma MarkAttendanceMeans(s: Records, x: Id)
    ensures var r := MarkAttendance(s, x);
      && (r.Some? <==> x in s.users)
      && (r.Some? ==> r.value == s.(marked := r.value.marked) && forall y :: y in r.value.marked <==> y in s.marked || y == x)
  {
  }
}
