/**
 * The services write the tables row by row inside a transaction. Each method checks and writes in the order of the
 * source, returns false where the source throws, amounts to the request it stands for, and keeps the rules of the rows.
 * The remaining clauses say what the request means to the school.
 */
module SchoolServices {
  import opened Accounts
  import opened Options
  import opened Timetable
  import opened School
  import opened SchoolEnrollments
  import opened SchoolCars
  import opened SchoolEffects

  /** The updateMany reads enrollments and groups only. */
  lemma EndOwnReads(s: Records, t: Records, org: Id, x: Id, to: EnrollmentStatus)
    requires s.enrollments == t.enrollments && s.groups == t.groups
    ensures EndOwn(s, org, x, to) == EndOwn(t, org, x, to)
  {
  }

  class Database {
    var users: map<Id, User>
    var profiles: map<Id, Profile>
    var groups: map<Id, Group>
    var enrollments: map<(Id, Id), EnrollmentStatus>
    var cars: map<Id, Car>
    var lessons: map<Id, DrivingLesson>
    var marked: set<Id>

    constructor ()
      ensures Valid() && Snapshot() == Empty()
    {
      users, profiles, groups, enrollments, cars, lessons, marked := map[], map[], map[], map[], map[], map[], {};
    }

    function Snapshot(): Records
      reads this
    {
      Records(users, profiles, groups, enrollments, cars, lessons, marked)
    }

    ghost predicate Valid()
      reads this
    {
      RulesOk(Snapshot())
    }

    // ----- StudentsService -----

    method CreateStudent(org: Id, x: Id, group: Option<Id>, category: Option<Category>, transmission: Option<Transmission>)
      returns (accepted: bool)
      requires Valid()
      modifies this`users, this`profiles, this`enrollments
      ensures Valid()
      ensures accepted == School.CreateStudent(old(Snapshot()), org, x, group, category, transmission).Some?
      ensures Snapshot() ==
              if accepted then School.CreateStudent(old(Snapshot()), org, x, group, category, transmission).value
              else old(Snapshot())
      ensures accepted ==>
                (BelongsTo(Snapshot(), x, group) && users == old(users)[x := User(org, STUDENT, UserStatus.INVITED, false)]
                 && profiles == old(profiles)[x := Profile(org, group, None, None, category, transmission, TrainingStatus.INVITED)])
      ensures accepted ==> OnlyConcerns(old(Snapshot()), Snapshot(), x)
    {
      ghost var start, after := Snapshot(), School.CreateStudent(Snapshot(), org, x, group, category, transmission);
      CreateStudentKeepsRules(start, org, x, group, category, transmission);
      CreateStudentMeans(start, org, x, group, category, transmission);
      if x in users {
        return false;
      }
      if group.Some? && (group.value !in groups || groups[group.value].org != org || !groups[group.value].status.Open()) {
        return false;
      }
      users := users[x := User(org, STUDENT, UserStatus.INVITED, false)];
      profiles := profiles[x := Profile(org, group, None, None, category, transmission, TrainingStatus.INVITED)];
      if group.Some? {
        enrollments := enrollments[(group.value, x) := EnrollmentStatus.ACTIVE];
      }
      assert after == Some(Snapshot());
      accepted := true;
    }

    method AssignGroup(org: Id, x: Id, g: Id) returns (accepted: bool)
      modifies this`profiles, this`enrollments
      ensures old(Valid()) ==> Valid()
      ensures accepted == School.AssignGroup(old(Snapshot()), org, x, g).Some?
      ensures Snapshot() == if accepted then School.AssignGroup(old(Snapshot()), org, x, g).value else old(Snapshot())
      ensures old(Valid()) && accepted ==>
                (BelongsTo(Snapshot(), x, Some(g)) && old(x in profiles)
                 && profiles == old(profiles)[x := old(profiles[x]).(group := Some(g))]
                 && enrollments == old(enrollments)[(g, x) := EnrollmentStatus.ACTIVE])
    {
      if !IsStudent(Snapshot(), org, x) || users[x].status == UserStatus.ARCHIVED || profiles[x].training.Terminal() {
        return false;
      }
      if BarredByHistory(Snapshot(), org, x) || g !in groups || groups[g].org != org || !groups[g].status.Open() {
        return false;
      }
      ghost var start := Snapshot();
      var before := enrollments;
      var current := profiles[x].group;
      if current.Some? && current.value != g && current.value in groups {
        if groups[current.value].status.Open() {
          return false;
        }
        if (current.value, x) in enrollments && enrollments[(current.value, x)] == EnrollmentStatus.ACTIVE {
          enrollments := enrollments[(current.value, x) := EnrollmentStatus.COMPLETED];
        }
      }
      assert enrollments == LeaveClosedGroup(start, x, g);
      if EnrolledElsewhere(Snapshot(), enrollments, org, x, g) {
        enrollments := before;
        return false;
      }
      profiles := profiles[x := profiles[x].(group := Some(g))];
      enrollments := enrollments[(g, x) := EnrollmentStatus.ACTIVE];
      assert School.AssignGroup(start, org, x, g) == Some(Snapshot());
      if RulesOk(start) {
        AssignGroupKeepsRules(start, org, x, g);
        AssignGroupMeans(start, org, x, g);
      }
      accepted := true;
    }

    method RemoveFromGroup(org: Id, x: Id, g: Id) returns (accepted: bool)
      requires Valid()
      modifies this`profiles, this`enrollments
      ensures Valid()
      ensures accepted == School.RemoveFromGroup(old(Snapshot()), org, x, g).Some?
      ensures Snapshot() ==
              if accepted then School.RemoveFromGroup(old(Snapshot()), org, x, g).value
              else old(Snapshot())
      ensures accepted <==> old(IsStudent(Snapshot(), org, x) && IsEnrolled(Snapshot(), g, x))
      ensures accepted ==>
                (BelongsTo(Snapshot(), x, None) && old(x in profiles) && enrollments == old(enrollments) - {(g, x)}
                 && profiles == old(profiles)[x := old(profiles[x]).(group := None)])
      ensures accepted ==> OnlyConcerns(old(Snapshot()), Snapshot(), x)
    {
      ghost var start, after := Snapshot(), School.RemoveFromGroup(Snapshot(), org, x, g);
      RemoveFromGroupKeepsRules(start, org, x, g);
      RemoveFromGroupMeans(start, org, x, g);
      if g !in groups || groups[g].org != org || !groups[g].status.Open() || !IsStudent(Snapshot(), org, x) {
        return false;
      }
      if (g, x) !in enrollments || enrollments[(g, x)] != EnrollmentStatus.ACTIVE {
        return false;
      }
      enrollments := enrollments - {(g, x)};
      if profiles[x].group == Some(g) {
        profiles := profiles[x := profiles[x].(group := None)];
      }
      assert after == Some(Snapshot());
      accepted := true;
    }

    method ChangeTraining(org: Id, x: Id, next: TrainingStatus) returns (accepted: bool)
      requires Valid()
      modifies this`profiles, this`enrollments
      ensures Valid()
      ensures accepted == School.ChangeTraining(old(Snapshot()), org, x, next).Some?
      ensures Snapshot() ==
              if accepted then School.ChangeTraining(old(Snapshot()), org, x, next).value
              else old(Snapshot())
      ensures accepted ==> old(x in profiles) && profiles == old(profiles)[x := old(profiles[x]).(training := next)]
      ensures accepted && next == GRADUATED ==> RowsEnded(old(Snapshot()), Snapshot(), x, EnrollmentStatus.COMPLETED)
      ensures accepted && (next == TrainingStatus.DROPPED || next == TrainingStatus.ARCHIVED)
              ==> RowsEnded(old(Snapshot()), Snapshot(), x, EnrollmentStatus.DROPPED)
      ensures accepted && Over(next) ==> BelongsTo(Snapshot(), x, None) && NeverAssigned(Snapshot(), x)
      ensures !Over(next) ==> enrollments == old(enrollments)
      ensures accepted ==> OnlyConcerns(old(Snapshot()), Snapshot(), x)
    {
      ghost var start, after := Snapshot(), School.ChangeTraining(Snapshot(), org, x, next);
      ChangeTrainingKeepsRules(start, org, x, next);
      if after.Some? {
        ChangeTrainingMeans(start, org, x, next);
      }
      if !IsStudent(Snapshot(), org, x) || !CanChangeTraining(profiles[x].training, next) {
        return false;
      }
      profiles := profiles[x := profiles[x].(training := next)];
      if next.Terminal() {
        EndOwnReads(start, Snapshot(), org, x, if next.GRADUATED? then EnrollmentStatus.COMPLETED else EnrollmentStatus.DROPPED);
        EndEnrollmentsOf(org, x, if next.GRADUATED? then EnrollmentStatus.COMPLETED else EnrollmentStatus.DROPPED);
      }
      assert after == Some(Snapshot());
      accepted := true;
    }

    /** The updateMany shared by changeTrainingStatus and archive. */
    method EndEnrollmentsOf(org: Id, x: Id, to: EnrollmentStatus)
      modifies this`enrollments
      ensures enrollments == EndOwn(old(Snapshot()), org, x, to)
    {
      enrollments := map k | k in enrollments ::
        if k.1 == x && enrollments[k] == EnrollmentStatus.ACTIVE && k.0 in groups && groups[k.0].org == org then to
        else enrollments[k];
    }

    method ArchiveStudent(org: Id, x: Id) returns (accepted: bool)
      requires Valid()
      modifies this`users, this`profiles, this`enrollments
      ensures Valid()
      ensures accepted == School.ArchiveStudent(old(Snapshot()), org, x).Some?
      ensures Snapshot() == if accepted then School.ArchiveStudent(old(Snapshot()), org, x).value else old(Snapshot())
      ensures accepted <==> old(IsStudent(Snapshot(), org, x))
      ensures accepted ==> RowsEnded(old(Snapshot()), Snapshot(), x, EnrollmentStatus.DROPPED)
      ensures accepted ==>
                (users == old(users)[x := User(org, STUDENT, UserStatus.ARCHIVED, false)] && old(x in profiles)
                 && profiles == old(profiles)[x := old(profiles[x]).(training := TrainingStatus.ARCHIVED)])
      ensures accepted ==> BelongsTo(Snapshot(), x, None) && NeverAssigned(Snapshot(), x) && !EligibleForPractice(Snapshot(), x)
      ensures accepted ==> OnlyConcerns(old(Snapshot()), Snapshot(), x)
    {
      ghost var start, after := Snapshot(), School.ArchiveStudent(Snapshot(), org, x);
      ArchiveStudentKeepsRules(start, org, x);
      ArchiveStudentMeans(start, org, x);
      if !IsStudent(Snapshot(), org, x) {
        return false;
      }
      users := users[x := users[x].(status := UserStatus.ARCHIVED)];
      profiles := profiles[x := profiles[x].(training := TrainingStatus.ARCHIVED)];
      EndOwnReads(start, Snapshot(), org, x, EnrollmentStatus.DROPPED);
      EndEnrollmentsOf(org, x, EnrollmentStatus.DROPPED);
      assert after == Some(Snapshot());
      accepted := true;
    }

    method GrantPractice(org: Id, x: Id, i: Id, c: Id) returns (accepted: bool)
      requires Valid()
      modifies this`profiles
      ensures Valid()
      ensures accepted == School.GrantPractice(old(Snapshot()), org, x, i, c).Some?
      ensures Snapshot() ==
              if accepted then School.GrantPractice(old(Snapshot()), org, x, i, c).value
              else old(Snapshot())
      ensures accepted ==> JudgeBooking(Snapshot(), org, x, None, None) == Bookable(i, c)
      ensures accepted ==>
                (old(x in profiles)
                 && profiles == old(profiles)[x := old(profiles[x]).(instructor := Some(i), car := Some(c), training := PRACTICE)])
    {
      ghost var start, after := Snapshot(), School.GrantPractice(Snapshot(), org, x, i, c);
      GrantPracticeKeepsRules(start, org, x, i, c);
      if IsStudent(Snapshot(), org, x) {
        GrantPracticeMeans(start, org, x, i, c);
      }
      if !IsStudent(Snapshot(), org, x) || !EligibleForPractice(Snapshot(), x) || !IsActive(Snapshot(), org, i, INSTRUCTOR) {
        return false;
      }
      if c !in cars || cars[c].org != org || cars[c].instructor == None {
        return false;
      }
      if cars[c].instructor.value != i || Some(cars[c].category) != profiles[x].category
         || Some(cars[c].transmission) != profiles[x].transmission || cars[c].status != AVAILABLE {
        return false;
      }
      profiles := profiles[x := profiles[x].(instructor := Some(i), car := Some(c), training := PRACTICE)];
      assert after == Some(Snapshot());
      accepted := true;
    }

    method UpdateCard(org: Id, x: Id, category: Option<Option<Category>>, transmission: Option<Option<Transmission>>)
      returns (accepted: bool)
      requires Valid()
      modifies this`profiles
      ensures Valid()
      ensures accepted == School.UpdateCard(old(Snapshot()), org, x, category, transmission).Some?
      ensures Snapshot() ==
              if accepted then School.UpdateCard(old(Snapshot()), org, x, category, transmission).value
              else old(Snapshot())
      ensures accepted ==>
                (old(x in profiles)
                 && profiles == old(profiles)[x := old(profiles[x]).(
                      category := if category.Some? then category.value else old(profiles[x]).category,
                      transmission := if transmission.Some? then transmission.value else old(profiles[x]).transmission)])
    {
      ghost var start, after := Snapshot(), School.UpdateCard(Snapshot(), org, x, category, transmission);
      UpdateCardKeepsRules(start, org, x, category, transmission);
      UpdateCardMeans(start, org, x, category, transmission);
      if !IsStudent(Snapshot(), org, x) {
        return false;
      }
      var existing := profiles[x];
      var nextCategory := if category.Some? then category.value else existing.category;
      var nextTransmission := if transmission.Some? then transmission.value else existing.transmission;
      if (category.Some? || transmission.Some?) && existing.car.Some? {
        var c := existing.car.value;
        if c !in cars || cars[c].org != org || Some(cars[c].category) != nextCategory
           || Some(cars[c].transmission) != nextTransmission {
          return false;
        }
      }
      profiles := profiles[x := existing.(category := nextCategory, transmission := nextTransmission)];
      assert after == Some(Snapshot());
      accepted := true;
    }

    // ----- GroupsService -----

    method ChangeGroupStatus(org: Id, g: Id, next: GroupStatus) returns (accepted: bool)
      requires Valid()
      modifies this`groups, this`enrollments
      ensures Valid()
      ensures accepted == School.ChangeGroupStatus(old(Snapshot()), org, g, next).Some?
      ensures Snapshot() ==
              if accepted then School.ChangeGroupStatus(old(Snapshot()), org, g, next).value
              else old(Snapshot())
      ensures accepted ==>
                (old(g in groups) && groups == old(groups)[g := old(groups[g]).(status := next)])
      ensures accepted && (next == Completed || next == Archived) ==> GroupRowsEnded(old(Snapshot()), Snapshot(), g)
      ensures next == Planned || next == Active ==> enrollments == old(enrollments)
      ensures !next.Open() ==>
                forall school, x :: BarredByHistory(Snapshot(), school, x) ==> old(BarredByHistory(Snapshot(), school, x))
    {
      ghost var start, after := Snapshot(), School.ChangeGroupStatus(Snapshot(), org, g, next);
      ChangeGroupStatusKeepsRules(start, org, g, next);
      if after.Some? {
        ChangeGroupStatusMeans(start, org, g, next);
      }
      if g !in groups || groups[g].org != org || !CanChangeGroup(groups[g].status, next) {
        return false;
      }
      if !next.Open() {
        CompleteEnrollmentsIn(g);
      }
      groups := groups[g := groups[g].(status := next)];
      assert after == Some(Snapshot());
      accepted := true;
    }

    /** The updateMany of a closing. */
    method CompleteEnrollmentsIn(g: Id)
      modifies this`enrollments
      ensures enrollments == EndGroup(old(Snapshot()), g)
    {
      enrollments := map k | k in enrollments ::
        if k.0 == g && enrollments[k] == EnrollmentStatus.ACTIVE then EnrollmentStatus.COMPLETED else enrollments[k];
    }

    method ChangeTeacher(org: Id, g: Id, teacher: Id) returns (accepted: bool)
      requires Valid()
      modifies this`groups
      ensures Valid()
      ensures accepted == School.ChangeTeacher(old(Snapshot()), org, g, teacher).Some?
      ensures Snapshot() ==
              if accepted then School.ChangeTeacher(old(Snapshot()), org, g, teacher).value
              else old(Snapshot())
      ensures accepted ==>
                (old(g in groups && groups[g].status.Open())
                 && Snapshot() == old(Snapshot()).(groups := old(groups)[g := old(groups[g]).(teacher := teacher)])
                 && Holds(Snapshot(), org, teacher, TEACHER))
    {
      ghost var start, after := Snapshot(), School.ChangeTeacher(Snapshot(), org, g, teacher);
      ChangeTeacherKeepsRules(start, org, g, teacher);
      if after.Some? {
        ChangeTeacherMeans(start, org, g, teacher);
      }
      if g !in groups || groups[g].org != org || !groups[g].status.Open() {
        return false;
      }
      if teacher != groups[g].teacher {
        if !IsActive(Snapshot(), org, teacher, TEACHER) {
          return false;
        }
        groups := groups[g := groups[g].(teacher := teacher)];
      }
      assert after == Some(Snapshot());
      accepted := true;
    }

    // ----- CarsService -----

    /** The next values are gathered field by field before anything is checked or written. */
    method UpdateCar(org: Id, c: Id, instructor: Option<Id>, category: Option<Category>, transmission: Option<Transmission>)
      returns (accepted: bool)
      requires Valid()
      modifies this`cars
      ensures Valid()
      ensures accepted == School.UpdateCar(old(Snapshot()), org, c, instructor, category, transmission).Some?
      ensures Snapshot() ==
              if accepted then School.UpdateCar(old(Snapshot()), org, c, instructor, category, transmission).value
              else old(Snapshot())
      ensures accepted ==>
                (old(IsCar(Snapshot(), org, c))
                 && cars == old(cars)[c := old(cars[c]).(
                      instructor := if instructor.Some? then instructor else old(cars[c]).instructor,
                      category := if category.Some? then category.value else old(cars[c]).category,
                      transmission := if transmission.Some? then transmission.value else old(cars[c]).transmission)]
                 && (cars[c] == old(cars[c]) || Unused(Snapshot(), c)))
    {
      ghost var start, after := Snapshot(), School.UpdateCar(Snapshot(), org, c, instructor, category, transmission);
      UpdateCarKeepsRules(start, org, c, instructor, category, transmission);
      if after.Some? {
        UpdateCarMeans(start, org, c, instructor, category, transmission);
      }
      if c !in cars || cars[c].org != org {
        return false;
      }
      var existing := cars[c];
      var i, k, t := existing.instructor, existing.category, existing.transmission;
      if instructor.Some? && instructor != existing.instructor {
        if existing.status != AVAILABLE || !IsActive(Snapshot(), org, instructor.value, INSTRUCTOR) {
          return false;
        }
        i := instructor;
      }
      if category.Some? && category.value != existing.category {
        k := category.value;
      }
      if transmission.Some? && transmission.value != existing.transmission {
        t := transmission.value;
      }
      var data := existing.(instructor := i, category := k, transmission := t);
      assert data == NextCar(existing, instructor, category, transmission);
      if data != existing && !StudentsStillMatch(Snapshot(), org, c, data) {
        return false;
      }
      cars := cars[c := data];
      assert after == Some(Snapshot());
      accepted := true;
    }

    method ChangeCarStatus(org: Id, c: Id, next: CarStatus) returns (accepted: bool)
      requires Valid()
      modifies this`cars
      ensures Valid()
      ensures accepted == School.ChangeCarStatus(old(Snapshot()), org, c, next).Some?
      ensures Snapshot() ==
              if accepted then School.ChangeCarStatus(old(Snapshot()), org, c, next).value
              else old(Snapshot())
      ensures accepted ==>
                (old(IsCar(Snapshot(), org, c))
                 && cars == old(cars)[c := old(cars[c]).(status := next)]
                 && (next == AVAILABLE || forall x :: Learns(Snapshot(), x, c) ==> profiles[x].training != PRACTICE))
    {
      ghost var start, after := Snapshot(), School.ChangeCarStatus(Snapshot(), org, c, next);
      ChangeCarStatusKeepsRules(start, org, c, next);
      ChangeCarStatusMeans(start, org, c, next);
      if c !in cars || cars[c].org != org || !CanChangeCar(cars[c].status, next) {
        return false;
      }
      if !next.AVAILABLE? && InPractice(Snapshot(), org, c) {
        return false;
      }
      cars := cars[c := cars[c].(status := next)];
      assert after == Some(Snapshot());
      accepted := true;
    }

    method AssignInstructor(org: Id, c: Id, instructor: Option<Id>) returns (accepted: bool)
      requires Valid()
      modifies this`cars
      ensures Valid()
      ensures accepted == School.AssignInstructor(old(Snapshot()), org, c, instructor).Some?
      ensures Snapshot() ==
              if accepted then School.AssignInstructor(old(Snapshot()), org, c, instructor).value
              else old(Snapshot())
      ensures accepted ==>
                (old(IsCar(Snapshot(), org, c))
                 && cars == old(cars)[c := old(cars[c]).(instructor := instructor)]
                 && (instructor == old(cars[c]).instructor || Unused(Snapshot(), c)))
    {
      ghost var start, after := Snapshot(), School.AssignInstructor(Snapshot(), org, c, instructor);
      AssignInstructorKeepsRules(start, org, c, instructor);
      if IsCar(Snapshot(), org, c) {
        AssignInstructorMeans(start, org, c, instructor);
      }
      if c !in cars || cars[c].org != org || cars[c].status != AVAILABLE {
        return false;
      }
      if instructor == cars[c].instructor {
        return true;
      }
      if instructor == None {
        if InUse(Snapshot(), org, c) {
          return false;
        }
      } else if !IsActive(Snapshot(), org, instructor.value, INSTRUCTOR)
                || !StudentsStillMatch(Snapshot(), org, c, cars[c].(instructor := instructor)) {
        return false;
      }
      cars := cars[c := cars[c].(instructor := instructor)];
      assert after == Some(Snapshot());
      accepted := true;
    }

    // ----- UsersService -----

    /** A former student's profile is deleted, and a new student without one gets a fresh one. */
    method ReplaceProfile(org: Id, x: Id, role: Role, next: Role)
      modifies this`profiles
      ensures var kept := if role == STUDENT then old(profiles) - {x} else old(profiles);
        profiles == if next == STUDENT then EnsureProfile(kept, org, x) else kept
    {
      if role == STUDENT {
        profiles := profiles - {x};
      }
      if next == STUDENT && x !in profiles {
        profiles := profiles[x := Profile(org, None, None, None, None, None, TrainingStatus.INVITED)];
      }
    }

    method ChangeRole(org: Id, x: Id, next: Role) returns (accepted: bool)
      requires Valid()
      modifies this`users, this`profiles
      ensures Valid()
      ensures accepted == School.ChangeRole(old(Snapshot()), org, x, next).Some?
      ensures Snapshot() == if accepted then School.ChangeRole(old(Snapshot()), org, x, next).value else old(Snapshot())
      ensures accepted ==>
                (old(x in users)
                 && if next == old(users[x]).role then Snapshot() == old(Snapshot())
                    else Unreferenced(Snapshot(), x) && users == old(users)[x := old(users[x]).(role := next)]
                         && profiles == if old(users[x]).role == STUDENT then old(profiles) - {x}
                                        else if next != STUDENT || x in old(profiles) then old(profiles)
                                        else old(profiles)[x := Profile(org, None, None, None, None, None, TrainingStatus.INVITED)])
    {
      ghost var start, after := Snapshot(), School.ChangeRole(Snapshot(), org, x, next);
      ChangeRoleKeepsRules(start, org, x, next);
      if x !in users || users[x].deleted || users[x].org != org || users[x].role == OWNER || next == OWNER {
        return false;
      }
      var member := users[x];
      if member.role == next {
        return true;
      }
      if (member.status != UserStatus.INVITED && member.status != UserStatus.ACTIVE) || Bound(Snapshot(), x, member.role) {
        return false;
      }
      assert after.Some?;
      users := users[x := member.(role := next)];
      ReplaceProfile(member.org, x, member.role, next);
      assert Snapshot() == after.value;
      ChangeRoleMeans(start, org, x, next);
      accepted := true;
    }
  }
}
