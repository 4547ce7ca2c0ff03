/** Cars, instructors and roles over runs of atomic requests, and what they guarantee to a practice booking. */
module SchoolCars {
  import opened Accounts
  import opened Options
  import opened Timetable
  import opened School
  import opened SchoolRuns
  import opened SchoolEnrollments

  // ----- Roles -----

  /** A person who once was ACTIVE in the role and has kept it; blocked or deleted people keep it too. */
  predicate Holds(s: Records, org: Id, x: Id, role: Role) {
    x in s.users && s.users[x].org == org && s.users[x].role == role && s.users[x].status != UserStatus.INVITED
  }

  ghost predicate TeachersOk(s: Records) {
    forall g :: g in s.groups ==> Holds(s, s.groups[g].org, s.groups[g].teacher, TEACHER)
  }

  ghost predicate CarInstructorsOk(s: Records) {
    forall c :: c in s.cars && s.cars[c].instructor.Some? ==> Holds(s, s.cars[c].org, s.cars[c].instructor.value, INSTRUCTOR)
  }

  ghost predicate LessonPeopleOk(s: Records) {
    forall l :: l in s.lessons ==>
      (Holds(s, s.lessons[l].org, s.lessons[l].instructor, INSTRUCTOR) && Holds(s, s.lessons[l].org, s.lessons[l].student, STUDENT))
  }

  /** Whoever is named as a teacher, an instructor or a learner has that role in the same school. */
  ghost predicate RolesOk(s: Records) {
    TeachersOk(s) && CarInstructorsOk(s) && LessonPeopleOk(s)
  }

  ghost predicate StandingKept(s: Records, t: Records) {
    forall org, x, role :: Holds(s, org, x, role) ==> Holds(t, org, x, role)
  }

  lemma OthersKeepStanding(s: Records, r: Request)
    requires !r.RChangeRole?
    ensures StandingKept(s, Step(s, r))
  {
  }

  lemma OthersKeepTeachers(s: Records, r: Request)
    requires TeachersOk(s) && !r.RChangeRole?
    ensures TeachersOk(Step(s, r))
  {
    OthersKeepStanding(s, r);
  }

  lemma OthersKeepCarInstructors(s: Records, r: Request)
    requires CarInstructorsOk(s) && !r.RChangeRole?
    ensures CarInstructorsOk(Step(s, r))
  {
    OthersKeepStanding(s, r);
  }

  lemma BookingKeepsLessonPeople(s: Records, r: Request)
    requires LessonPeopleOk(s) && r.RBookPractice?
    ensures LessonPeopleOk(Step(s, r))
  {
  }

  lemma OthersKeepLessonPeople(s: Records, r: Request)
    requires LessonPeopleOk(s) && !r.RChangeRole? && !r.RBookPractice?
    ensures LessonPeopleOk(Step(s, r))
  {
    OthersKeepStanding(s, r);
    assert Step(s, r).lessons == s.lessons;
  }

  lemma ChangeRoleKeepsRoles(s: Records, org: Id, x: Id, next: Role)
    requires RolesOk(s) && ChangeRole(s, org, x, next).Some?
    ensures RolesOk(ChangeRole(s, org, x, next).value)
  {
  }

  lemma StepKeepsRoles(s: Records, r: Request)
    requires RolesOk(s)
    ensures RolesOk(Step(s, r))
  {
    if r.RChangeRole? {
      if Apply(s, r).Some? {
        ChangeRoleKeepsRoles(s, r.org, r.x, r.role);
      }
    } else {
      OthersKeepTeachers(s, r);
      OthersKeepCarInstructors(s, r);
      if r.RBookPractice? {
        BookingKeepsLessonPeople(s, r);
      } else {
        OthersKeepLessonPeople(s, r);
      }
    }
  }

  // ----- Cars -----

  /** A learner agrees with the car in everything, is known to its instructor, and practises on an available car only. */
  predicate ProfileOk(s: Records, x: Id)
    requires x in s.profiles
  {
    var p := s.profiles[x];
    && x in s.users && s.users[x].org == p.org
    && match p.car
       case None => p.instructor == None && !p.training.PRACTICE?
       case Some(c) =>
         && Holds(s, p.org, x, STUDENT)
         && IsCar(s, p.org, c) && p.instructor.Some? && p.instructor == s.cars[c].instructor
         && p.category == Some(s.cars[c].category) && p.transmission == Some(s.cars[c].transmission)
         && (p.training.PRACTICE? ==> s.cars[c].status == AVAILABLE)
  }

  ghost predicate ProfilesOk(s: Records) {
    forall x :: x in s.profiles ==> ProfileOk(s, x)
  }

  /** A profile whose card, person and car are as before is as sound as before. */
  lemma ProfileFrame(s: Records, t: Records, x: Id)
    requires x in s.profiles && ProfileOk(s, x) && x in t.profiles
    requires x in t.users && t.users[x].org == s.users[x].org
    requires Holds(s, s.profiles[x].org, x, STUDENT) ==> Holds(t, s.profiles[x].org, x, STUDENT)
    requires t.profiles[x] == s.profiles[x].(group := t.profiles[x].group, training := t.profiles[x].training)
    requires t.profiles[x].training.PRACTICE? ==> s.profiles[x].training.PRACTICE?
    requires forall c :: s.profiles[x].car == Some(c) ==> c in t.cars && t.cars[c] == s.cars[c]
    ensures ProfileOk(t, x)
  {
  }

  predicate TouchesCards(r: Request) {
    || r.RGrantPractice? || r.RUpdateCard? || r.RUpdateCar? || r.RChangeCarStatus? || r.RAssignInstructor? || r.RChangeRole?
  }

  lemma OthersKeepProfiles(s: Records, r: Request)
    requires ProfilesOk(s) && !TouchesCards(r)
    ensures ProfilesOk(Step(s, r))
  {
    OthersKeepStanding(s, r);
    var t := Step(s, r);
    forall x | x in t.profiles
      ensures ProfileOk(t, x)
    {
      if x in s.profiles {
        ProfileFrame(s, t, x);
      }
    }
  }

  lemma GrantPracticeKeepsProfiles(s: Records, org: Id, x: Id, i: Id, c: Id)
    requires ProfilesOk(s) && GrantPractice(s, org, x, i, c).Some?
    ensures ProfilesOk(GrantPractice(s, org, x, i, c).value)
  {
  }

  lemma UpdateCardKeepsProfiles(s: Records, org: Id, x: Id, category: Option<Option<Category>>,
                                transmission: Option<Option<Transmission>>)
    requires ProfilesOk(s) && UpdateCard(s, org, x, category, transmission).Some?
    ensures ProfilesOk(UpdateCard(s, org, x, category, transmission).value)
  {
  }

  lemma ChangeRoleKeepsProfiles(s: Records, org: Id, x: Id, next: Role)
    requires ProfilesOk(s) && ChangeRole(s, org, x, next).Some?
    ensures ProfilesOk(ChangeRole(s, org, x, next).value)
  {
  }

  /** assertStudentsStillMatch asks exactly that, whatever is null. */
  lemma StillMatchIff(s: Records, org: Id, c: Id, next: Car)
    requires ProfilesOk(s) && IsCar(s, org, c)
    ensures StudentsStillMatch(s, org, c, next) <==>
            forall x :: x in s.profiles && s.profiles[x].car == Some(c) ==>
              && s.profiles[x].instructor == next.instructor
              && s.profiles[x].category == Some(next.category) && s.profiles[x].transmission == Some(next.transmission)
  {
  }

  lemma UpdateCarKeepsProfiles(s: Records, org: Id, c: Id, instructor: Option<Id>, category: Option<Category>,
                               transmission: Option<Transmission>)
    requires ProfilesOk(s) && UpdateCar(s, org, c, instructor, category, transmission).Some?
    ensures ProfilesOk(UpdateCar(s, org, c, instructor, category, transmission).value)
  {
  }

  lemma ChangeCarStatusKeepsProfiles(s: Records, org: Id, c: Id, status: CarStatus)
    requires ProfilesOk(s) && ChangeCarStatus(s, org, c, status).Some?
    ensures ProfilesOk(ChangeCarStatus(s, org, c, status).value)
  {
  }

  lemma AssignInstructorKeepsProfiles(s: Records, org: Id, c: Id, instructor: Option<Id>)
    requires ProfilesOk(s) && AssignInstructor(s, org, c, instructor).Some?
    ensures ProfilesOk(AssignInstructor(s, org, c, instructor).value)
  {
  }

  lemma StepKeepsProfiles(s: Records, r: Request)
    requires ProfilesOk(s)
    ensures ProfilesOk(Step(s, r))
  {
    if !TouchesCards(r) {
      OthersKeepProfiles(s, r);
    } else if Apply(s, r).Some? {
      match r
      case RGrantPractice(org, x, i, c) => GrantPracticeKeepsProfiles(s, org, x, i, c);
      case RUpdateCard(org, x, category, transmission) => UpdateCardKeepsProfiles(s, org, x, category, transmission);
      case RUpdateCar(org, c, i, category, transmission) => UpdateCarKeepsProfiles(s, org, c, i, category, transmission);
      case RChangeCarStatus(org, c, status) => ChangeCarStatusKeepsProfiles(s, org, c, status);
      case RAssignInstructor(org, c, i) => AssignInstructorKeepsProfiles(s, org, c, i);
      case RChangeRole(org, x, next) => ChangeRoleKeepsProfiles(s, org, x, next);
    }
  }

  lemma {:induction false} RunKeepsCarsAndRoles(s: Records, requests: seq<Request>)
    requires ProfilesOk(s) && RolesOk(s)
    ensures ProfilesOk(RunAll(s, requests)) && RolesOk(RunAll(s, requests))
    decreases |requests|
  {
    if requests != [] {
      StepKeepsProfiles(s, requests[0]);
      StepKeepsRoles(s, requests[0]);
      RunKeepsCarsAndRoles(Step(s, requests[0]), requests[1..]);
    }
  }

  /** Over every run: who has a car agrees with it, and who practises has a car that is available. */
  lemma CarsMatchTheirStudents(requests: seq<Request>, x: Id)
    requires x in RunAll(Empty(), requests).profiles
    ensures var s := RunAll(Empty(), requests); var p := s.profiles[x];
      && (p.training.PRACTICE? ==> p.car.Some? && p.car.value in s.cars && s.cars[p.car.value].status == AVAILABLE)
      && (p.car.Some? ==>
            && IsCar(s, p.org, p.car.value) && p.instructor.Some? && s.cars[p.car.value].instructor == p.instructor
            && Holds(s, p.org, p.instructor.value, INSTRUCTOR)
            && p.category == Some(s.cars[p.car.value].category)
            && p.transmission == Some(s.cars[p.car.value].transmission))
  {
    RunKeepsCarsAndRoles(Empty(), requests);
    assert ProfileOk(RunAll(Empty(), requests), x);
  }

  /** Booking a practising student with the default instructor and car fails on inactive or deleted people only. */
  lemma DefaultBookingFailsOnPeopleOnly(requests: seq<Request>, org: Id, x: Id)
    requires var s := RunAll(Empty(), requests);
      x in s.profiles && s.profiles[x].org == org && s.profiles[x].training.PRACTICE?
    ensures var s := RunAll(Empty(), requests); var p := s.profiles[x];
      && p.instructor.Some? && p.instructor.value in s.users && p.car.Some? && x in s.users
      && JudgeBooking(s, org, x, None, None)
         == if s.users[x].deleted then StudentNotFound
            else if s.users[x].status != UserStatus.ACTIVE then NotInPractice
            else if s.users[p.instructor.value].deleted then InstructorNotFound
            else if s.users[p.instructor.value].status != UserStatus.ACTIVE then InstructorNotActive
            else Bookable(p.instructor.value, p.car.value)
  {
    RunKeepsCarsAndRoles(Empty(), requests);
    var s := RunAll(Empty(), requests);
    assert ProfileOk(s, x);
    assert Holds(s, org, s.profiles[x].instructor.value, INSTRUCTOR);
  }
}
