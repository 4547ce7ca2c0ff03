/** People, groups, enrollments and cars of the driving schools: what each accepted request does to the rows. */
module School {
  import opened Accounts
  import opened Options
  import opened Timetable

  datatype TrainingStatus = INVITED | ACTIVE | PRACTICE | GRADUATED | DROPPED | ARCHIVED {
    predicate Terminal() {
      GRADUATED? || DROPPED? || ARCHIVED?
    }
  }

  datatype EnrollmentStatus = ACTIVE | COMPLETED | DROPPED

  datatype CarStatus = AVAILABLE | MAINTENANCE | INACTIVE

  datatype Category = A | B | C | D

  datatype Transmission = MANUAL | AUTOMATIC

  datatype User = User(org: Id, role: Role, status: UserStatus, deleted: bool)

  datatype Profile = Profile(org: Id, group: Option<Id>, instructor: Option<Id>, car: Option<Id>,
                             category: Option<Category>, transmission: Option<Transmission>, training: TrainingStatus)

  datatype Car = Car(org: Id, instructor: Option<Id>, category: Category, transmission: Transmission, status: CarStatus)

  datatype DrivingLesson = DrivingLesson(org: Id, instructor: Id, student: Id, car: Option<Id>)

  /** Profiles are keyed by their user, enrollments by (group, student); `marked` holds students with attendance marks. */
  datatype Records = Records(users: map<Id, User>, profiles: map<Id, Profile>, groups: map<Id, Group>,
                             enrollments: map<(Id, Id), EnrollmentStatus>, cars: map<Id, Car>,
                             lessons: map<Id, DrivingLesson>, marked: set<Id>)

  // ----- Lookups -----

  predicate IsStudent(s: Records, org: Id, x: Id) {
    && x in s.users && s.users[x].org == org && s.users[x].role == STUDENT && !s.users[x].deleted
    && x in s.profiles && s.profiles[x].org == org
  }

  predicate IsGroup(s: Records, org: Id, g: Id) {
    g in s.groups && s.groups[g].org == org
  }

  predicate IsCar(s: Records, org: Id, c: Id) {
    c in s.cars && s.cars[c].org == org
  }

  /** requireTeacher and requireInstructor. */
  predicate IsActive(s: Records, org: Id, x: Id, role: Role) {
    x in s.users && s.users[x] == User(org, role, UserStatus.ACTIVE, false)
  }

  predicate IsEnrolled(s: Records, g: Id, x: Id) {
    (g, x) in s.enrollments && s.enrollments[(g, x)] == EnrollmentStatus.ACTIVE
  }

  /** updateMany on the ACTIVE enrollments of one student in the school's groups. */
  function EndOwn(s: Records, org: Id, x: Id, to: EnrollmentStatus): map<(Id, Id), EnrollmentStatus> {
    map k | k in s.enrollments :: if k.1 == x && IsEnrolled(s, k.0, x) && IsGroup(s, org, k.0) then to else s.enrollments[k]
  }

  /** updateMany on the ACTIVE enrollments of one group. */
  function EndGroup(s: Records, g: Id): map<(Id, Id), EnrollmentStatus> {
    map k | k in s.enrollments :: if k.0 == g && IsEnrolled(s, g, k.1) then EnrollmentStatus.COMPLETED else s.enrollments[k]
  }

  // ----- Students -----

  function NewProfile(org: Id, group: Option<Id>, category: Option<Category>, transmission: Option<Transmission>): Profile {
    Profile(org, group, None, None, category, transmission, TrainingStatus.INVITED)
  }

  function CreateStudent(s: Records, org: Id, x: Id, group: Option<Id>, category: Option<Category>,
                         transmission: Option<Transmission>): Option<Records> {
    if x in s.users then None
    else if group.Some? && !(IsGroup(s, org, group.value) && s.groups[group.value].status.Open()) then None
    else
      Some(s.(users := s.users[x := User(org, STUDENT, UserStatus.INVITED, false)],
              profiles := s.profiles[x := NewProfile(org, group, category, transmission)],
              enrollments := if group == None then s.enrollments
                             else s.enrollments[(group.value, x) := EnrollmentStatus.ACTIVE]))
  }

  /** A dropped student, or one who completed a group that is still open, is not enrolled again. */
  predicate BarredByHistory(s: Records, org: Id, x: Id) {
    exists k :: k in s.enrollments && k.1 == x && IsGroup(s, org, k.0)
             && (s.enrollments[k] == EnrollmentStatus.DROPPED
                 || (s.enrollments[k] == EnrollmentStatus.COMPLETED && s.groups[k.0].status.Open()))
  }

  predicate EnrolledElsewhere(s: Records, enrollments: map<(Id, Id), EnrollmentStatus>, org: Id, x: Id, g: Id) {
    exists k :: k in enrollments && k.1 == x && enrollments[k] == EnrollmentStatus.ACTIVE && k.0 != g
             && IsGroup(s, org, k.0) && s.groups[k.0].status.Open()
  }

  function LeaveClosedGroup(s: Records, x: Id, g: Id): map<(Id, Id), EnrollmentStatus>
    requires x in s.profiles
  {
    match s.profiles[x].group
    case None => s.enrollments
    case Some(current) =>
      if current == g || current !in s.groups || !IsEnrolled(s, current, x) then s.enrollments
      else s.enrollments[(current, x) := EnrollmentStatus.COMPLETED]
  }

  function AssignGroup(s: Records, org: Id, x: Id, g: Id): Option<Records> {
    if !IsStudent(s, org, x) || s.users[x].status == UserStatus.ARCHIVED || s.profiles[x].training.Terminal() then None
    else if BarredByHistory(s, org, x) || !IsGroup(s, org, g) || !s.groups[g].status.Open() then None
    else
      var current := s.profiles[x].group;
      if current.Some? && current.value != g && current.value in s.groups && s.groups[current.value].status.Open() then None
      else
        var left := LeaveClosedGroup(s, x, g);
        if EnrolledElsewhere(s, left, org, x, g) then None
        else Some(s.(profiles := s.profiles[x := s.profiles[x].(group := Some(g))],
                     enrollments := left[(g, x) := EnrollmentStatus.ACTIVE]))
  }

  function RemoveFromGroup(s: Records, org: Id, x: Id, g: Id): Option<Records> {
    if !IsGroup(s, org, g) || !s.groups[g].status.Open() || !IsStudent(s, org, x) || !IsEnrolled(s, g, x) then None
    else
      var p := s.profiles[x];
      Some(s.(enrollments := s.enrollments - {(g, x)},
              profiles := if p.group == Some(g) then s.profiles[x := p.(group := None)] else s.profiles))
  }

  predicate CanChangeTraining(current: TrainingStatus, next: TrainingStatus) {
    match current
    case INVITED => next.ACTIVE? || next.DROPPED? || next.ARCHIVED?
    case ACTIVE => next.GRADUATED? || next.DROPPED? || next.ARCHIVED?
    case PRACTICE => next.GRADUATED? || next.DROPPED? || next.ARCHIVED?
    case GRADUATED => next.ARCHIVED?
    case DROPPED => next.ARCHIVED?
    case ARCHIVED => false
  }

  function ChangeTraining(s: Records, org: Id, x: Id, next: TrainingStatus): Option<Records> {
    if !IsStudent(s, org, x) || !CanChangeTraining(s.profiles[x].training, next) then None
    else
      Some(s.(profiles := s.profiles[x := s.profiles[x].(training := next)],
              enrollments := if !next.Terminal() then s.enrollments
                             else EndOwn(s, org, x, if next.GRADUATED? then EnrollmentStatus.COMPLETED else EnrollmentStatus.DROPPED)))
  }

  predicate EligibleForPractice(s: Records, x: Id)
    requires x in s.users && x in s.profiles
  {
    var p := s.profiles[x];
    s.users[x].status == UserStatus.ACTIVE && (p.training.ACTIVE? || p.training.PRACTICE?)
    && p.category.Some? && p.transmission.Some?
  }

  function GrantPractice(s: Records, org: Id, x: Id, instructor: Id, c: Id): Option<Records> {
    if !IsStudent(s, org, x) || !EligibleForPractice(s, x) || !IsActive(s, org, instructor, INSTRUCTOR) then None
    else if !IsCar(s, org, c) then None
    else
      var p, car := s.profiles[x], s.cars[c];
      if car.instructor != Some(instructor) || Some(car.category) != p.category || Some(car.transmission) != p.transmission
         || car.status != AVAILABLE then None
      else
        Some(s.(profiles := s.profiles[x := p.(instructor := Some(instructor), car := Some(c), training := PRACTICE)]))
  }

  function ArchiveStudent(s: Records, org: Id, x: Id): Option<Records> {
    if !IsStudent(s, org, x) then None
    else
      Some(s.(users := s.users[x := s.users[x].(status := UserStatus.ARCHIVED)],
              profiles := s.profiles[x := s.profiles[x].(training := TrainingStatus.ARCHIVED)],
              enrollments := EndOwn(s, org, x, EnrollmentStatus.DROPPED)))
  }

  /** A field that is not sent is None; one sent as null is Some(None). */
  function NextCard(p: Profile, category: Option<Option<Category>>, transmission: Option<Option<Transmission>>): Profile {
    p.(category := if category == None then p.category else category.value,
       transmission := if transmission == None then p.transmission else transmission.value)
  }

  function UpdateCard(s: Records, org: Id, x: Id, category: Option<Option<Category>>,
                      transmission: Option<Option<Transmission>>): Option<Records> {
    if !IsStudent(s, org, x) then None
    else
      var p := s.profiles[x];
      var next := NextCard(p, category, transmission);
      if (category.Some? || transmission.Some?) && p.car.Some?
         && !(IsCar(s, org, p.car.value) && Some(s.cars[p.car.value].category) == next.category
              && Some(s.cars[p.car.value].transmission) == next.transmission) then None
      else Some(s.(profiles := s.profiles[x := next]))
  }

  // ----- Groups -----

  function CreateGroup(s: Records, org: Id, g: Id, teacher: Id): Option<Records> {
    if g in s.groups || !IsActive(s, org, teacher, TEACHER) then None
    else Some(s.(groups := s.groups[g := Group(org, teacher, Planned)]))
  }

  function ChangeTeacher(s: Records, org: Id, g: Id, teacher: Id): Option<Records> {
    if !IsGroup(s, org, g) || !s.groups[g].status.Open() then None
    else if teacher == s.groups[g].teacher then Some(s)
    else if !IsActive(s, org, teacher, TEACHER) then None
    else Some(s.(groups := s.groups[g := s.groups[g].(teacher := teacher)]))
  }

  function ChangeGroupStatus(s: Records, org: Id, g: Id, next: GroupStatus): Option<Records> {
    if !IsGroup(s, org, g) || !CanChangeGroup(s.groups[g].status, next) then None
    else Some(s.(groups := s.groups[g := s.groups[g].(status := next)],
                 enrollments := if next.Open() then s.enrollments else EndGroup(s, g)))
  }

  // ----- Cars -----

  function CreateCar(s: Records, org: Id, c: Id, instructor: Id, category: Category, transmission: Transmission)
    : Option<Records>
  {
    if c in s.cars || !IsActive(s, org, instructor, INSTRUCTOR) then None
    else Some(s.(cars := s.cars[c := Car.Car(org, Some(instructor), category, transmission, AVAILABLE)]))
  }

  /** assertStudentsStillMatch: SQL comparisons with null match nothing, so the nulls are asked for apart. */
  predicate StudentsStillMatch(s: Records, org: Id, c: Id, next: Car) {
    !exists x :: x in s.profiles && s.profiles[x].car == Some(c) && s.profiles[x].org == org
              && ((next.instructor == None && s.profiles[x].instructor != None)
                  || (next.instructor.Some? && s.profiles[x].instructor.Some? && s.profiles[x].instructor != next.instructor)
                  || s.profiles[x].instructor == None
                  || s.profiles[x].category != Some(next.category)
                  || s.profiles[x].transmission != Some(next.transmission))
  }

  function NextCar(car: Car, instructor: Option<Id>, category: Option<Category>, transmission: Option<Transmission>): Car {
    car.(instructor := if instructor.Some? then instructor else car.instructor,
         category := if category.Some? then category.value else car.category,
         transmission := if transmission.Some? then transmission.value else car.transmission)
  }

  function UpdateCar(s: Records, org: Id, c: Id, instructor: Option<Id>, category: Option<Category>,
                     transmission: Option<Transmission>): Option<Records> {
    if !IsCar(s, org, c) then None
    else
      var car := s.cars[c];
      var reassigned := instructor.Some? && instructor != car.instructor;
      var next := NextCar(car, instructor, category, transmission);
      if reassigned && (car.status != AVAILABLE || !IsActive(s, org, instructor.value, INSTRUCTOR)) then None
      else if next != car && !StudentsStillMatch(s, org, c, next) then None
      else Some(s.(cars := s.cars[c := next]))
  }

  predicate CanChangeCar(current: CarStatus, next: CarStatus) {
    match current
    case AVAILABLE => next.MAINTENANCE? || next.INACTIVE?
    case MAINTENANCE => next.AVAILABLE? || next.INACTIVE?
    case INACTIVE => next.AVAILABLE?
  }

  predicate InPractice(s: Records, org: Id, c: Id) {
    exists x :: x in s.profiles && s.profiles[x].car == Some(c) && s.profiles[x].org == org && s.profiles[x].training.PRACTICE?
  }

  function ChangeCarStatus(s: Records, org: Id, c: Id, next: CarStatus): Option<Records> {
    if !IsCar(s, org, c) || !CanChangeCar(s.cars[c].status, next) then None
    else if !next.AVAILABLE? && InPractice(s, org, c) then None
    else Some(s.(cars := s.cars[c := s.cars[c].(status := next)]))
  }

  predicate InUse(s: Records, org: Id, c: Id) {
    exists x :: x in s.profiles && s.profiles[x].car == Some(c) && s.profiles[x].org == org
  }

  function AssignInstructor(s: Records, org: Id, c: Id, instructor: Option<Id>): Option<Records> {
    if !IsCar(s, org, c) || s.cars[c].status != AVAILABLE then None
    else
      var next := s.cars[c].(instructor := instructor);
      if next == s.cars[c] then Some(s)
      else if instructor == None then
        if InUse(s, org, c) then None else Some(s.(cars := s.cars[c := next]))
      else if !IsActive(s, org, instructor.value, INSTRUCTOR) || !StudentsStillMatch(s, org, c, next) then None
      else Some(s.(cars := s.cars[c := next]))
  }

  // ----- Members -----

  /** roleBindings: rows that refer to the person in the present role. */
  predicate Bound(s: Records, x: Id, role: Role) {
    match role
    case TEACHER => exists g :: g in s.groups && s.groups[g].teacher == x
    case INSTRUCTOR =>
      || (exists c :: c in s.cars && s.cars[c].instructor == Some(x))
      || (exists p :: p in s.profiles && s.profiles[p].instructor == Some(x))
      || (exists l :: l in s.lessons && s.lessons[l].instructor == x)
    case STUDENT =>
      || (x in s.profiles && (s.profiles[x].group.Some? || s.profiles[x].instructor.Some? || s.profiles[x].car.Some?))
      || (exists k :: k in s.enrollments && k.1 == x)
      || (exists l :: l in s.lessons && s.lessons[l].student == x)
      || x in s.marked
    case _ => false
  }

  function EnsureProfile(profiles: map<Id, Profile>, org: Id, x: Id): map<Id, Profile> {
    if x in profiles then profiles else profiles[x := NewProfile(org, None, None, None)]
  }

  function ChangeRole(s: Records, org: Id, x: Id, next: Role): Option<Records> {
    if x !in s.users || s.users[x].deleted || s.users[x].org != org || s.users[x].role == OWNER || next == OWNER then None
    else if next == s.users[x].role then Some(s)
    else if s.users[x].status != UserStatus.INVITED && s.users[x].status != UserStatus.ACTIVE then None
    else if Bound(s, x, s.users[x].role) then None
    else
      var profiles := if s.users[x].role == STUDENT then s.profiles - {x} else s.profiles;
      Some(s.(users := s.users[x := s.users[x].(role := next)],
              profiles := if next == STUDENT then EnsureProfile(profiles, s.users[x].org, x) else profiles))
  }

  function ChangeMemberStatus(s: Records, org: Id, x: Id, next: UserStatus): Option<Records> {
    if x !in s.users || s.users[x].deleted || s.users[x].org != org then None
    else if !CanChangeStatus(s.users[x].status, next) then None
    else Some(s.(users := s.users[x := s.users[x].(status := next)]))
  }

  /** A person still invited may be invited again, in another role; nothing else is asked. */
  function Invite(s: Records, org: Id, x: Id, role: Role): Option<Records> {
    if x in s.users && (s.users[x].deleted || s.users[x].status != UserStatus.INVITED || s.users[x].org != org) then None
    else
      Some(s.(users := s.users[x := User(org, role, UserStatus.INVITED, false)],
              profiles := if role == STUDENT then EnsureProfile(s.profiles, org, x) else s.profiles))
  }

  function Activate(s: Records, x: Id): Option<Records> {
    if x !in s.users || s.users[x].deleted || s.users[x].status != UserStatus.INVITED then None
    else Some(s.(users := s.users[x := s.users[x].(status := UserStatus.ACTIVE)]))
  }

  function DeleteUser(s: Records, x: Id): Option<Records> {
    if x !in s.users then None else Some(s.(users := s.users[x := s.users[x].(deleted := true)]))
  }

  // ----- Practice lessons -----

  datatype Verdict =
    | StudentNotFound | NotInPractice
    | InstructorRequired | InstructorNotFound | InstructorRole | InstructorNotActive
    | CarRequired | CarNotFound | CarMismatch | CarNotAvailable
    | Bookable(instructor: Id, car: Id)

  function JudgeInstructor(s: Records, org: Id, i: Id): Option<Verdict> {
    if i !in s.users || s.users[i].deleted || s.users[i].org != org then Some(InstructorNotFound)
    else if s.users[i].role != INSTRUCTOR then Some(InstructorRole)
    else if s.users[i].status != UserStatus.ACTIVE then Some(InstructorNotActive)
    else None
  }

  /** requirePracticeCar. */
  function JudgeCar(s: Records, org: Id, c: Id, instructor: Id, p: Profile): Option<Verdict> {
    if !IsCar(s, org, c) then Some(CarNotFound)
    else
      var car := s.cars[c];
      if car.instructor != Some(instructor) || Some(car.category) != p.category || Some(car.transmission) != p.transmission
      then Some(CarMismatch)
      else if car.status != AVAILABLE then Some(CarNotAvailable)
      else None
  }

  /** The checks of createPractice that do not concern the actor or the slot. */
  function JudgeBooking(s: Records, org: Id, x: Id, instructor: Option<Id>, car: Option<Id>): Verdict {
    if !IsStudent(s, org, x) then StudentNotFound
    else if s.users[x].status != UserStatus.ACTIVE || !s.profiles[x].training.PRACTICE? then NotInPractice
    else
      var p := s.profiles[x];
      var i := if instructor.Some? then instructor else p.instructor;
      var c := if car.Some? then car else p.car;
      if i == None then InstructorRequired
      else if JudgeInstructor(s, org, i.value).Some? then JudgeInstructor(s, org, i.value).value
      else if c == None then CarRequired
      else if JudgeCar(s, org, c.value, i.value, p).Some? then JudgeCar(s, org, c.value, i.value, p).value
      else Bookable(i.value, c.value)
  }

  function BookPractice(s: Records, org: Id, lesson: Id, x: Id, instructor: Option<Id>, car: Option<Id>): Option<Records> {
    match JudgeBooking(s, org, x, instructor, car)
    case Bookable(i, c) =>
      if lesson in s.lessons then None
      else Some(s.(lessons := s.lessons[lesson := DrivingLesson(org, i, x, Some(c))]))
    case _ => None
  }

  function MarkAttendance(s: Records, x: Id): Option<Records> {
    if x !in s.users then None else Some(s.(marked := s.marked + {x}))
  }
}
