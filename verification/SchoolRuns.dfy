/** Requests as atomic steps, and runs of them. */
module SchoolRuns {
  import opened Accounts
  import opened Options
  import opened Timetable
  import opened School

  datatype Request =
    | RCreateStudent(org: Id, x: Id, group: Option<Id>, category: Option<Category>, transmission: Option<Transmission>)
    | RAssignGroup(org: Id, x: Id, g: Id)
    | RRemoveFromGroup(org: Id, x: Id, g: Id)
    | RChangeTraining(org: Id, x: Id, training: TrainingStatus)
    | RGrantPractice(org: Id, x: Id, i: Id, c: Id)
    | RArchiveStudent(org: Id, x: Id)
    | RUpdateCard(org: Id, x: Id, newCategory: Option<Option<Category>>, newTransmission: Option<Option<Transmission>>)
    | RCreateGroup(org: Id, g: Id, teacher: Id)
    | RChangeTeacher(org: Id, g: Id, teacher: Id)
    | RChangeGroupStatus(org: Id, g: Id, groupStatus: GroupStatus)
    | RCreateCar(org: Id, c: Id, i: Id, carCategory: Category, carTransmission: Transmission)
    | RUpdateCar(org: Id, c: Id, instructor: Option<Id>, category: Option<Category>, transmission: Option<Transmission>)
    | RChangeCarStatus(org: Id, c: Id, carStatus: CarStatus)
    | RAssignInstructor(org: Id, c: Id, instructor: Option<Id>)
    | RChangeRole(org: Id, x: Id, role: Role)
    | RChangeMemberStatus(org: Id, x: Id, status: UserStatus)
    | RInvite(org: Id, x: Id, role: Role)
    | RActivate(x: Id)
    | RDeleteUser(x: Id)
    | RBookPractice(org: Id, lesson: Id, x: Id, instructor: Option<Id>, car: Option<Id>)
    | RMarkAttendance(x: Id)

  /** None when the request is rejected. */
  function Apply(s: Records, r: Request): Option<Records> {
    match r
    case RCreateStudent(org, x, group, category, transmission) => CreateStudent(s, org, x, group, category, transmission)
    case RAssignGroup(org, x, g) => AssignGroup(s, org, x, g)
    case RRemoveFromGroup(org, x, g) => RemoveFromGroup(s, org, x, g)
    case RChangeTraining(org, x, training) => ChangeTraining(s, org, x, training)
    case RGrantPractice(org, x, i, c) => GrantPractice(s, org, x, i, c)
    case RArchiveStudent(org, x) => ArchiveStudent(s, org, x)
    case RUpdateCard(org, x, category, transmission) => UpdateCard(s, org, x, category, transmission)
    case RCreateGroup(org, g, teacher) => CreateGroup(s, org, g, teacher)
    case RChangeTeacher(org, g, teacher) => ChangeTeacher(s, org, g, teacher)
    case RChangeGroupStatus(org, g, next) => ChangeGroupStatus(s, org, g, next)
    case RCreateCar(org, c, i, category, transmission) => CreateCar(s, org, c, i, category, transmission)
    case RUpdateCar(org, c, i, category, transmission) => UpdateCar(s, org, c, i, category, transmission)
    case RChangeCarStatus(org, c, next) => ChangeCarStatus(s, org, c, next)
    case RAssignInstructor(org, c, i) => AssignInstructor(s, org, c, i)
    case RChangeRole(org, x, next) => ChangeRole(s, org, x, next)
    case RChangeMemberStatus(org, x, next) => ChangeMemberStatus(s, org, x, next)
    case RInvite(org, x, role) => Invite(s, org, x, role)
    case RActivate(x) => Activate(s, x)
    case RDeleteUser(x) => DeleteUser(s, x)
    case RBookPractice(org, lesson, x, i, c) => BookPractice(s, org, lesson, x, i, c)
    case RMarkAttendance(x) => MarkAttendance(s, x)
  }

  function Step(s: Records, r: Request): Records {
    match Apply(s, r)
    case None => s
    case Some(t) => t
  }

  function RunAll(s: Records, requests: seq<Request>): Records
    decreases |requests|
  {
    if requests == [] then s else RunAll(Step(s, requests[0]), requests[1..])
  }
}
