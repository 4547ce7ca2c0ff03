/** The students a lesson lists, with their enrollment and their mark. */
module AttendanceRoster {
  import opened Options
  import opened Timetable
  import opened AttendanceBatch
  import School

  /** `enrollment` is None for somebody who has a mark but is no longer enrolled. */
  datatype Entry = Entry(enrollment: Option<School.EnrollmentStatus>, attendance: Option<Mark>)

  type Enrollments = map<(Id, Id), School.EnrollmentStatus>

  /** An open group lists its ACTIVE members; closing it turned exactly those into COMPLETED. */
  function RosterStatus(status: GroupStatus): School.EnrollmentStatus {
    if status.Open() then School.EnrollmentStatus.ACTIVE else School.EnrollmentStatus.COMPLETED
  }

  predicate Enrolls(enrollments: Enrollments, marks: Marks, own: set<Id>, g: Id, roster: School.EnrollmentStatus,
                    lesson: Id, k: (Id, Id)) {
    k in enrollments && k.0 == g && k.1 in own && (enrollments[k] == roster || (lesson, k.1) in marks)
  }

  predicate Marked(marks: Marks, own: set<Id>, lesson: Id, k: (Id, Id)) {
    k in marks && k.0 == lesson && k.1 in own
  }

  /** An own student is listed who is marked, or is ACTIVE in the group while it is open, or COMPLETED once it is closed. */
  predicate Listed(enrollments: Enrollments, marks: Marks, own: set<Id>, g: Id, status: GroupStatus, lesson: Id, x: Id) {
    && x in own
    && (|| (lesson, x) in marks
        || ((g, x) in enrollments && (status == Planned || status == Active) && enrollments[(g, x)] == School.EnrollmentStatus.ACTIVE)
        || ((g, x) in enrollments && (status == Completed || status == Archived)
            && enrollments[(g, x)] == School.EnrollmentStatus.COMPLETED))
  }

  /** Members and everybody marked, each once, each with what the tables say; `own` are the school's students. */
  method LoadAttendance(enrollments: Enrollments, marks: Marks, own: set<Id>, g: Id, status: GroupStatus, lesson: Id)
    returns (students: map<Id, Entry>)
    ensures forall x :: x in students <==> Listed(enrollments, marks, own, g, status, lesson, x)
    ensures forall x :: x in students ==>
      && students[x].enrollment == (if (g, x) in enrollments then Some(enrollments[(g, x)]) else None)
      && students[x].attendance == (if (lesson, x) in marks then Some(marks[(lesson, x)]) else None)
  {
    var roster := RosterStatus(status);
    students := map[];
    var rows := enrollments.Keys;
    while rows != {}
      invariant rows <= enrollments.Keys
      invariant forall x :: x in students <==> (g, x) !in rows && Enrolls(enrollments, marks, own, g, roster, lesson, (g, x))
      invariant forall x :: x in students ==> students[x] == Entry(Some(enrollments[(g, x)]), None)
    {
      var k :| k in rows;
      rows := rows - {k};
      if Enrolls(enrollments, marks, own, g, roster, lesson, k) {
        students := students[k.1 := Entry(Some(enrollments[k]), None)];
      }
    }
    ghost var members := students;
    var marked := marks.Keys;
    while marked != {}
      invariant marked <= marks.Keys
      invariant forall x :: x in students <==> x in members || ((lesson, x) !in marked && Marked(marks, own, lesson, (lesson, x)))
      invariant forall x :: x in students ==>
        && students[x].enrollment == (if x in members then members[x].enrollment else None)
        && students[x].attendance ==
           (if (lesson, x) !in marked && Marked(marks, own, lesson, (lesson, x)) then Some(marks[(lesson, x)]) else None)
    {
      var k :| k in marked;
      marked := marked - {k};
      if Marked(marks, own, lesson, k) {
        var student := if k.1 in students then students[k.1] else Entry(None, None);
        students := students[k.1 := student.(attendance := Some(marks[k]))];
      }
    }
  }

  /**
   * Closing an open group takes nobody off the list of a lesson: its ACTIVE members stay on it as COMPLETED. Those whose
   * enrollment had been COMPLETED before join them.
   */
  lemma ClosingKeepsTheList(s: School.Records, org: Id, g: Id, next: GroupStatus, marks: Marks, own: set<Id>, lesson: Id, x: Id)
    requires School.ChangeGroupStatus(s, org, g, next).Some? && s.groups[g].status.Open() && !next.Open()
    ensures var t := School.ChangeGroupStatus(s, org, g, next).value;
      && (Listed(t.enrollments, marks, own, g, next, lesson, x) <==>
            Listed(s.enrollments, marks, own, g, s.groups[g].status, lesson, x)
            || (x in own && (g, x) in s.enrollments && s.enrollments[(g, x)] == School.EnrollmentStatus.COMPLETED))
      && ((g, x) in s.enrollments && s.enrollments[(g, x)] == School.EnrollmentStatus.ACTIVE ==>
            (g, x) in t.enrollments && t.enrollments[(g, x)] == School.EnrollmentStatus.COMPLETED)
  {
  }
}
