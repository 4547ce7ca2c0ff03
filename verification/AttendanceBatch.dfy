/** Saving a batch of attendance marks, and the list of students a lesson shows. */
module AttendanceBatch {
  import opened Sorting
  import opened Timetable

  datatype AttendanceStatus = PRESENT | ABSENT | LATE | EXCUSED

  /** Who set the status, and when. */
  datatype Mark = Mark(status: AttendanceStatus, author: Id, at: int)

  datatype AttendanceRecord = AttendanceRecord(student: Id, status: AttendanceStatus)

  /** One mark per (lesson, student). */
  type Marks = map<(Id, Id), Mark>

  /** The payload names no student twice. */
  ghost predicate DistinctStudents(records: seq<AttendanceRecord>) {
    forall i, j :: 0 <= i < j < |records| ==> records[i].student != records[j].student
  }

  predicate Differs(marks: Marks, lesson: Id, r: AttendanceRecord) {
    (lesson, r.student) !in marks || marks[(lesson, r.student)].status != r.status
  }

  /** Everybody named has the status sent; a mark that had it already keeps author and time, and nobody else's changes. */
  ghost predicate OverriddenBy(before: Marks, after: Marks, lesson: Id, records: seq<AttendanceRecord>, author: Id, at: int) {
    && (forall k :: k in after <==> k in before || (k.0 == lesson && exists r :: r in records && r.student == k.1))
    && (forall r :: r in records ==>
          && (lesson, r.student) in after
          && after[(lesson, r.student)] ==
             if (lesson, r.student) in before && before[(lesson, r.student)].status == r.status then before[(lesson, r.student)]
             else Mark(r.status, author, at))
    && (forall k :: k in before && (k.0 != lesson || forall r :: r in records ==> r.student != k.1) ==> after[k] == before[k])
  }

  /** The rows that are new or no longer what they were. */
  ghost function ChangedRows(before: Marks, after: Marks): set<(Id, Id)> {
    set k | k in after && (k !in before || before[k] != after[k])
  }

  predicate Has(records: seq<AttendanceRecord>, student: Id) {
    exists r :: r in records && r.student == student
  }

  /** updateMany has run for the statuses in `done`. */
  ghost predicate UpdatedFor(before: Marks, after: Marks, lesson: Id, records: seq<AttendanceRecord>,
                             done: seq<AttendanceStatus>, author: Id, at: int) {
    && after.Keys == before.Keys
    && (forall r :: r in records && r.status in done ==>
          (lesson, r.student) in after && after[(lesson, r.student)] == Mark(r.status, author, at))
    && (forall k :: k in before && (k.0 != lesson || forall r :: r in records && r.student == k.1 ==> r.status !in done)
          ==> after[k] == before[k])
  }

  class AttendanceTable {
    var marks: Marks

    constructor ()
      ensures marks == map[]
    {
      marks := map[];
    }

    /** createMany. */
    method CreateMany(lesson: Id, records: seq<AttendanceRecord>, author: Id, at: int)
      requires DistinctStudents(records) && forall r :: r in records ==> (lesson, r.student) !in marks
      modifies this
      ensures OverriddenBy(old(marks), marks, lesson, records, author, at)
    {
      for i := 0 to |records|
        invariant OverriddenBy(old(marks), marks, lesson, records[..i], author, at)
      {
        assert records[..i + 1] == records[..i] + [records[i]];
        marks := marks[(lesson, records[i].student) := Mark(records[i].status, author, at)];
      }
      assert records[..|records|] == records;
    }

    /** updateMany for one status. */
    method UpdateMany(lesson: Id, records: seq<AttendanceRecord>, status: AttendanceStatus, author: Id, at: int)
      modifies this
      ensures marks == map k | k in old(marks) ::
                if k.0 == lesson && Has(records, k.1) then Mark(status, author, at) else old(marks)[k]
    {
      marks := map k | k in marks :: if k.0 == lesson && Has(records, k.1) then Mark(status, author, at) else marks[k];
    }

    /** One statement a status. */
    method UpdateStatuses(lesson: Id, updated: seq<AttendanceRecord>, author: Id, at: int)
      requires DistinctStudents(updated) && forall r :: r in updated ==> (lesson, r.student) in marks
      modifies this
      ensures UpdatedFor(old(marks), marks, lesson, updated, STATUSES, author, at)
    {
      ghost var base := marks;
      for i := 0 to |STATUSES|
        invariant UpdatedFor(base, marks, lesson, updated, STATUSES[..i], author, at)
      {
        var status := STATUSES[i];
        var ofStatus := Filter(updated, (r: AttendanceRecord) => r.status == status);
        ghost var now := marks;
        UpdateMany(lesson, ofStatus, status, author, at);
        StatusWritten(base, now, marks, lesson, updated, STATUSES[..i], status, ofStatus, author, at);
        assert STATUSES[..i + 1] == STATUSES[..i] + [status];
      }
      assert STATUSES[..|STATUSES|] == STATUSES;
    }

    /** New marks in one statement, changed ones in one statement a status; equal ones are not written. */
    method WriteChanged(lesson: Id, records: seq<AttendanceRecord>, author: Id, at: int) returns (changed: nat)
      requires DistinctStudents(records)
      modifies this
      ensures OverriddenBy(old(marks), marks, lesson, records, author, at)
      ensures changed == |ChangedRows(old(marks), marks)|
    {
      var saved := marks;
      var created := Pick(records, (r: AttendanceRecord) => (lesson, r.student) !in saved);
      var updated := Pick(records, (r: AttendanceRecord) => (lesson, r.student) in saved && Differs(saved, lesson, r));
      CreateMany(lesson, created, author, at);
      ghost var base := marks;
      UpdateStatuses(lesson, updated, author, at);
      BatchIsOverride(saved, base, marks, lesson, records, created, updated, author, at);
      CountChanged(saved, marks, lesson, records, created, updated, author, at);
      changed := |created| + |updated|;
    }
  }

  const STATUSES: seq<AttendanceStatus> := [PRESENT, ABSENT, LATE, EXCUSED]

  method Pick(records: seq<AttendanceRecord>, keep: AttendanceRecord -> bool) returns (picked: seq<AttendanceRecord>)
    requires DistinctStudents(records)
    ensures DistinctStudents(picked) && forall r :: r in picked <==> r in records && keep(r)
  {
    picked := Filter(records, keep);
    FilterKeepsDistinct(records, keep);
  }

  lemma StatusWritten(base: Marks, now: Marks, after: Marks, lesson: Id, updated: seq<AttendanceRecord>,
                      done: seq<AttendanceStatus>, status: AttendanceStatus, ofStatus: seq<AttendanceRecord>,
                      author: Id, at: int)
    requires DistinctStudents(updated) && forall r :: r in updated ==> (lesson, r.student) in base
    requires UpdatedFor(base, now, lesson, updated, done, author, at)
    requires forall r :: r in ofStatus <==> r in updated && r.status == status
    requires after == map k | k in now ::
               if k.0 == lesson && Has(ofStatus, k.1) then Mark(status, author, at) else now[k]
    ensures UpdatedFor(base, after, lesson, updated, done + [status], author, at)
  {
  }

  lemma BatchIsOverride(before: Marks, base: Marks, after: Marks, lesson: Id, records: seq<AttendanceRecord>,
                        created: seq<AttendanceRecord>, updated: seq<AttendanceRecord>, author: Id, at: int)
    requires DistinctStudents(records)
    requires forall r :: r in created <==> r in records && (lesson, r.student) !in before
    requires forall r :: r in updated <==> r in records && (lesson, r.student) in before && Differs(before, lesson, r)
    requires OverriddenBy(before, base, lesson, created, author, at)
    requires UpdatedFor(base, after, lesson, updated, STATUSES, author, at)
    ensures OverriddenBy(before, after, lesson, records, author, at)
  {
  }

  lemma {:induction false} CountRows(lesson: Id, records: seq<AttendanceRecord>, rows: set<(Id, Id)>)
    requires DistinctStudents(records)
    requires forall k :: k in rows <==> k.0 == lesson && Has(records, k.1)
    ensures |rows| == |records|
  {
    if records == [] {
      assert rows == {};
    } else {
      var key := (lesson, records[0].student);
      assert records[0] in records && key in rows;
      forall k
        ensures k in rows - {key} <==> k.0 == lesson && Has(records[1..], k.1)
      {
        assert records == [records[0]] + records[1..];
        assert forall r :: r in records[1..] ==> r.student != records[0].student;
      }
      CountRows(lesson, records[1..], rows - {key});
    }
  }

  lemma CountChanged(before: Marks, after: Marks, lesson: Id, records: seq<AttendanceRecord>,
                     created: seq<AttendanceRecord>, updated: seq<AttendanceRecord>, author: Id, at: int)
    requires DistinctStudents(records) && DistinctStudents(created) && DistinctStudents(updated)
    requires forall r :: r in created <==> r in records && (lesson, r.student) !in before
    requires forall r :: r in updated <==> r in records && (lesson, r.student) in before && Differs(before, lesson, r)
    requires OverriddenBy(before, after, lesson, records, author, at)
    ensures |ChangedRows(before, after)| == |created| + |updated|
  {
    CountAdded(before, after, lesson, records, created, author, at);
    CountRewritten(before, after, lesson, records, updated, author, at);
    assert ChangedRows(before, after) == AddedRows(before, after) + RewrittenRows(before, after);
  }

  ghost function AddedRows(before: Marks, after: Marks): set<(Id, Id)> {
    set k | k in after && k !in before
  }

  ghost function RewrittenRows(before: Marks, after: Marks): set<(Id, Id)> {
    set k | k in after && k in before && before[k] != after[k]
  }

  lemma CountAdded(before: Marks, after: Marks, lesson: Id, records: seq<AttendanceRecord>,
                   created: seq<AttendanceRecord>, author: Id, at: int)
    requires DistinctStudents(created) && OverriddenBy(before, after, lesson, records, author, at)
    requires forall r :: r in created <==> r in records && (lesson, r.student) !in before
    ensures |AddedRows(before, after)| == |created|
  {
    forall k
      ensures k in AddedRows(before, after) <==> k.0 == lesson && Has(created, k.1)
    {
      AddedIffCreated(before, after, lesson, records, created, author, at, k);
    }
    CountRows(lesson, created, AddedRows(before, after));
  }

  lemma CountRewritten(before: Marks, after: Marks, lesson: Id, records: seq<AttendanceRecord>,
                       updated: seq<AttendanceRecord>, author: Id, at: int)
    requires DistinctStudents(updated) && OverriddenBy(before, after, lesson, records, author, at)
    requires forall r :: r in updated <==> r in records && (lesson, r.student) in before && Differs(before, lesson, r)
    ensures |RewrittenRows(before, after)| == |updated|
  {
    forall k
      ensures k in RewrittenRows(before, after) <==> k.0 == lesson && Has(updated, k.1)
    {
      RewrittenIffUpdated(before, after, lesson, records, updated, author, at, k);
    }
    CountRows(lesson, updated, RewrittenRows(before, after));
  }

  lemma AddedIffCreated(before: Marks, after: Marks, lesson: Id, records: seq<AttendanceRecord>,
                        created: seq<AttendanceRecord>, author: Id, at: int, k: (Id, Id))
    requires OverriddenBy(before, after, lesson, records, author, at)
    requires forall r :: r in created <==> r in records && (lesson, r.student) !in before
    ensures (k in after && k !in before) <==> (k.0 == lesson && Has(created, k.1))
  {
  }

  lemma RewrittenIffUpdated(before: Marks, after: Marks, lesson: Id, records: seq<AttendanceRecord>,
                            updated: seq<AttendanceRecord>, author: Id, at: int, k: (Id, Id))
    requires OverriddenBy(before, after, lesson, records, author, at)
    requires forall r :: r in updated <==> r in records && (lesson, r.student) in before && Differs(before, lesson, r)
    ensures (k in after && k in before && before[k] != after[k]) <==> (k.0 == lesson && Has(updated, k.1))
  {
  }

  lemma {:induction false} FilterKeepsDistinct(records: seq<AttendanceRecord>, keep: AttendanceRecord -> bool)
    requires DistinctStudents(records)
    ensures DistinctStudents(Filter(records, keep))
  {
    if records != [] {
      FilterKeepsDistinct(records[1..], keep);
      var rest := Filter(records[1..], keep);
      forall j | 0 <= j < |rest|
        ensures rest[j].student != records[0].student
      {
        assert rest[j] in records[1..];
      }
    }
  }

  /** Saving the same batch again, whoever does it and whenever, changes no row. */
  lemma BatchIsIdempotent(before: Marks, after: Marks, again: Marks, lesson: Id, records: seq<AttendanceRecord>,
                          author: Id, at: int, laterAuthor: Id, later: int)
    requires DistinctStudents(records)
    requires OverriddenBy(before, after, lesson, records, author, at)
    requires OverriddenBy(after, again, lesson, records, laterAuthor, later)
    ensures again == after && ChangedRows(after, again) == {}
  {
  }
}
