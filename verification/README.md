# Verification model of the driving-school backend

A Dafny model of the transactional core of the backend, with proofs. PostgreSQL is the shared state: tables are maps,
row and advisory locks are sets of locks a transaction holds, and a transaction body is one step or a sequence of steps.
`dafny verify dfyconfig.toml` checks the whole project.

## What is modelled

* **Scheduling** (`Timetable`, `ScheduleConflicts`, `ScheduleLock`, `ScheduleLockHashes`, `Scheduling*`). Theory and
  practice lessons are created, moved, cancelled and marked, groups are closed and students enrolled, by any number of
  interleaved transactions. A statement is a step that sees the rows committed so far; writes become visible when the
  transaction commits, and locks end with it. `SchedulingInvariant` is a rely/guarantee invariant: a transaction past
  its empty search stays free of clashes, since whoever commits a clashing lesson must hold a key the two have in
  common. The parameter `linked` adds the clashes that enrollments and group teachers bring about; `SchedulingLinks`
  says which of those steps keep it. `SchedulingRequests` says when a request goes through that is left to itself, and
  `SchedulingEffects` what each commit writes. `SchedulingFreeze` and `SchedulingThreats` say when marks freeze a lesson.
* **Ordered positions** (`CourseOrder`, `PositionTable`, `CourseSequences`, `CourseStructure`). Rows under a unique
  index, shifted by single writes that must each be accepted, against sequences under insert and move and, over whole
  runs, against ordered trees.
* **Email queue** (`EmailQueue`, `EmailQueueSafety`, `EmailDelivery`, `InvitationRules`). The pump on its event loop,
  split at every await; queries, mails and writes may fail at any of them, before or after they took effect. Several
  loops are possible in the state; that there is never more than one is proved.
* **Lifecycle** (`School`, `SchoolRuns`, `SchoolEnrollments`, `SchoolCars`, `SchoolEffects`, `SchoolStatuses`,
  `SchoolServices`). Users, profiles, groups, enrollments, cars and practice bookings. Each request is one atomic step,
  since no lock guards the student row.
  `SchoolServices` carries the requests out row by row on mutable tables, keeps the rules of the rows and is proved
  equal to them; `SchoolEffects` says when a request is accepted and what it means to the school.
* **Attendance and personal schedule** (`AttendanceBatch`, `AttendanceRoster`, `PersonalSchedule`).

## Assumptions

* READ COMMITTED isolation; the predicate of a statement and its rows belong to one moment.
* Identifiers are numbers; text order of UUIDs is number order, and so is `localeCompare` on them.
* Advisory keys and locks correspond one to one in the protocol. `ScheduleLockHashes` and
  `SchedulingCollisions` say what a hash collision does.
* Token hashes stand for their tokens, and a new token was never used before.
* The organization of an instructor, a car, a student or a teacher never changes.
* Rights, group dates, people's activity and car rules only ever reject a scheduling transaction; there, any
  transaction may abort at any point.
* Durations lie in 15..240 minutes (`src/modules/lessons/lessons.dto.ts:28-30`), and a batch names no student twice.

## Where the code differs from its own description

* `src/common/prisma/schedule-lock.ts:15-20` says that a hash collision merely serializes two transactions. It may also
  turn round the order of two locks; `SortedKeysAvoidDeadlockIff` gives the exact condition.
* A mark is meant to keep a lesson from being cancelled. Requests read their clock before they lock, so a cancellation
  received before the start may commit after the mark (`MarkedLessonCanBeCancelled`); `MarkedLessonCancellableIff` says
  exactly when.
* Neither an enrollment nor a change of teacher looks at the timetable or takes an advisory key
  (`EnrollKeepsLinksIff`, `SetTeacherKeepsLinksIff`, and the runs of `SchedulingRaces`).
* Inviting a person again sets any role, even for somebody enrolled as a student (`StepKeepsEnrolledStudentsIff`).
* A final training status is meant to be final, but a detour through another role starts the training anew
  (`EndedTrainingCanStartAnew`).
* `resend` writes without repeating its check, and may return an accepted invitation to PENDING
  (`LateResendKeepsRulesIff`).

## Model

| member | source | states |
|---|---|---|
| `SchedulingSafety.NoDoubleBooking` | src/modules/lessons/lessons.service.ts:675-936 | In every interleaving of any number of transactions, at no moment of the committed timetable does a group have two SCHEDULED theory lessons, or an instructor, a car or a student two SCHEDULED practice lessons |
| `SchedulingSafety.NoDoubleBookingAcrossTables` | src/modules/lessons/lessons.service.ts:874-936 | In every interleaving whose enrollments and changes of teacher each fit at their moment, also no teacher has two lessons at one moment and no student practises during the theory of a group where they are ACTIVE |
| `Timetable.OverlapsIff` | src/modules/lessons/schedule-conflicts.ts:48-57 | A slot and a lesson overlap if and only if some moment belongs to both, the end of each excluded |
| `Timetable.ConflictFreeIff` | src/modules/lessons/schedule-conflicts.ts:101-250 | A timetable is free of clashes if and only if at no moment two lessons that take place need the same group, instructor, car or student (with links: teacher, or a student who is a member) |
| `SchedulingRequests.RequestSucceedsIff` | src/modules/lessons/lessons.service.ts:391-936 | Left to itself a request of any of the nine kinds can come to its commit by its own steps if and only if the school allows it: its group is open, the lesson is SCHEDULED and not begun, the durations are legal, the slot is free of every lesson of the school, the status may move |
| `SchedulingRequests.AllowedComesToCommit` | src/modules/lessons/lessons.service.ts:391-936 | A transaction alone whose request is allowed comes to its commit from wherever it stands, writing nothing before |
| `SchedulingEffects.CreateTheoryWrites` | src/modules/lessons/lessons.service.ts:391-447 | Committing a new theory lesson adds exactly one row: school, group, start and duration as asked, SCHEDULED |
| `SchedulingEffects.CreatePracticeWrites` | src/modules/lessons/lessons.service.ts:451-530 | Committing a new practice lesson adds exactly one row: school, instructor, car, student, start and duration as asked, SCHEDULED |
| `SchedulingEffects.ChangeTheoryWrites` | src/modules/lessons/lessons.service.ts:675-758 | A change of a theory lesson gives start and duration the value sent, else the old one, and changes no other column and no other row |
| `SchedulingEffects.ChangePracticeWrites` | src/modules/lessons/lessons.service.ts:760-866 | The same for start, duration, instructor and car of a practice lesson; one without a car takes the car of the student |
| `SchedulingEffects.CancelWrites` | src/modules/lessons/lessons.service.ts:598-672 | A cancellation sets the status of a SCHEDULED lesson that begins after the request was received, and nothing else |
| `SchedulingEffects.MarkWrites` | src/modules/lessons/lesson-attendance.service.ts:149-189 | Saving attendance dates only the first mark of a lesson that is not CANCELLED and has begun |
| `SchedulingEffects.EnrollWrites` | src/modules/students/students.service.ts:1062-1138 | An enrollment adds one ACTIVE pair, in a group that is open |
| `SchedulingEffects.OpenGroupWrites` | src/modules/groups/groups.service.ts:297-361 | Starting a planned group changes its status and nothing else |
| `SchedulingEffects.CloseWrites` | src/modules/groups/groups.service.ts:321-354 | Closing ends exactly the enrollments of the group and cancels exactly its SCHEDULED lessons that begin at or after the moment the closing read the clock |
| `SchedulingLinks.EnrollKeepsLinksIff` | src/modules/students/students.service.ts:1062-1138 | Enrolling checks no slot: committing it keeps the cross-table invariant if and only if the practice of the student leaves the theory of the group alone and every lesson being scheduled for either holds or has queued the key of the group where it needs it, and has not already searched past a clash the enrollment reveals |
| `SchedulingLinks.SetTeacherKeepsLinksIff` | src/modules/groups/groups.service.ts:267-289 | Nor does a teacher change: it keeps the cross-table invariant if and only if the lessons of the other groups of the new teacher, committed or already searched for, leave those of this group alone |
| `SchedulingSafety.StepKeepsLinkedInvariantIff` | src/modules/lessons/lessons.service.ts:391-936 | Whatever the step, it keeps the cross-table invariant if and only if it passes that guard, which only those two kinds of step have |
| `SchedulingExamples.EnrollingCanCauseAClash` | src/modules/students/students.service.ts:1062-1138 | A concrete run from a timetable free of clashes in which an enrollment makes two lessons clash |
| `SchedulingRaces.EnrollingPastASearchCausesAClash` | src/modules/lessons/lessons.service.ts:899-925 | A concrete run in which the enrollment fits all committed lessons before and after it, and a practice lesson that had finished its search without the key of the group then commits a clash |
| `SchedulingRaces.ReplacingATeacherCanCauseAClash` | src/modules/groups/groups.service.ts:267-289 | A concrete run in which a change of teacher makes two lessons clash |
| `SchedulingSafety.StepKeepsInvariant` | src/modules/lessons/lessons.service.ts:391-936 | Every step of every transaction (locking, checking, searching, committing, aborting, time passing) keeps the inductive invariant: a transaction past its search stays free of clashes until it commits |
| `SchedulingSafety.RunKeepsInvariant` | src/modules/lessons/lessons.service.ts:391-936 | Every run keeps that invariant; if its enrollments and changes of teacher fit, its cross-table version as well |
| `SchedulingInvariant.ClashNeedsCommonKey` | src/modules/lessons/lessons.service.ts:884-925 | Any two lessons that clash need one common advisory key |
| `SchedulingCommits.WriteKeepsOther` | src/modules/lessons/lessons.service.ts:742-757 | The rely step: whatever another transaction has established survives a write made under the locks of the writer, although a move locks only the new instructor and car |
| `SchedulingCommits.SlotCommitKeeps` | src/modules/lessons/lessons.service.ts:421-438 | Committing a created or moved lesson after its empty search keeps the invariant |
| `SchedulingCommits.CloseCommitKeeps` | src/modules/groups/groups.service.ts:325-354 | Committing the closing of a group keeps the invariant: its enrollments end, its future lessons are cancelled, its closing time is recorded |
| `SchedulingSteps.ValidateKeeps` | src/modules/lessons/lessons.service.ts:884-925 | The keys queued for a candidate cover every resource a clash could need, in strictly increasing order |
| `SchedulingSteps.SearchOwnKindKeeps` | src/modules/lessons/schedule-conflicts.ts:116-160 | An empty search among the lessons of the own kind, limited to the own organization, leaves no clash of that kind in the whole timetable |
| `SchedulingSteps.SearchOtherKindKeeps` | src/modules/lessons/schedule-conflicts.ts:160-180 | The same for the other kind, read at a later moment |
| `SchedulingSafety.ClosedGroupsAreFrozen` | src/modules/groups/groups.service.ts:297-361 | Interleaved: a closed group never reopens, never again has an ACTIVE enrollment, holds no SCHEDULED lesson from its closing time on, gains no lesson, and every lesson of it keeps all its columns |
| `SchedulingAttendance.CommitOnMarkedLesson` | src/modules/lessons/lesson-attendance.service.ts:99-118 | Interleaved: a commit never moves the start of a marked lesson; it changes duration or status if and only if it cancels or changes that lesson or closes its group having picked it, and then it compared the start with a time no later than that start, hence no later than the mark |
| `SchedulingFreeze.RunKeepsSlotIff` | src/modules/lessons/lessons.service.ts:604-622 | An interleaved run keeps the slot of a marked lesson in all its states if and only if none of its commits is one of those |
| `SchedulingFreeze.SafeLessonsAreFrozen` | src/modules/lessons/lessons.service.ts:604-622 | Once the clock has passed the start and no cancellation, change or closing that compared earlier is under way, every interleaved run keeps start, duration and status of the marked lesson |
| `SchedulingThreats.MarkedLessonCancellableIff` | src/modules/lessons/lessons.service.ts:610-622 | Some interleaved run from here cancels a marked lesson if and only if the lesson is SCHEDULED in an open group and a cancellation received before its start, or a closing that picked it, is under way, or the clock still reads its start |
| `SchedulingThreats.MarkedSlotLosableIff` | src/modules/lessons/lessons.service.ts:709-757 | Where every early change of its duration asks for a slot that is free, some run from here takes the slot if and only if the lesson may be cancelled in that way or such a change is under way |
| `SchedulingAttendance.MarkedStartNeverMoves` | src/modules/lessons/lessons.service.ts:709-724 | In every interleaving the start of a marked lesson never changes |
| `SchedulingAttendance.AtomicRunFreezesMarkedLessons` | src/modules/lessons/lessons.service.ts:610-622 | For transactions that do not overlap, under a strictly increasing clock, a marked lesson keeps start, duration and status; neither a cancellation nor a closing reaches it |
| `SchedulingExamples.MarkedLessonCanBeCancelled` | src/modules/lessons/lessons.service.ts:604-622 | Interleaved the freeze fails: a concrete run cancels a lesson after its attendance was marked, because the cancelling request read its clock before the lesson began |
| `SchedulingDeadlock.NoWaitCycle` | src/common/prisma/schedule-lock.ts:25-65 | In every reachable state the waits-for graph over group rows, lesson rows and advisory keys has no cycle |
| `SchedulingCollisions.NoWaitCycleDespiteCollisions` | src/common/prisma/schedule-lock.ts:15-65 | Nor has it when keys block each other by their hashes, as long as no live key lies between two that collide |
| `SchedulingDeadlock.SomeoneCanProceed` | src/common/prisma/schedule-lock.ts:25-65 | In every reachable state with transactions under way, one of them waits for nobody |
| `SchedulingDeadlock.ClosingNeverWaitsForLessons` | src/modules/groups/groups.service.ts:308-346 | A closing group transaction never waits for a lesson row: whoever held one would hold the group row FOR SHARE |
| `SchedulingDeadlock.RequestsComeLater` | src/modules/lessons/lessons.service.ts:229-246 | Whatever a transaction asks for comes, in the order group row, lesson row, key, after everything it holds |
| `SchedulingDeadlock.KeyBlockedIffWaits` | src/common/prisma/schedule-lock.ts:25-35 | A transaction cannot lock its next key if and only if it waits for somebody in that graph |
| `SchedulingDeadlock.GroupBlockedIffWaits` | src/modules/lessons/lessons.service.ts:229-246 | The same for the group row of its request |
| `SchedulingDeadlock.LessonBlockedIffWaits` | src/common/prisma/schedule-lock.ts:42-66 | The same for the lesson row |
| `SchedulingDeadlock.ClosingBlockedIffWaits` | src/modules/groups/groups.service.ts:333-346 | The same for the lessons a closing has picked |
| `ScheduleLock.LockOrderIsStrict` | src/common/prisma/schedule-lock.ts:25-35 | The keys are taken in strictly increasing order, each requested key once and no other |
| `ScheduleLock.LockOrderIsCanonical` | src/common/prisma/schedule-lock.ts:25-35 | Two requests for the same resources take the same locks in the same order, however they list them |
| `ScheduleLock.KeysSortAsTexts` | src/common/prisma/schedule-lock.ts:6-13 | The order of the keys is the order of their texts: car, group, instructor, student, teacher, then id |
| `ScheduleLock.AdvisorySession.LockScheduleResources` | src/common/prisma/schedule-lock.ts:25-35 | The loop takes exactly that sequence of locks, one by one, after those already taken |
| `ScheduleLockHashes.SortedKeysAvoidDeadlockIff` | src/common/prisma/schedule-lock.ts:15-35 | With colliding hashes: transactions over live keys can wait for each other in a circle, of any length, if and only if a key that hashes otherwise lies between two keys that collide |
| `Timetable.WindowIsExactUpToMaxDuration` | src/modules/lessons/schedule-conflicts.ts:48-69 | The candidate window may replace a full scan for every slot if and only if the lesson lasts at most 240 minutes |
| `ScheduleConflicts.FindTheoryConflicts` | src/modules/lessons/schedule-conflicts.ts:72-180 | The result holds exactly one entry for each clashing (resource, lesson) pair, with start and end of the lesson, ordered teacher, instructor, group, car, student, then by start and lesson id |
| `ScheduleConflicts.FindPracticeConflicts` | src/modules/lessons/schedule-conflicts.ts:182-250 | The same for a practice lesson: instructor, car and student of practice lessons, student of theory lessons |
| `ScheduleConflicts.TheorySearchIsEmptyIffFree` | src/modules/lessons/schedule-conflicts.ts:116-180 | The theory search is empty if and only if no other lesson of the organization clashes with the slot |
| `ScheduleConflicts.PracticeSearchIsEmptyIffFree` | src/modules/lessons/schedule-conflicts.ts:182-250 | The practice search is empty if and only if no other lesson of the organization clashes with the slot |
| `PersonalSchedule.GetMySchedule` | src/modules/lessons/personal-schedule.service.ts:177-219 | The schedule lists exactly the lessons in scope that meet [from, to), each once, in order; it is refused exactly when the range is |
| `PersonalSchedule.RangeFacts` | src/modules/lessons/personal-schedule.service.ts:120-136 | Without an end the range is 30 days long from its start, which is now unless sent; with one it is accepted if and only if it is not empty and spans at most 62 days |
| `PersonalSchedule.TeacherSees` | src/modules/lessons/personal-schedule.service.ts:60-75 | A teacher is shown exactly the theory of the groups taught at present that meets the range at some moment, of the kind and status asked for |
| `PersonalSchedule.InstructorSees` | src/modules/lessons/personal-schedule.service.ts:76-80 | An instructor is shown exactly the practice lessons given under their name |
| `PersonalSchedule.LearnerSees` | src/modules/lessons/personal-schedule.service.ts:81-114 | A student is shown exactly their practice, the theory of groups where they are ACTIVE, and of groups they completed what has begun |
| `PersonalSchedule.ScheduleIsDetermined` | src/modules/lessons/personal-schedule.service.ts:158-167 | The order by start, type and id leaves no choice: two sorted lists of the same lessons are equal |
| `PositionTables.PositionTable.ShiftForInsert` | src/modules/courses/course-structure.order.ts:44-59 | No single write of the shift meets a position in use, and afterwards exactly the siblings from the requested position on are one further |
| `PositionTables.PositionTable.ShiftForMove` | src/modules/courses/course-structure.order.ts:65-93 | No single write, the parked negative position included, meets a position in use; afterwards the passed siblings have closed up and the target is free |
| `CourseOrder.BetweenIsShiftable` | src/modules/courses/course-structure.order.ts:44-93 | Written last one first when going up and first one first when going down, every row of a stretch finds its target vacated before it moves |
| `CourseSequences.InsertRefines` | src/modules/courses/course-structure.service.ts:329-345 | Shift and insert turn the table of a sequence into the table of the sequence with the item inserted; the requested position is free in between |
| `CourseSequences.MoveRefines` | src/modules/courses/course-structure.service.ts:380-406 | Shift and final write turn the table of a sequence into the table of the sequence with the item taken out and put back at the target |
| `CourseSequences.MoveToAt` | src/modules/courses/course-structure.order.ts:65-93 | A move puts the item at the target and slides every other item by at most one place |
| `CourseSequences.MoveToKeepsMembers` | src/modules/courses/course-structure.order.ts:65-93 | A move loses and doubles nothing |
| `CourseSequences.RepresentsOne` | src/modules/courses/course-structure.service.ts:175-177 | The positions determine the sequence |
| `CourseStructure.StepRefines` | src/modules/courses/course-structure.service.ts:323-626 | A create or update request is accepted by the table if and only if the ordered tree allows it, and both change alike |
| `CourseStructure.RunRefines` | src/modules/courses/course-structure.service.ts:323-626 | Over any sequence of requests on chapters, lessons and materials the unique index holds, and the positions under every parent are exactly 1..n in the order the abstract run gives |
| `CourseStructure.Service.CreateItem` | src/modules/courses/course-structure.service.ts:415-440 | Creating a chapter, lesson or material makes no refused write, and does to the table what the request means |
| `CourseStructure.Service.UpdateItem` | src/modules/courses/course-structure.service.ts:448-514 | Moving one makes no refused write, skips an unchanged position, and does to the table what the request means |
| `EmailQueueSafety.PumpIsSingleFlight` | src/modules/invitations/invitation-email.queue.ts:211-252 | In every interleaving from the start at most one loop claims or dispatches, and the flag says whether one does |
| `EmailQueueSafety.NoLostWakeup` | src/modules/invitations/invitation-email.queue.ts:194-252 | For every kick and every run after it, a claim query has begun at or after the kick by the time the pump is idle, whatever the queries return, throw or interleave with |
| `EmailQueueSafety.StaleJobSendsAtMostOnce` | src/modules/invitations/invitation-email.queue.ts:277-389 | A job whose invitation carries another token or has ended stays stale, and in any run sends at most the one mail that is already past its checks, even if finish puts it back to QUEUED |
| `EmailQueueSafety.RotatedJobSendsOnlyTheMailUnderWay` | src/modules/invitations/invitation-email.queue.ts:171-192 | After a resend, a re-invitation or a cancellation commits, an older job of the invitation sends no mail except the one being sent at that moment |
| `EmailQueueSafety.JobsAreBounded` | src/modules/invitations/invitation-email.queue.ts:254-379 | A token is null exactly when the job is SENT, FAILED or SUPERSEDED; a SENT job sent a mail; mails never exceed attempts, nor attempts 3 plus the times the job was recovered, hence 3 when nothing is |
| `EmailQueueSafety.RunKeepsInv` | src/modules/invitations/invitation-email.queue.ts:194-389 | Every interleaved run keeps single flight, the job rules, and what the loop knows about the job it dispatches |
| `EmailDelivery.JobInOrderIsMailed` | src/modules/invitations/invitation-email.queue.ts:254-389 | A queued job whose invitation is PENDING under its token for an INVITED person is, undisturbed, claimed, read three times and mailed: it ends SENT without its token and one more mail; if the mail fails it is QUEUED with its token after attempts 1 and 2 and FAILED without after attempt 3 |
| `EmailDelivery.JobOutOfOrderIsDropped` | src/modules/invitations/invitation-email.queue.ts:294-318 | Any other queued job sends no mail: it ends FAILED if the person is gone, else SUPERSEDED, without its token |
| `EmailDelivery.FirstReadIff` | src/modules/invitations/invitation-email.queue.ts:277-283 | In any interleaving the first read lets a job pass if and only if it is in PROCESSING with its token |
| `EmailDelivery.SecondReadIff` | src/modules/invitations/invitation-email.queue.ts:285-318 | The second read ends in FAILED, SUPERSEDED or on to the last check, if and only if the person is gone, the invitation no longer waits for this person under this token, or it does |
| `EmailDelivery.ThirdReadIff` | src/modules/invitations/invitation-email.queue.ts:320-331 | The last read leads to the mail, with the token in the row, if and only if the row is still in PROCESSING with the token of the invitation read before |
| `EmailDelivery.InvitationIsMailed` | src/modules/invitations/invitations.service.ts:522-656 | An invitation made or renewed while the pump is idle is mailed exactly once by its next pass |
| `EmailDelivery.InviteMeans` | src/modules/invitations/invitations.service.ts:549-640 | Inviting renews or makes one PENDING invitation, queues one new job with its token, ends every job it had that was not SENT, and touches no other |
| `EmailDelivery.ResendMeans` | src/modules/invitations/invitations.service.ts:238-262 | Resending does the same under a new token and leaves the person as is |
| `EmailDelivery.CancelMeans` | src/modules/invitations/invitations.service.ts:179-236 | Cancelling ends the invitation and every job of it that was not SENT |
| `EmailDelivery.RestartMeans` | src/modules/invitations/invitation-email.queue.ts:131-209 | A restart queues again exactly the PROCESSING jobs it recovers, with their tokens and attempts |
| `EmailDelivery.NothingIsStrandedWithoutFailure` | src/modules/invitations/invitation-email.queue.ts:211-389 | In every interleaving without a failed read or write, a lost claim or a restart, every job in PROCESSING is being dispatched |
| `EmailDelivery.EveryAwaitMayFail` | src/modules/invitations/invitation-email.queue.ts:211-389 | Claims, reads, mails and writes may each fail, a write also after it took effect, and the process may end with a mail just handed over |
| `EmailDelivery.UnconfirmedMailIsQueuedAgain` | src/modules/invitations/invitation-email.queue.ts:340-379 | If the row of a mail that went out cannot be written, the mail is queued again with its token, or given up after attempt 3 |
| `EmailDelivery.CrashedDispatchGoesOn` | src/modules/invitations/invitation-email.queue.ts:231-243 | A dispatch that crashes leaves the row as it was or as written, and the pump claims again |
| `EmailDelivery.PumpRests` | src/modules/invitations/invitation-email.queue.ts:211-252 | With nothing to claim a pump kicked once comes to rest; one kicked again meanwhile makes one more claim query first |
| `InvitationRules.AtomicRunKeepsSound` | src/modules/invitations/invitations.service.ts:522-656 | With atomic requests a person has at most one PENDING invitation, an invitation is ACCEPTED if and only if acceptedAt is set, and nobody accepts twice |
| `InvitationRules.AtomicStepsKeepAccepted` | src/modules/invitations/invitations.service.ts:238-262 | Every request that writes together with its check leaves an ACCEPTED invitation exactly as it is |
| `InvitationRules.LateResendKeepsRulesIff` | src/modules/invitations/invitations.service.ts:238-262 | A resend whose check is out of date leaves ACCEPTED invitations alone if and only if this one was not accepted meanwhile (it becomes PENDING, its date cleared), and keeps one pending invitation a person if and only if nothing else of that person is pending |
| `InvitationRules.LateResendLeavesTwoPending` | src/modules/invitations/invitations.service.ts:238-262 | A concrete run in which it leaves two: the invitation is cancelled and the person invited again between the check and the write |
| `InvitationRules.InvitePossibleIff` | src/modules/invitations/invitations.service.ts:549-601 | A person may be invited, under a new or their pending invitation, if and only if they are unknown or still INVITED and not deleted |
| `InvitationRules.PendingMayEndIff` | src/modules/invitations/invitations.service.ts:179-362 | While the rules hold an invitation may be cancelled if and only if it is PENDING, and accepted if and only if its person is INVITED and not deleted as well |
| `InvitationRules.NobodyComesBack` | src/modules/invitations/invitations.service.ts:549-601 | In every interleaving a deleted account stays deleted and nobody returns to INVITED |
| `SchoolEnrollments.OneActiveEnrollment` | src/modules/students/students.service.ts:1023-1292 | Over every run of atomic requests a student has at most one ACTIVE enrollment, in the open group the profile names, and none once training is GRADUATED, DROPPED or ARCHIVED |
| `SchoolEnrollments.StepKeepsEnrollments` | src/modules/students/students.service.ts:685-1456 | Every request of the students, groups, cars and users services keeps that rule |
| `SchoolEnrollments.AssignGroupKeeps` | src/modules/students/students.service.ts:1023-1145 | Moving a student into a group leaves the enrollment rule intact: no other ACTIVE row remains |
| `SchoolEnrollments.ChangeGroupStatusKeeps` | src/modules/groups/groups.service.ts:297-361 | Closing a group ends every ACTIVE enrollment in it; no other enrollment row changes, none comes or goes |
| `SchoolEnrollments.RemovalUndoesAssignment` | src/modules/students/students.service.ts:1156-1224 | Removing a student from a group restores exactly the state before the assignment, if the student was in no group |
| `SchoolEnrollments.RemovedStudentMayJoinIff` | src/modules/students/students.service.ts:1155-1161 | A removed student may join a group if and only if the account is not archived, no earlier enrollment bars it, and the group is an open one of the school |
| `SchoolEnrollments.ClosingBarsNobody` | src/modules/groups/groups.service.ts:321-330 | Closing a group leaves nobody barred from enrolling who was not barred before |
| `SchoolEnrollments.StepKeepsEnrolledStudentsIff` | src/modules/invitations/invitations.service.ts:550-601 | Enrolled people have the role STUDENT after a request if and only if it does not invite, in another role, somebody of the same school who is INVITED, not deleted and enrolled |
| `SchoolEnrollments.ReinvitedStudentIsATeacher` | src/modules/invitations/invitations.service.ts:550-601 | A concrete run of requests from the empty school in which that happens |
| `SchoolStatuses.ClosedGroupsStayClosed` | src/modules/groups/groups.service.ts:68-73 | Over every run of requests a closed group stays closed, with its school and teacher, and an archived one archived |
| `SchoolStatuses.StepKeepsEndedIff` | src/modules/students/students.service.ts:103-131 | A request lets ended training (GRADUATED, DROPPED, ARCHIVED) resume if and only if it gives a student nothing refers to another role, which deletes the profile |
| `SchoolStatuses.EndedTrainingNeverResumes` | src/modules/students/students.service.ts:103-131 | Over every run that leaves the role of a student alone, ended training stays ended |
| `SchoolStatuses.EndedTrainingCanStartAnew` | src/modules/users/users.service.ts:640-684 | A concrete run in which a student who dropped out starts anew after a detour through another role |
| `SchoolServices.Database.CreateStudent` | src/modules/students/students.service.ts:685-840 | Keeps the rules of the rows; afterwards the person is a student enrolled in the group given and in no other, and nobody else is concerned |
| `SchoolServices.Database.AssignGroup` | src/modules/students/students.service.ts:1023-1145 | The group is the one the student is in afterwards, nobody else is concerned, and a rejection changes nothing, although the first write comes before the last check |
| `SchoolServices.Database.RemoveFromGroup` | src/modules/students/students.service.ts:1162-1224 | Accepted if and only if the student is ACTIVE in this group; afterwards the student is in none, and nobody else is concerned |
| `SchoolServices.Database.ChangeTraining` | src/modules/students/students.service.ts:1226-1292 | Graduating turns the ACTIVE enrollments of the student into COMPLETED, dropping out and archiving into DROPPED, no row comes or goes and no other changes; afterwards no assignment to a group is accepted |
| `SchoolServices.Database.GrantPractice` | src/modules/students/students.service.ts:1294-1400 | Keeps student and car in agreement, and the default booking goes through at once |
| `SchoolServices.Database.ArchiveStudent` | src/modules/students/students.service.ts:1402-1456 | Turns exactly the ACTIVE enrollments of the student into DROPPED, archives account and training; the student is never assigned again and not eligible for practice |
| `SchoolServices.Database.UpdateCard` | src/modules/students/students.service.ts:915-961 | Category and transmission take the value sent, null included, else stay; nothing else changes, and the student agrees with the car |
| `SchoolServices.Database.ChangeGroupStatus` | src/modules/groups/groups.service.ts:297-361 | Everybody stays enrolled except in the group when it closes, and closing bars nobody who was not barred |
| `SchoolServices.Database.UpdateCar` | src/modules/cars/cars.service.ts:317-414 | Instructor, category and transmission take the value sent, else stay; the car changes only if nobody learns on it, and everybody agrees with their car |
| `SchoolServices.Database.ChangeCarStatus` | src/modules/cars/cars.service.ts:435-489 | Writes the status of this car only, and takes no car out of service that a student practises on |
| `SchoolServices.Database.AssignInstructor` | src/modules/cars/cars.service.ts:491-573 | Writes the instructor of this car only; another one only if nobody learns on it |
| `SchoolServices.Database.ChangeRole` | src/modules/users/users.service.ts:612-684 | Changes the role only of somebody no group, car, lesson or profile refers to in any role; accounts and profiles of others stay |
| `SchoolEffects.AssignGroupMeans` | src/modules/students/students.service.ts:1023-1145 | While the rules hold, an assignment is accepted if and only if the student is not archived, finished or barred, the group is open, and the own group is this one or closed: the last check, which comes after a write, never fails |
| `SchoolEffects.AssignGroupWrites` | src/modules/students/students.service.ts:1023-1145 | Whatever the rows: the exact acceptance, and the ACTIVE row in another, closed group of the profile becomes COMPLETED, the row of the new group ACTIVE, no other row changes |
| `SchoolEffects.ChangeTrainingMeans` | src/modules/students/students.service.ts:103-131 | The eleven allowed moves; the ACTIVE enrollments of a graduate become COMPLETED, those of somebody who leaves or is archived DROPPED, and no other row changes |
| `SchoolEffects.ChangeGroupStatusMeans` | src/modules/groups/groups.service.ts:68-73 | The five allowed moves; exactly the ACTIVE enrollments of a group that closes become COMPLETED |
| `SchoolEffects.ChangeMemberStatusMeans` | src/modules/users/users.service.ts:102-107 | The allowed moves of an account, which leave its role and school; nobody leaves INVITED in this way |
| `SchoolEffects.BookableIff` | src/modules/lessons/lessons.service.ts:475-504 | A practice lesson may be booked if and only if student and instructor are ACTIVE in their roles in the school, the student practises, and the car is AVAILABLE, of that instructor, and of the category and transmission of the student |
| `SchoolEffects.GrantPracticeMeans` | src/modules/students/students.service.ts:1294-1400 | Practice is granted if and only if a student then practising could book that instructor and car at this moment |
| `SchoolEffects.UpdateCardMeans` | src/modules/students/students.service.ts:915-961 | A change of the card is accepted if and only if what is sent agrees with the car of the student, if there is one |
| `SchoolEffects.UpdateCarMeans` | src/modules/cars/cars.service.ts:317-414 | An update of a car is accepted if and only if it changes neither instructor, category nor transmission or nobody learns on the car, and a new instructor is ACTIVE and the car AVAILABLE |
| `SchoolEffects.ChangeCarStatusMeans` | src/modules/cars/cars.service.ts:69-73 | The five allowed moves; and a car leaves service only while nobody practises on it |
| `SchoolEffects.AssignInstructorMeans` | src/modules/cars/cars.service.ts:491-573 | Another instructor, or none, is accepted if and only if the car is AVAILABLE, nobody learns on it and the instructor is ACTIVE |
| `SchoolEffects.ChangeRoleMeans` | src/modules/users/users.service.ts:207-254 | A role may change if and only if no row refers to the person in any role, although only the present role is looked at; a former student leaves no profile and no enrollment behind |
| `SchoolCars.CarsMatchTheirStudents` | src/modules/cars/cars.service.ts:339-570 | Over every run a student with a car agrees with it on organization, instructor, category and transmission, the instructor has the role, and a student in PRACTICE has an AVAILABLE car |
| `SchoolCars.StepKeepsProfiles` | src/modules/cars/cars.service.ts:317-573 | Every request keeps that rule, whichever part of it the request writes |
| `SchoolCars.StillMatchIff` | src/modules/cars/cars.service.ts:617-645 | The query with its null branches finds nobody if and only if every student of the car agrees with its next values |
| `SchoolCars.StepKeepsRoles` | src/modules/users/users.service.ts:207-254 | Every request keeps group teachers, car instructors and the people of practice lessons in their roles and organization |
| `SchoolCars.DefaultBookingFailsOnPeopleOnly` | src/modules/lessons/lessons.service.ts:451-504 | For a student in PRACTICE, booking with the default instructor and car gives a stated verdict: refused only if the student or the instructor is deleted or not ACTIVE, never by a car rule, a role or an organization |
| `AttendanceBatch.AttendanceTable.WriteChanged` | src/modules/lessons/lesson-attendance.service.ts:249-294 | Afterwards everybody named has the status sent; marks that had it keep author and time, no other mark changes, and the number of rows that changed is returned |
| `AttendanceBatch.BatchIsIdempotent` | src/modules/lessons/lesson-attendance.service.ts:243-294 | Saving the same batch again, by whomever and whenever, changes no row |
| `AttendanceBatch.BatchIsOverride` | src/modules/lessons/lesson-attendance.service.ts:271-292 | Creating the missing marks and updating status by status is one pointwise override |
| `AttendanceBatch.CountChanged` | src/modules/lessons/lesson-attendance.service.ts:293-293 | Created plus updated records count the changed rows |
| `AttendanceRoster.LoadAttendance` | src/modules/lessons/lesson-attendance.service.ts:303-363 | The list holds exactly the own students who are marked, or ACTIVE in a Planned or Active group, or COMPLETED in a Completed or Archived one, each once, with their enrollment and their mark |
| `AttendanceRoster.ClosingKeepsTheList` | src/modules/groups/groups.service.ts:321-330 | Closing an open group takes nobody off the list: its ACTIVE members stay on it as COMPLETED |

## Left out

* Controllers, decorators, guards, logging, exception texts and response shapes; only accept or reject is kept.
* Authentication, refresh tokens, password reset, Google sign-in, change of email, uploads, dashboards, seeds.
* Mail content and the mail server: a mail call succeeds or fails.
* Time zones, parsing of dates, the start and end date of a group: they can only reject.
* Edits of a topic or a meeting place alone, which write nothing the schedule depends on.
* In the scheduling protocol, enrollments other than ACTIVE and foreign-key locks.
* Interleaved versions of the enrollment, training and car rules: no lock guards those rows.
* The retry delay and the order in which due jobs are claimed; a claim may also find nothing.
* Expiry of an invitation, which can only reject.
* The course id repeated in lesson and material rows, slugs, publication and progress of courses.
* Creating and removing courses: the set of courses is given; changing the kind or parent of an item is not offered by the source.
* Plate numbers and names of cars and people.
* The order of the attendance list by name, and the timing label of schedule items.
- SchoolServices.Database.CreateStudent: the invitation and its email job are modelled with the email queue, not here.
- SchoolServices.Database.UpdateCard: the source reads the card before it writes, outside a transaction; here both are one step.
- CourseStructure.Service.CreateItem: one method stands for the three kinds of item, whose position rules are the same; title, description and body are not kept.
- SchoolCars.DefaultBookingFailsOnPeopleOnly: changing a booked practice lesson repeats these checks and has no request of its own here.
- EmailQueueSafety.NoLostWakeup: says that a query begins, not that the database answers it.
- SchedulingAttendance.AtomicRunFreezesMarkedLessons: the clock of the program is not strictly increasing by itself; SafeLessonsAreFrozen needs no such clock.
- SchedulingThreats.MarkedSlotLosableIff: leaves open an early change whose slot is taken at present, which succeeds if the lessons in its way are moved or cancelled first; that no other request takes the slot holds without this condition (OnlyThreatsMove).
* Soft deletion of an organization, and which members may be marked; both only reject.
- SchedulingRequests.RequestSucceedsIff: rights, group dates, the activity of people, the members of a mark and the rules of cars are asked for besides, and only ever reject.
- SchedulingCollisions.NoWaitCycleDespiteCollisions: runs are those of one lock per key, of which runs with shared locks are some.
