/**
 * The invitation email queue as a state machine. One process runs it on an event loop: between two awaits its code
 * is atomic, and every query, mail call and failure is a step that other requests may interleave with.
 */
module EmailQueue {
  import opened Accounts
  import opened Options

  type Id = int

  const INVITATION_EMAIL_MAX_ATTEMPTS := 3

  datatype JobStatus = QUEUED | PROCESSING | SENT | FAILED | SUPERSEDED

  /**
   * A hash stands for its token: distinct tokens have distinct hashes. `mails` counts the mail calls made for the
   * job and `recoveries` how often it was put back after a restart; the program stores neither.
   */
  datatype Job = Job(invitation: Id, token: Option<int>, hash: int, status: JobStatus, attempts: nat,
                     mails: nat, recoveries: nat)

  datatype InvitationStatus = PENDING | ACCEPTED | CANCELLED

  /** `accepted`: acceptedAt is set. */
  datatype Invitation = Invitation(user: Id, hash: int, status: InvitationStatus, accepted: bool)

  datatype User = User(status: UserStatus, deleted: bool)

  /** What a pump loop awaits. */
  datatype Pc =
    | Claiming
    | Claimed(claim: Option<Id>)
    | Reading(job: Id)
    | ReadingInvitation(job: Id)
    | Rereading(job: Id, hash: int)
    | Sending(job: Id, token: int, attempts: nat)
    | Confirming(job: Id, token: int, attempts: nat)
    | Finishing(job: Id, status: JobStatus, kept: Option<int>)
    | Settled

  datatype LoopId = LoopId(n: int)

  /** `claims` counts the claim queries begun; `used` holds every token hash ever issued. */
  datatype State = State(loops: map<LoopId, Pc>, pumping: bool, pumpAgain: bool, claims: nat,
                         jobs: map<Id, Job>, invitations: map<Id, Invitation>, users: map<Id, User>, used: set<int>)

  datatype Label =
    | Kick(next: LoopId)
    | RunClaim(loop: LoopId, claim: Option<Id>)
    | GetClaim(loop: LoopId, next: LoopId)
    | FailClaim(loop: LoopId, next: LoopId)
    | Read(loop: LoopId)
    | FailRead(loop: LoopId)
    | Mail(loop: LoopId, ok: bool)
    | Write(loop: LoopId)
    | FailWrite(loop: LoopId, written: bool)
    | Resume(loop: LoopId)
    | Restart(next: LoopId, mailed: set<Id>, recovered: set<Id>)
    | Invite(user: Id, invitation: Id, job: Id, token: int)
    | Resend(invitation: Id, job: Id, token: int)
    | Cancel(invitation: Id)
    | Activate(invitation: Id)
    | ChangeUser(user: Id, to: User)

  // ----- The pump -----

  /** Entering the loop: the flag is cleared and a claim query begins. */
  function Begin(s: State, loop: LoopId): State {
    s.(loops := s.loops[loop := Claiming], pumping := true, pumpAgain := false, claims := s.claims + 1)
  }

  function Pump(s: State, next: LoopId): State {
    if s.pumping then s.(pumpAgain := true) else Begin(s, next)
  }

  /** The finally block. */
  function Leave(s: State, loop: LoopId, next: LoopId): State {
    var idle := s.(loops := s.loops - {loop}, pumping := false);
    if idle.pumpAgain then Pump(idle.(pumpAgain := false), next) else idle
  }

  function Goto(s: State, loop: LoopId, pc: Pc): State {
    s.(loops := s.loops[loop := pc])
  }

  predicate Claimable(s: State, j: Id) {
    j in s.jobs && s.jobs[j].status == QUEUED
  }

  function TakeJob(s: State, loop: LoopId, claim: Option<Id>): State
    requires claim.Some? ==> claim.value in s.jobs
  {
    if claim == None then Goto(s, loop, Claimed(None))
    else
      var j := s.jobs[claim.value];
      Goto(s, loop, Claimed(claim)).(jobs := s.jobs[claim.value := j.(status := PROCESSING, attempts := j.attempts + 1)])
  }

  // ----- One dispatch -----

  predicate Deliverable(s: State, inv: Invitation) {
    inv.user in s.users && !s.users[inv.user].deleted
  }

  /** What a read that returns makes the dispatch do next. */
  function AfterRead(s: State, pc: Pc): Pc
    requires pc.Reading? || pc.ReadingInvitation? || pc.Rereading?
    requires pc.job in s.jobs && s.jobs[pc.job].invitation in s.invitations
  {
    var job := s.jobs[pc.job];
    var inv := s.invitations[job.invitation];
    match pc
    case Reading(j) =>
      if job.status != PROCESSING || job.token == None then Settled else ReadingInvitation(j)
    case ReadingInvitation(j) =>
      if !Deliverable(s, inv) then Finishing(j, FAILED, None)
      else if inv.status != PENDING || inv.hash != job.hash || s.users[inv.user].status != INVITED
      then Finishing(j, SUPERSEDED, None)
      else Rereading(j, inv.hash)
    case Rereading(j, hash) =>
      if job.status != PROCESSING then Settled
      else if job.token == None || job.hash != hash then Finishing(j, SUPERSEDED, None)
      else Sending(j, job.token.value, job.attempts)
  }

  /** The catch block: give up after the third attempt, otherwise keep the token for another. */
  function AfterFailure(pc: Pc): Pc
    requires pc.Sending? || pc.Confirming?
  {
    if pc.attempts >= INVITATION_EMAIL_MAX_ATTEMPTS then Finishing(pc.job, FAILED, None)
    else Finishing(pc.job, QUEUED, Some(pc.token))
  }

  function CountMail(jobs: map<Id, Job>, j: Id): map<Id, Job>
    requires j in jobs
  {
    jobs[j := jobs[j].(mails := jobs[j].mails + 1)]
  }

  /** finish writes whatever the row holds by then. */
  function Finished(jobs: map<Id, Job>, pc: Pc): map<Id, Job>
    requires (pc.Confirming? || pc.Finishing?) && pc.job in jobs
  {
    match pc
    case Confirming(j, _, _) => jobs[j := jobs[j].(status := SENT, token := None)]
    case Finishing(j, status, kept) => jobs[j := jobs[j].(status := status, token := kept)]
  }

  // ----- Invitations -----

  predicate Replaceable(status: JobStatus) {
    status == QUEUED || status == PROCESSING || status == FAILED
  }

  /** The jobs of an invitation that ends or gets a new token. */
  function Superseded(jobs: map<Id, Job>, invitation: Id): map<Id, Job> {
    map j | j in jobs ::
      if jobs[j].invitation == invitation && Replaceable(jobs[j].status) then jobs[j].(status := SUPERSEDED, token := None)
      else jobs[j]
  }

  function Enqueued(jobs: map<Id, Job>, job: Id, invitation: Id, token: int): map<Id, Job> {
    jobs[job := Job(invitation, Some(token), token, QUEUED, 0, 0, 0)]
  }

  predicate Pending(s: State, i: Id, user: Id) {
    i in s.invitations && s.invitations[i].user == user && s.invitations[i].status == PENDING && !s.invitations[i].accepted
  }

  /** Inviting a person: the pending invitation is renewed if there is one. */
  function Invited(s: State, user: Id, invitation: Id, job: Id, token: int): State {
    var jobs := if invitation in s.invitations then Superseded(s.jobs, invitation) else s.jobs;
    s.(users := s.users[user := User(INVITED, false)],
       invitations := s.invitations[invitation := Invitation(user, token, PENDING, false)],
       jobs := Enqueued(jobs, job, invitation, token),
       used := s.used + {token})
  }

  /** The unconditional update of resend. */
  function Resent(s: State, invitation: Id, job: Id, token: int): State
    requires invitation in s.invitations
  {
    s.(invitations := s.invitations[invitation := Invitation(s.invitations[invitation].user, token, PENDING, false)],
       jobs := Enqueued(Superseded(s.jobs, invitation), job, invitation, token),
       used := s.used + {token})
  }

  function Cancelled(s: State, invitation: Id): State
    requires invitation in s.invitations
  {
    s.(invitations := s.invitations[invitation := s.invitations[invitation].(status := CANCELLED)],
       jobs := Superseded(s.jobs, invitation))
  }

  function Activated(s: State, invitation: Id): State
    requires invitation in s.invitations && s.invitations[invitation].user in s.users
  {
    var inv := s.invitations[invitation];
    s.(invitations := s.invitations[invitation := inv.(status := ACCEPTED, accepted := true)],
       users := s.users[inv.user := s.users[inv.user].(status := ACTIVE)])
  }

  // ----- Restart -----

  function InSending(s: State): set<Id> {
    set l | l in s.loops && s.loops[l].Sending? :: s.loops[l].job
  }

  /** The process dies, perhaps with a mail just handed over, and the next one re-queues some stuck jobs. */
  function Recovered(jobs: map<Id, Job>, mailed: set<Id>, recovered: set<Id>): map<Id, Job> {
    map j | j in jobs ::
      var job := if j in mailed then jobs[j].(mails := jobs[j].mails + 1) else jobs[j];
      if j in recovered && job.status == PROCESSING then job.(status := QUEUED, recoveries := job.recoveries + 1) else job
  }

  function Restarted(s: State, next: LoopId, mailed: set<Id>, recovered: set<Id>): State {
    Begin(s.(loops := map[], pumping := false, pumpAgain := false, jobs := Recovered(s.jobs, mailed, recovered)), next)
  }

  // ----- Steps -----

  predicate AtRead(s: State, loop: LoopId) {
    loop in s.loops && (s.loops[loop].Reading? || s.loops[loop].ReadingInvitation? || s.loops[loop].Rereading?)
  }

  predicate AtWrite(s: State, loop: LoopId) {
    loop in s.loops && (s.loops[loop].Confirming? || s.loops[loop].Finishing?)
  }

  predicate JobKnown(s: State, j: Id) {
    j in s.jobs && s.jobs[j].invitation in s.invitations
  }

  predicate Enabled(s: State, l: Label) {
    match l
    case Kick(next) => next !in s.loops
    case RunClaim(loop, claim) => loop in s.loops && s.loops[loop] == Claiming && (claim == None || Claimable(s, claim.value))
    case GetClaim(loop, next) => loop in s.loops && s.loops[loop].Claimed? && next !in s.loops
    case FailClaim(loop, next) => loop in s.loops && (s.loops[loop].Claiming? || s.loops[loop].Claimed?) && next !in s.loops
    case Read(loop) => AtRead(s, loop) && JobKnown(s, s.loops[loop].job)
    case FailRead(loop) => AtRead(s, loop)
    case Mail(loop, _) => loop in s.loops && s.loops[loop].Sending? && s.loops[loop].job in s.jobs
    case Write(loop) => AtWrite(s, loop) && s.loops[loop].job in s.jobs
    case FailWrite(loop, _) => AtWrite(s, loop) && s.loops[loop].job in s.jobs
    case Resume(loop) => loop in s.loops && s.loops[loop].Settled?
    case Restart(_, mailed, _) => mailed <= InSending(s)
    case Invite(user, invitation, job, token) =>
      && token !in s.used && job !in s.jobs
      && (user in s.users ==> s.users[user] == User(INVITED, false))
      && (Pending(s, invitation, user)
          || (invitation !in s.invitations && forall i :: i in s.invitations ==> !Pending(s, i, user)))
    case Resend(invitation, job, token) => invitation in s.invitations && token !in s.used && job !in s.jobs
    case Cancel(invitation) =>
      invitation in s.invitations && s.invitations[invitation].status == PENDING && !s.invitations[invitation].accepted
    case Activate(invitation) =>
      && invitation in s.invitations && s.invitations[invitation].status == PENDING && !s.invitations[invitation].accepted
      && s.invitations[invitation].user in s.users && s.users[s.invitations[invitation].user] == User(INVITED, false)
    case ChangeUser(user, to) =>
      && user in s.users && (to.status == INVITED ==> s.users[user].status == INVITED)
      && (s.users[user].deleted ==> to.deleted)
  }

  function Next(s: State, l: Label): State
    requires Enabled(s, l)
  {
    match l
    case Kick(next) => Pump(s, next)
    case RunClaim(loop, claim) => TakeJob(s, loop, claim)
    case GetClaim(loop, next) =>
      (match s.loops[loop].claim
       case None => Leave(s, loop, next)
       case Some(j) => Goto(s, loop, Reading(j)))
    case FailClaim(loop, next) => Leave(s, loop, next)
    case Read(loop) => Goto(s, loop, AfterRead(s, s.loops[loop]))
    case FailRead(loop) => Goto(s, loop, Settled)
    case Mail(loop, ok) =>
      var pc := s.loops[loop];
      Goto(s, loop, if ok then Confirming(pc.job, pc.token, pc.attempts) else AfterFailure(pc))
        .(jobs := CountMail(s.jobs, pc.job))
    case Write(loop) => Goto(s, loop, Settled).(jobs := Finished(s.jobs, s.loops[loop]))
    case FailWrite(loop, written) =>
      var pc := s.loops[loop];
      Goto(s, loop, if pc.Confirming? then AfterFailure(pc) else Settled)
        .(jobs := if written then Finished(s.jobs, pc) else s.jobs)
    case Resume(loop) => Begin(s, loop)
    case Restart(next, mailed, recovered) => Restarted(s, next, mailed, recovered)
    case Invite(user, invitation, job, token) => Invited(s, user, invitation, job, token)
    case Resend(invitation, job, token) => Resent(s, invitation, job, token)
    case Cancel(invitation) => Cancelled(s, invitation)
    case Activate(invitation) => Activated(s, invitation)
    case ChangeUser(user, to) => s.(users := s.users[user := to])
  }

  ghost predicate Run(s: State, steps: seq<Label>)
    decreases |steps|
  {
    steps == [] || (Enabled(s, steps[0]) && Run(Next(s, steps[0]), steps[1..]))
  }

  ghost function After(s: State, steps: seq<Label>): State
    requires Run(s, steps)
    decreases |steps|
  {
    if steps == [] then s else After(Next(s, steps[0]), steps[1..])
  }
}
