/** Single flight, wakeups, attempts and tokens of the email queue, in every interleaving. */
module EmailQueueSafety {
  import opened Options
  import opened EmailQueue

  // ----- Single flight -----

  ghost predicate SingleFlight(s: State) {
    && (forall a, b :: a in s.loops && b in s.loops ==> a == b)
    && (s.pumping <==> s.loops != map[])
    && (s.pumpAgain ==> s.pumping)
  }

  lemma LeavingKeepsSingleFlight(s: State, loop: LoopId, next: LoopId)
    requires SingleFlight(s) && loop in s.loops
    ensures SingleFlight(Leave(s, loop, next))
  {
    var t := Leave(s, loop, next);
    assert s.loops - {loop} == map[];
    assert t.pumping ==> next in t.loops;
  }

  predicate Leaves(s: State, l: Label) {
    l.FailClaim? || (l.GetClaim? && l.loop in s.loops && s.loops[l.loop].Claimed? && s.loops[l.loop].claim == None)
  }

  predicate Moves(l: Label) {
    l.RunClaim? || l.GetClaim? || l.Read? || l.FailRead? || l.Mail? || l.Write? || l.FailWrite? || l.Resume?
  }

  lemma MoveStaysInPlace(s: State, l: Label)
    requires Enabled(s, l) && SingleFlight(s) && Moves(l) && !Leaves(s, l)
    ensures SingleFlight(Next(s, l))
  {
  }

  lemma StepKeepsSingleFlight(s: State, l: Label)
    requires Enabled(s, l) && SingleFlight(s)
    ensures SingleFlight(Next(s, l))
  {
    if Leaves(s, l) {
      LeavingKeepsSingleFlight(s, l.loop, l.next);
    } else if Moves(l) {
      MoveStaysInPlace(s, l);
    } else if l.Kick? || l.Restart? {
      StartKeepsSingleFlight(s, l);
    }
  }

  lemma StartKeepsSingleFlight(s: State, l: Label)
    requires Enabled(s, l) && SingleFlight(s) && (l.Kick? || l.Restart?)
    ensures SingleFlight(Next(s, l))
  {
    var t := Next(s, l);
    if l.Restart? || !s.pumping {
      assert t.loops == map[l.next := Claiming];
      assert l.next in t.loops;
    }
  }

  // ----- Jobs and what the loop knows about them -----

  predicate Terminal(status: JobStatus) {
    status == SENT || status == FAILED || status == SUPERSEDED
  }

  /** The token is there exactly while a mail may still have to be sent. */
  predicate JobOk(job: Job) {
    && job.token == (if Terminal(job.status) then None else Some(job.hash))
    && job.mails <= job.attempts <= INVITATION_EMAIL_MAX_ATTEMPTS + job.recoveries
    && (job.status == SENT ==> job.mails >= 1)
    && (job.status == QUEUED ==> job.attempts < INVITATION_EMAIL_MAX_ATTEMPTS + job.recoveries)
  }

  ghost predicate JobsOk(s: State) {
    && (forall j :: j in s.jobs ==> JobOk(s.jobs[j]) && s.jobs[j].hash in s.used && s.jobs[j].invitation in s.invitations)
    && (forall i :: i in s.invitations ==> s.invitations[i].hash in s.used)
  }

  /** The job under dispatch cannot be claimed again; before its mail, one attempt is still to be used. */
  predicate PcOk(jobs: map<Id, Job>, pc: Pc) {
    match pc
    case Claiming => true
    case Claimed(claim) => claim == None || BeforeMail(jobs, claim.value)
    case Reading(j) => BeforeMail(jobs, j)
    case ReadingInvitation(j) => BeforeMail(jobs, j)
    case Rereading(j, _) => BeforeMail(jobs, j)
    case Sending(j, token, attempts) => BeforeMail(jobs, j) && token == jobs[j].hash && attempts == jobs[j].attempts
    case Confirming(j, token, attempts) =>
      InDispatch(jobs, j) && token == jobs[j].hash && attempts == jobs[j].attempts && jobs[j].mails >= 1
    case Finishing(j, status, kept) =>
      && InDispatch(jobs, j) && status != PROCESSING && status != SENT
      && kept == (if Terminal(status) then None else Some(jobs[j].hash))
      && (status == QUEUED ==> jobs[j].attempts < INVITATION_EMAIL_MAX_ATTEMPTS)
    case Settled => true
  }

  predicate InDispatch(jobs: map<Id, Job>, j: Id) {
    j in jobs && jobs[j].status != QUEUED
  }

  predicate BeforeMail(jobs: map<Id, Job>, j: Id) {
    InDispatch(jobs, j) && jobs[j].mails < jobs[j].attempts
  }

  ghost predicate LoopsOk(s: State) {
    forall loop :: loop in s.loops ==> PcOk(s.jobs, s.loops[loop])
  }

  ghost predicate Inv(s: State) {
    SingleFlight(s) && JobsOk(s) && LoopsOk(s)
  }

  predicate WritesJob(l: Label) {
    l.RunClaim? || l.Mail? || l.Write? || l.FailWrite?
  }

  /** The one job of the loop is the only one that changes. */
  lemma LoopStepKeepsJobs(s: State, l: Label)
    requires Enabled(s, l) && JobsOk(s) && LoopsOk(s) && WritesJob(l)
    ensures JobsOk(Next(s, l))
  {
  }

  lemma RequestKeepsJobs(s: State, l: Label)
    requires Enabled(s, l) && JobsOk(s) && (l.Invite? || l.Resend? || l.Cancel?)
    ensures JobsOk(Next(s, l))
  {
  }

  lemma OtherStepsKeepJobs(s: State, l: Label)
    requires Enabled(s, l) && JobsOk(s) && !WritesJob(l) && !l.Restart? && !l.Invite? && !l.Resend? && !l.Cancel?
    ensures JobsOk(Next(s, l))
  {
  }

  lemma RestartKeepsJobs(s: State, l: Label)
    requires Enabled(s, l) && Inv(s) && l.Restart?
    ensures JobsOk(Next(s, l))
  {
  }

  lemma StepKeepsJobs(s: State, l: Label)
    requires Enabled(s, l) && Inv(s)
    ensures JobsOk(Next(s, l))
  {
    if l.Restart? {
      RestartKeepsJobs(s, l);
    } else if l.Invite? || l.Resend? || l.Cancel? {
      RequestKeepsJobs(s, l);
    } else if WritesJob(l) {
      LoopStepKeepsJobs(s, l);
    } else {
      OtherStepsKeepJobs(s, l);
    }
  }

  predicate IsRequest(l: Label) {
    l.Invite? || l.Resend? || l.Cancel? || l.Activate? || l.ChangeUser?
  }

  lemma RequestKeepsLoops(s: State, l: Label)
    requires Enabled(s, l) && LoopsOk(s) && IsRequest(l)
    ensures LoopsOk(Next(s, l))
  {
  }

  lemma WriteStepKeepsLoops(s: State, l: Label)
    requires Enabled(s, l) && Inv(s) && WritesJob(l)
    ensures LoopsOk(Next(s, l))
  {
  }

  lemma OtherStepsKeepLoops(s: State, l: Label)
    requires Enabled(s, l) && Inv(s) && !IsRequest(l) && !WritesJob(l)
    ensures LoopsOk(Next(s, l))
  {
  }

  lemma StepKeepsInv(s: State, l: Label)
    requires Enabled(s, l) && Inv(s)
    ensures Inv(Next(s, l))
  {
    StepKeepsSingleFlight(s, l);
    StepKeepsJobs(s, l);
    if IsRequest(l) {
      RequestKeepsLoops(s, l);
    } else if WritesJob(l) {
      WriteStepKeepsLoops(s, l);
    } else {
      OtherStepsKeepLoops(s, l);
    }
  }

  lemma {:induction false} RunKeepsInv(s: State, steps: seq<Label>)
    requires Inv(s) && Run(s, steps)
    ensures Inv(After(s, steps))
    decreases |steps|
  {
    if steps != [] {
      StepKeepsInv(s, steps[0]);
      RunKeepsInv(Next(s, steps[0]), steps[1..]);
    }
  }

  ghost predicate Initial(s: State) {
    s == State(map[], false, false, 0, map[], map[], map[], {})
  }

  /** At any time at most one loop claims or dispatches, and the flag says whether one does. */
  lemma PumpIsSingleFlight(s: State, steps: seq<Label>)
    requires Initial(s) && Run(s, steps)
    ensures var t := After(s, steps);
      && (forall a, b :: a in t.loops && b in t.loops ==> a == b)
      && (t.pumping <==> t.loops != map[])
  {
    RunKeepsInv(s, steps);
  }

  // ----- No lost wakeup -----

  /** A claim query has begun since the count was taken, or the loop has been told to begin another. */
  predicate Served(s: State, since: nat) {
    s.claims > since || (s.claims == since && s.pumping && s.pumpAgain)
  }

  lemma StepKeepsServed(s: State, l: Label, since: nat)
    requires Enabled(s, l) && Inv(s) && Served(s, since)
    ensures Served(Next(s, l), since)
  {
  }

  lemma {:induction false} RunKeepsServed(s: State, steps: seq<Label>, since: nat)
    requires Inv(s) && Run(s, steps) && Served(s, since)
    ensures Served(After(s, steps), since)
    decreases |steps|
  {
    if steps != [] {
      StepKeepsInv(s, steps[0]);
      StepKeepsServed(s, steps[0], since);
      RunKeepsServed(Next(s, steps[0]), steps[1..], since);
    }
  }

  /** For every kick, by the time the pump is idle a claim query has begun at or after that kick. */
  lemma NoLostWakeup(s: State, next: LoopId, steps: seq<Label>)
    requires Inv(s) && Run(s, [Kick(next)] + steps)
    ensures var t := After(s, [Kick(next)] + steps); t.pumping || t.claims > s.claims
  {
    assert ([Kick(next)] + steps)[1..] == steps;
    StepKeepsInv(s, Kick(next));
    RunKeepsServed(Next(s, Kick(next)), steps, s.claims);
    RunKeepsInv(s, [Kick(next)] + steps);
  }

  // ----- Attempts and mails -----

  predicate RecoversNothing(l: Label) {
    l.Restart? ==> l.recovered == {}
  }

  ghost predicate NeverRecovered(s: State) {
    forall j :: j in s.jobs ==> s.jobs[j].recoveries == 0
  }

  lemma StepWithoutRecovery(s: State, l: Label)
    requires NeverRecovered(s) && Enabled(s, l) && RecoversNothing(l)
    ensures NeverRecovered(Next(s, l))
  {
  }

  lemma {:induction false} RunWithoutRecovery(s: State, steps: seq<Label>)
    requires NeverRecovered(s) && Run(s, steps) && forall l :: l in steps ==> RecoversNothing(l)
    ensures NeverRecovered(After(s, steps))
    decreases |steps|
  {
    if steps != [] {
      StepWithoutRecovery(s, steps[0]);
      RunWithoutRecovery(Next(s, steps[0]), steps[1..]);
    }
  }

  /** Every job: the token is gone exactly in a final status, and each recovery buys at most one more attempt. */
  lemma JobsAreBounded(s: State, steps: seq<Label>, j: Id)
    requires Initial(s) && Run(s, steps) && j in After(s, steps).jobs
    ensures var job := After(s, steps).jobs[j];
      && (job.token == None <==> job.status == SENT || job.status == FAILED || job.status == SUPERSEDED)
      && (job.status == SENT ==> job.mails >= 1)
      && job.mails <= job.attempts <= 3 + job.recoveries
      && ((forall l :: l in steps ==> RecoversNothing(l)) ==> job.attempts <= 3)
  {
    RunKeepsInv(s, steps);
    if forall l :: l in steps ==> RecoversNothing(l) {
      RunWithoutRecovery(s, steps);
    }
  }

  // ----- Stale tokens -----

  /** The invitation has ended or carries another token by now. */
  ghost predicate Stale(s: State, j: Id) {
    && JobKnown(s, j)
    && (s.invitations[s.jobs[j].invitation].hash != s.jobs[j].hash
        || s.invitations[s.jobs[j].invitation].status != PENDING)
  }

  predicate PastChecks(s: State, pc: Pc, j: Id) {
    || (pc.Sending? && pc.job == j)
    || (pc.Rereading? && pc.job == j && j in s.jobs && s.jobs[j].status == PROCESSING)
  }

  /** Mails of a stale job that can still go out. */
  ghost function Budget(s: State, j: Id): nat {
    if exists loop :: loop in s.loops && PastChecks(s, s.loops[loop], j) then 1 else 0
  }

  lemma RequestKeepsStale(s: State, l: Label, j: Id)
    requires Enabled(s, l) && JobsOk(s) && Stale(s, j) && IsRequest(l)
    ensures Stale(Next(s, l), j)
  {
  }

  lemma QueueStepKeepsStale(s: State, l: Label, j: Id)
    requires Enabled(s, l) && Stale(s, j) && !IsRequest(l)
    ensures Stale(Next(s, l), j)
  {
  }

  lemma StepKeepsStale(s: State, l: Label, j: Id)
    requires Enabled(s, l) && Inv(s) && Stale(s, j)
    ensures Stale(Next(s, l), j)
  {
    if IsRequest(l) {
      RequestKeepsStale(s, l, j);
    } else {
      QueueStepKeepsStale(s, l, j);
    }
  }

  lemma RequestKeepsBudget(s: State, l: Label, j: Id)
    requires Enabled(s, l) && Inv(s) && Stale(s, j) && (IsRequest(l) || l.Kick?)
    ensures Budget(Next(s, l), j) <= Budget(s, j) && Next(s, l).jobs[j].mails == s.jobs[j].mails
  {
  }

  lemma RestartKeepsBudget(s: State, l: Label, j: Id)
    requires Enabled(s, l) && Inv(s) && Stale(s, j) && l.Restart?
    ensures Next(s, l).jobs[j].mails + Budget(Next(s, l), j) <= s.jobs[j].mails + Budget(s, j)
  {
  }

  lemma LoopStepKeepsBudget(s: State, l: Label, j: Id)
    requires Enabled(s, l) && Inv(s) && Stale(s, j) && !IsRequest(l) && !l.Kick? && !l.Restart?
    ensures Next(s, l).jobs[j].mails + Budget(Next(s, l), j) <= s.jobs[j].mails + Budget(s, j)
  {
  }

  lemma StepKeepsBudget(s: State, l: Label, j: Id)
    requires Enabled(s, l) && Inv(s) && Stale(s, j)
    ensures Stale(Next(s, l), j)
    ensures Next(s, l).jobs[j].mails + Budget(Next(s, l), j) <= s.jobs[j].mails + Budget(s, j)
  {
    StepKeepsStale(s, l, j);
    if l.Restart? {
      RestartKeepsBudget(s, l, j);
    } else if IsRequest(l) || l.Kick? {
      RequestKeepsBudget(s, l, j);
    } else {
      LoopStepKeepsBudget(s, l, j);
    }
  }

  /** A stale job sends at most the one mail already past its checks, whatever finish writes afterwards. */
  lemma {:induction false} StaleJobSendsAtMostOnce(s: State, steps: seq<Label>, j: Id)
    requires Inv(s) && Stale(s, j) && Run(s, steps)
    ensures var t := After(s, steps);
      Stale(t, j) && t.jobs[j].mails + Budget(t, j) <= s.jobs[j].mails + Budget(s, j)
    decreases |steps|
  {
    if steps != [] {
      StepKeepsInv(s, steps[0]);
      StepKeepsBudget(s, steps[0], j);
      StaleJobSendsAtMostOnce(Next(s, steps[0]), steps[1..], j);
    }
  }

  /** The steps that rotate an invitation's token or end it. */
  predicate Rotates(s: State, l: Label, i: Id) {
    && i in s.invitations
    && ((l.Resend? && l.invitation == i) || (l.Invite? && l.invitation == i) || (l.Cancel? && l.invitation == i))
  }

  /** After a resend, a re-invitation or a cancellation an older job sends only the mail being sent at that moment. */
  lemma RotatedJobSendsOnlyTheMailUnderWay(s: State, l: Label, steps: seq<Label>, j: Id)
    requires Inv(s) && JobKnown(s, j) && Rotates(s, l, s.jobs[j].invitation) && Run(s, [l] + steps)
    ensures j in After(s, [l] + steps).jobs
    ensures After(s, [l] + steps).jobs[j].mails <= s.jobs[j].mails + if j in InSending(s) then 1 else 0
  {
    var t := Next(s, l);
    assert ([l] + steps)[1..] == steps;
    StepKeepsInv(s, l);
    assert Stale(t, j);
    StaleJobSendsAtMostOnce(t, steps, j);
    if loop :| loop in t.loops && PastChecks(t, t.loops[loop], j) {
      assert s.loops[loop].Sending? && s.loops[loop].job in InSending(s);
    }
  }
}
