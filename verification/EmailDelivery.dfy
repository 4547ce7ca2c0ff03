/** What each read of a dispatch decides, and what becomes of a queued mail when nothing disturbs its dispatch. */
module EmailDelivery {
  import opened Accounts
  import opened Options
  import opened EmailQueue
  import opened EmailQueueSafety

  ghost predicate Ends(s: State, steps: seq<Label>, t: State) {
    Run(s, steps) && After(s, steps) == t
  }

  ghost predicate Steps(s: State, l: Label, t: State) {
    Enabled(s, l) && Next(s, l) == t
  }

  lemma Then(s: State, l: Label, mid: State, steps: seq<Label>, t: State)
    requires Steps(s, l, mid) && Ends(mid, steps, t)
    ensures Ends(s, [l] + steps, t)
  {
  }

  lemma One(s: State, l: Label, t: State)
    requires Steps(s, l, t)
    ensures Ends(s, [l], t)
  {
    assert Ends(t, [], t);
    Then(s, l, t, [], t);
    assert [l] + [] == [l];
  }

  // ----- One read at a time, whatever happened in between -----

  /** The person the invitation is for can still be written to. */
  predicate PersonThere(s: State, i: Id)
    requires i in s.invitations
  {
    s.invitations[i].user in s.users && !s.users[s.invitations[i].user].deleted
  }

  /** The invitation still waits for this person under this token. */
  predicate StillAsked(s: State, i: Id, hash: int)
    requires i in s.invitations && s.invitations[i].user in s.users
  {
    s.invitations[i].status == PENDING && s.invitations[i].hash == hash && s.users[s.invitations[i].user].status == INVITED
  }

  /** The first read lets a job pass exactly while it is in PROCESSING with its token; otherwise nothing is written. */
  lemma FirstReadIff(s: State, loop: LoopId, j: Id)
    requires Enabled(s, Read(loop)) && s.loops[loop] == Reading(j)
    ensures var pc := Next(s, Read(loop)).loops[loop];
      && (pc == ReadingInvitation(j) <==> s.jobs[j].status == PROCESSING && s.jobs[j].token.Some?)
      && (pc == Settled <==> s.jobs[j].status != PROCESSING || s.jobs[j].token == None)
    ensures Next(s, Read(loop)).jobs == s.jobs
  {
  }

  /** The second read gives up on a person who is gone, drops a job that is no longer asked for, and lets the others pass. */
  lemma SecondReadIff(s: State, loop: LoopId, j: Id)
    requires Enabled(s, Read(loop)) && s.loops[loop] == ReadingInvitation(j)
    ensures var pc, i := Next(s, Read(loop)).loops[loop], s.jobs[j].invitation;
      && (pc == Finishing(j, FAILED, None) <==> !PersonThere(s, i))
      && (pc == Finishing(j, SUPERSEDED, None) <==> PersonThere(s, i) && !StillAsked(s, i, s.jobs[j].hash))
      && (pc == Rereading(j, s.jobs[j].hash) <==> PersonThere(s, i) && StillAsked(s, i, s.jobs[j].hash))
    ensures Next(s, Read(loop)).jobs == s.jobs
  {
  }

  /** The last read before the mail sends exactly the token of the invitation that was read. */
  lemma ThirdReadIff(s: State, loop: LoopId, j: Id, hash: int)
    requires Enabled(s, Read(loop)) && s.loops[loop] == Rereading(j, hash)
    ensures var pc, job := Next(s, Read(loop)).loops[loop], s.jobs[j];
      && (pc.Sending? <==> job.status == PROCESSING && job.token.Some? && job.hash == hash)
      && (pc.Sending? ==> pc == Sending(j, job.token.value, job.attempts))
      && (pc == Finishing(j, SUPERSEDED, None) <==> job.status == PROCESSING && (job.token == None || job.hash != hash))
      && (pc == Settled <==> job.status != PROCESSING)
    ensures Next(s, Read(loop)).jobs == s.jobs
  {
  }

  // ----- The whole dispatch, undisturbed -----

  ghost predicate Waiting(s: State, loop: LoopId, next: LoopId, j: Id) {
    && Inv(s) && loop in s.loops && s.loops[loop] == Claiming && next !in s.loops
    && j in s.jobs && s.jobs[j].status == QUEUED
  }

  predicate InOrder(s: State, j: Id)
    requires JobKnown(s, j)
  {
    PersonThere(s, s.jobs[j].invitation) && StillAsked(s, s.jobs[j].invitation, s.jobs[j].hash)
  }

  /** The job under way, with the loop at `pc`. */
  function Dispatching(s: State, loop: LoopId, j: Id, pc: Pc): State
    requires j in s.jobs
  {
    s.(loops := s.loops[loop := pc],
       jobs := s.jobs[j := s.jobs[j].(status := PROCESSING, attempts := s.jobs[j].attempts + 1)])
  }

  /** The dispatch is over and the row reads so. */
  function Left(s: State, loop: LoopId, j: Id, status: JobStatus, token: Option<int>, mailed: nat): State
    requires j in s.jobs
  {
    var job := s.jobs[j];
    s.(loops := s.loops[loop := Settled],
       jobs := s.jobs[j := Job(job.invitation, token, job.hash, status, job.attempts + 1, job.mails + mailed, job.recoveries)])
  }

  lemma ClaimAndRead(s: State, loop: LoopId, next: LoopId, j: Id, steps: seq<Label>, t: State)
    requires Waiting(s, loop, next, j) && Ends(Dispatching(s, loop, j, ReadingInvitation(j)), steps, t)
    ensures Ends(s, [RunClaim(loop, Some(j))] + ([GetClaim(loop, next)] + ([Read(loop)] + steps)), t)
  {
    var claimed := Dispatching(s, loop, j, Claimed(Some(j)));
    var reading := Dispatching(s, loop, j, Reading(j));
    var read := Dispatching(s, loop, j, ReadingInvitation(j));
    assert claimed.loops[loop := Reading(j)] == reading.loops && reading.loops[loop := ReadingInvitation(j)] == read.loops;
    assert JobOk(s.jobs[j]);
    Then(reading, Read(loop), read, steps, t);
    Then(claimed, GetClaim(loop, next), reading, [Read(loop)] + steps, t);
    Then(s, RunClaim(loop, Some(j)), claimed, [GetClaim(loop, next)] + ([Read(loop)] + steps), t);
  }

  lemma ReadOnToMail(s: State, loop: LoopId, next: LoopId, j: Id, steps: seq<Label>, t: State)
    requires Waiting(s, loop, next, j) && JobKnown(s, j) && InOrder(s, j)
    requires Ends(Dispatching(s, loop, j, Sending(j, s.jobs[j].hash, s.jobs[j].attempts + 1)), steps, t)
    ensures Ends(Dispatching(s, loop, j, ReadingInvitation(j)), [Read(loop)] + ([Read(loop)] + steps), t)
  {
    var read := Dispatching(s, loop, j, ReadingInvitation(j));
    var reread := Dispatching(s, loop, j, Rereading(j, s.jobs[j].hash));
    var sending := Dispatching(s, loop, j, Sending(j, s.jobs[j].hash, s.jobs[j].attempts + 1));
    assert JobOk(s.jobs[j]);
    assert read.loops[loop := Rereading(j, s.jobs[j].hash)] == reread.loops;
    assert reread.loops[loop := sending.loops[loop]] == sending.loops;
    Then(reread, Read(loop), sending, steps, t);
    Then(read, Read(loop), reread, [Read(loop)] + steps, t);
  }

  /** The row a mail leaves to be written. */
  predicate Outcome(attempts: nat, hash: int, ok: bool, status: JobStatus, token: Option<int>) {
    if ok then status == SENT && token == None
    else if attempts < 2 then status == QUEUED && token == Some(hash)
    else status == FAILED && token == None
  }

  /** The rows once the mail of the job's next attempt has been handed over. */
  function MailedJobs(s: State, j: Id): map<Id, Job>
    requires j in s.jobs
  {
    var job := s.jobs[j];
    s.jobs[j := Job(job.invitation, job.token, job.hash, PROCESSING, job.attempts + 1, job.mails + 1, job.recoveries)]
  }

  lemma MailEnds(s: State, loop: LoopId, j: Id, ok: bool, status: JobStatus, token: Option<int>) returns (mailed: State)
    requires j in s.jobs && Outcome(s.jobs[j].attempts, s.jobs[j].hash, ok, status, token)
    ensures Steps(Dispatching(s, loop, j, Sending(j, s.jobs[j].hash, s.jobs[j].attempts + 1)), Mail(loop, ok), mailed)
    ensures mailed == Dispatching(s, loop, j, mailed.loops[loop]).(jobs := mailed.jobs) && loop in mailed.loops
    ensures mailed.jobs == MailedJobs(s, j)
    ensures mailed.loops[loop] == if ok then Confirming(j, s.jobs[j].hash, s.jobs[j].attempts + 1) else Finishing(j, status, token)
  {
    var sending := Dispatching(s, loop, j, Sending(j, s.jobs[j].hash, s.jobs[j].attempts + 1));
    mailed := Next(sending, Mail(loop, ok));
    assert mailed.loops == s.loops[loop := mailed.loops[loop]];
  }

  lemma WriteEnds(s: State, mailed: State, loop: LoopId, j: Id, ok: bool, status: JobStatus, token: Option<int>)
    requires j in s.jobs && loop in mailed.loops && mailed == Dispatching(s, loop, j, mailed.loops[loop]).(jobs := mailed.jobs)
    requires mailed.jobs == MailedJobs(s, j)
    requires mailed.loops[loop] == if ok then Confirming(j, s.jobs[j].hash, s.jobs[j].attempts + 1) else Finishing(j, status, token)
    requires ok ==> status == SENT && token == None
    ensures Steps(mailed, Write(loop), Left(s, loop, j, status, token, 1))
  {
    var t := Next(mailed, Write(loop));
    assert t.jobs == Left(s, loop, j, status, token, 1).jobs;
    assert t.loops == Left(s, loop, j, status, token, 1).loops;
  }

  lemma MailAndWrite(s: State, loop: LoopId, j: Id, ok: bool, status: JobStatus, token: Option<int>)
    requires j in s.jobs && Outcome(s.jobs[j].attempts, s.jobs[j].hash, ok, status, token)
    ensures Ends(Dispatching(s, loop, j, Sending(j, s.jobs[j].hash, s.jobs[j].attempts + 1)), [Mail(loop, ok)] + [Write(loop)],
                 Left(s, loop, j, status, token, 1))
  {
    var mailed := MailEnds(s, loop, j, ok, status, token);
    WriteEnds(s, mailed, loop, j, ok, status, token);
    One(mailed, Write(loop), Left(s, loop, j, status, token, 1));
    Then(Dispatching(s, loop, j, Sending(j, s.jobs[j].hash, s.jobs[j].attempts + 1)), Mail(loop, ok), mailed, [Write(loop)],
         Left(s, loop, j, status, token, 1));
  }

  ghost function FullDispatch(loop: LoopId, next: LoopId, j: Id, ok: bool): seq<Label> {
    [RunClaim(loop, Some(j))] + ([GetClaim(loop, next)] + ([Read(loop)]
    + ([Read(loop)] + ([Read(loop)] + ([Mail(loop, ok)] + [Write(loop)])))))
  }

  /**
   * A queued job whose invitation is in order is mailed: it ends SENT without its token. If the mail fails it is queued
   * again with its token, except after the third attempt, when it is given up.
   */
  lemma JobInOrderIsMailed(s: State, loop: LoopId, next: LoopId, j: Id, ok: bool)
    requires Waiting(s, loop, next, j) && JobKnown(s, j) && InOrder(s, j)
    ensures Ends(s, FullDispatch(loop, next, j, ok),
                 if ok then Left(s, loop, j, SENT, None, 1)
                 else if s.jobs[j].attempts < 2 then Left(s, loop, j, QUEUED, Some(s.jobs[j].hash), 1)
                 else Left(s, loop, j, FAILED, None, 1))
  {
    assert JobOk(s.jobs[j]);
    var status := if ok then SENT else if s.jobs[j].attempts < 2 then QUEUED else FAILED;
    var token := if status == QUEUED then Some(s.jobs[j].hash) else None;
    var t := Left(s, loop, j, status, token, 1);
    var mail := [Mail(loop, ok)] + [Write(loop)];
    MailAndWrite(s, loop, j, ok, status, token);
    ReadOnToMail(s, loop, next, j, mail, t);
    ClaimAndRead(s, loop, next, j, [Read(loop)] + ([Read(loop)] + mail), t);
  }

  /** Any other is not: it ends FAILED when the person is gone, else SUPERSEDED, without its token. */
  lemma JobOutOfOrderIsDropped(s: State, loop: LoopId, next: LoopId, j: Id)
    requires Waiting(s, loop, next, j) && JobKnown(s, j) && !InOrder(s, j)
    ensures Ends(s, [RunClaim(loop, Some(j))] + ([GetClaim(loop, next)] + ([Read(loop)] + ([Read(loop)] + [Write(loop)]))),
                 Left(s, loop, j, if PersonThere(s, s.jobs[j].invitation) then SUPERSEDED else FAILED, None, 0))
  {
    var status := if PersonThere(s, s.jobs[j].invitation) then SUPERSEDED else FAILED;
    var read := Dispatching(s, loop, j, ReadingInvitation(j));
    var dropped := Dispatching(s, loop, j, Finishing(j, status, None));
    var t := Left(s, loop, j, status, None, 0);
    assert read.loops[loop := Finishing(j, status, None)] == dropped.loops;
    assert dropped.jobs[j := dropped.jobs[j].(status := status, token := None)] == t.jobs;
    assert dropped.loops[loop := Settled] == t.loops;
    One(dropped, Write(loop), t);
    Then(read, Read(loop), dropped, [Write(loop)], t);
    ClaimAndRead(s, loop, next, j, [Read(loop)] + [Write(loop)], t);
  }

  /** A mail that went out but could not be confirmed is queued again with its token, or given up after the third attempt. */
  lemma UnconfirmedMailIsQueuedAgain(s: State, loop: LoopId, j: Id, token: int, attempts: nat, written: bool) returns (t: State)
    requires loop in s.loops && s.loops[loop] == Confirming(j, token, attempts) && j in s.jobs
    ensures Ends(s, [FailWrite(loop, written)] + [Write(loop)], t)
    ensures j in t.jobs && t.jobs[j].mails == s.jobs[j].mails && t.jobs[j].attempts == s.jobs[j].attempts
    ensures if attempts < 3 then t.jobs[j].status == QUEUED && t.jobs[j].token == Some(token)
            else t.jobs[j].status == FAILED && t.jobs[j].token == None
  {
    var failed := Next(s, FailWrite(loop, written));
    t := Next(failed, Write(loop));
    One(failed, Write(loop), t);
    Then(s, FailWrite(loop, written), failed, [Write(loop)], t);
  }

  // ----- The pump -----

  /** With nothing to claim, a pump that was kicked once comes to rest, and one kicked meanwhile asks once more first. */
  lemma PumpRests(s: State, loop: LoopId, next: LoopId)
    requires s.loops == map[] && !s.pumping && loop != next
    ensures Ends(s, [Kick(loop)] + ([RunClaim(loop, None)] + [GetClaim(loop, next)]),
                 s.(claims := s.claims + 1, pumping := false, pumpAgain := false))
    ensures Ends(s, [Kick(loop)] + ([Kick(next)] + ([RunClaim(loop, None)] + [GetClaim(loop, next)])),
                 s.(loops := map[next := Claiming], claims := s.claims + 2, pumping := true, pumpAgain := false))
  {
    var begun := s.(loops := map[loop := Claiming], pumping := true, pumpAgain := false, claims := s.claims + 1);
    var told := begun.(pumpAgain := true);
    var rest := s.(claims := s.claims + 1, pumping := false, pumpAgain := false);
    var more := s.(loops := map[next := Claiming], claims := s.claims + 2, pumping := true, pumpAgain := false);
    assert loop !in s.loops && loop in begun.loops;
    ClaimsNothing(begun, loop, next, rest);
    ClaimsNothing(told, loop, next, more);
    Then(s, Kick(loop), begun, [RunClaim(loop, None)] + [GetClaim(loop, next)], rest);
    Then(begun, Kick(next), told, [RunClaim(loop, None)] + [GetClaim(loop, next)], more);
    Then(s, Kick(loop), begun, [Kick(next)] + ([RunClaim(loop, None)] + [GetClaim(loop, next)]), more);
  }

  lemma ClaimsNothing(s: State, loop: LoopId, next: LoopId, t: State)
    requires s.loops == map[loop := Claiming] && s.pumping && loop != next
    requires t == if s.pumpAgain then s.(loops := map[next := Claiming], pumpAgain := false, claims := s.claims + 1)
                  else s.(loops := map[], pumping := false)
    ensures Ends(s, [RunClaim(loop, None)] + [GetClaim(loop, next)], t)
  {
    var claimed := s.(loops := map[loop := Claimed(None)]);
    assert loop in s.loops && loop in claimed.loops && next !in claimed.loops;
    assert s.loops[loop := Claimed(None)] == claimed.loops && claimed.loops - {loop} == map[];
    assert Next(claimed, GetClaim(loop, next)).loops == t.loops;
    One(claimed, GetClaim(loop, next), t);
    Then(s, RunClaim(loop, None), claimed, [GetClaim(loop, next)], t);
  }

  /** A dispatch that crashes leaves the row as it is, or as written, and the pump claims again. */
  lemma CrashedDispatchGoesOn(s: State, loop: LoopId, j: Id)
    requires loop in s.loops && s.pumping
    ensures var again := s.(loops := s.loops[loop := Claiming], pumpAgain := false, claims := s.claims + 1);
      && (AtRead(s, loop) ==> Ends(s, [FailRead(loop)] + [Resume(loop)], again))
      && (s.loops[loop] == Finishing(j, SUPERSEDED, None) && j in s.jobs ==>
            && Ends(s, [FailWrite(loop, false)] + [Resume(loop)], again)
            && Ends(s, [FailWrite(loop, true)] + [Resume(loop)],
                    again.(jobs := s.jobs[j := s.jobs[j].(status := SUPERSEDED, token := None)])))
  {
    var again := s.(loops := s.loops[loop := Claiming], pumpAgain := false, claims := s.claims + 1);
    if AtRead(s, loop) {
      CrashThenResume(s, FailRead(loop), loop, again);
    }
    if s.loops[loop] == Finishing(j, SUPERSEDED, None) && j in s.jobs {
      CrashThenResume(s, FailWrite(loop, false), loop, again);
      CrashThenResume(s, FailWrite(loop, true), loop, again.(jobs := s.jobs[j := s.jobs[j].(status := SUPERSEDED, token := None)]));
    }
  }

  lemma CrashThenResume(s: State, l: Label, loop: LoopId, again: State)
    requires loop in s.loops && s.pumping && Steps(s, l, again.(loops := s.loops[loop := Settled], pumpAgain := s.pumpAgain, claims := s.claims))
    requires again.loops == s.loops[loop := Claiming] && again.pumping && !again.pumpAgain && again.claims == s.claims + 1
    ensures Ends(s, [l] + [Resume(loop)], again)
  {
    var settled := again.(loops := s.loops[loop := Settled], pumpAgain := s.pumpAgain, claims := s.claims);
    assert settled.loops[loop := Claiming] == again.loops;
    One(settled, Resume(loop), again);
    Then(s, l, settled, [Resume(loop)], again);
  }

  /** Whatever the loop awaits may fail, a write also after it took effect, and the process may die with the mail handed over. */
  lemma EveryAwaitMayFail(s: State, loop: LoopId, next: LoopId)
    requires loop in s.loops && next !in s.loops
    ensures var pc := s.loops[loop];
      && (pc.Claiming? || pc.Claimed? ==> Enabled(s, FailClaim(loop, next)))
      && (pc.Reading? || pc.ReadingInvitation? || pc.Rereading? ==> Enabled(s, FailRead(loop)))
      && (pc.Sending? && pc.job in s.jobs ==> Enabled(s, Mail(loop, false)))
      && ((pc.Confirming? || pc.Finishing?) && pc.job in s.jobs ==>
            Enabled(s, FailWrite(loop, true)) && Enabled(s, FailWrite(loop, false)))
      && (forall recovered :: Enabled(s, Restart(next, {}, recovered)))
      && (pc.Sending? ==> forall recovered :: Enabled(s, Restart(next, {pc.job}, recovered)))
  {
  }

  // ----- Nothing is stranded unless something fails -----

  /** The job a loop is dispatching. */
  function JobOf(pc: Pc): Option<Id> {
    match pc
    case Claimed(claim) => claim
    case Reading(j) => Some(j)
    case ReadingInvitation(j) => Some(j)
    case Rereading(j, _) => Some(j)
    case Sending(j, _, _) => Some(j)
    case Confirming(j, _, _) => Some(j)
    case Finishing(j, _, _) => Some(j)
    case _ => None
  }

  ghost predicate UnderDispatch(s: State, j: Id) {
    exists loop :: loop in s.loops && JobOf(s.loops[loop]) == Some(j)
  }

  /** A job in PROCESSING is being dispatched. */
  ghost predicate NothingStranded(s: State) {
    forall j :: j in s.jobs && s.jobs[j].status == PROCESSING ==> UnderDispatch(s, j)
  }

  /** A failed read or write, a lost claim or the end of the process; a claim query that fails strands nothing. */
  predicate Fails(s: State, l: Label) {
    || l.FailRead? || l.FailWrite? || l.Restart?
    || (l.FailClaim? && l.loop in s.loops && s.loops[l.loop].Claimed? && s.loops[l.loop].claim.Some?)
  }

  lemma RequestsStrandNothing(s: State, l: Label)
    requires Enabled(s, l) && NothingStranded(s) && (IsRequest(l) || l.Kick?) && SingleFlight(s)
    ensures NothingStranded(Next(s, l))
  {
    forall j | j in s.jobs && UnderDispatch(s, j)
      ensures UnderDispatch(Next(s, l), j)
    {
      var loop :| loop in s.loops && JobOf(s.loops[loop]) == Some(j);
      assert loop in Next(s, l).loops;
    }
  }

  lemma ClaimStrandsNothing(s: State, l: Label, j: Id)
    requires Enabled(s, l) && SingleFlight(s) && NothingStranded(s) && l.RunClaim?
    requires j in Next(s, l).jobs && Next(s, l).jobs[j].status == PROCESSING
    ensures UnderDispatch(Next(s, l), j)
  {
    assert !UnderDispatch(s, j);
    assert JobOf(Next(s, l).loops[l.loop]) == Some(j);
  }

  lemma DispatchStrandsNothing(s: State, l: Label, j: Id)
    requires Enabled(s, l) && Inv(s) && NothingStranded(s) && !Fails(s, l) && !IsRequest(l) && !l.Kick? && !l.RunClaim?
    requires j in Next(s, l).jobs && Next(s, l).jobs[j].status == PROCESSING
    ensures UnderDispatch(Next(s, l), j)
  {
    assert s.jobs[j].status == PROCESSING;
    var loop :| loop in s.loops && JobOf(s.loops[loop]) == Some(j);
    assert loop == l.loop;
    assert JobOk(s.jobs[j]) && PcOk(s.jobs, s.loops[loop]);
    assert loop in Next(s, l).loops && JobOf(Next(s, l).loops[loop]) == Some(j);
  }

  lemma StepStrandsNothing(s: State, l: Label)
    requires Enabled(s, l) && Inv(s) && NothingStranded(s) && !Fails(s, l)
    ensures NothingStranded(Next(s, l))
  {
    if IsRequest(l) || l.Kick? {
      RequestsStrandNothing(s, l);
    } else {
      forall j | j in Next(s, l).jobs && Next(s, l).jobs[j].status == PROCESSING
        ensures UnderDispatch(Next(s, l), j)
      {
        if l.RunClaim? {
          ClaimStrandsNothing(s, l, j);
        } else {
          DispatchStrandsNothing(s, l, j);
        }
      }
    }
  }

  ghost predicate FailsNowhere(s: State, steps: seq<Label>)
    requires Run(s, steps)
    decreases |steps|
  {
    steps == [] || (!Fails(s, steps[0]) && FailsNowhere(Next(s, steps[0]), steps[1..]))
  }

  /** Unless something fails, every job in PROCESSING is being dispatched, in every interleaving. */
  lemma {:induction false} NothingIsStrandedWithoutFailure(s: State, steps: seq<Label>)
    requires Inv(s) && NothingStranded(s) && Run(s, steps) && FailsNowhere(s, steps)
    ensures NothingStranded(After(s, steps))
    decreases |steps|
  {
    if steps != [] {
      StepKeepsInv(s, steps[0]);
      StepStrandsNothing(s, steps[0]);
      NothingIsStrandedWithoutFailure(Next(s, steps[0]), steps[1..]);
    }
  }

  // ----- What the requests do to invitations and jobs -----

  /** The jobs the invitation had can send nothing more, those of others are as before, and no job is lost. */
  ghost predicate OldJobsEnded(s: State, t: State, i: Id) {
    forall j :: j in s.jobs ==>
      && j in t.jobs
      && t.jobs[j] == if s.jobs[j].invitation == i && s.jobs[j].status != SENT then s.jobs[j].(status := SUPERSEDED, token := None)
                      else s.jobs[j]
  }

  /** The invitation asks for this person under the token, and one new job is queued with it. */
  ghost predicate Asked(s: State, t: State, i: Id, user: Id, job: Id, token: int) {
    && t.invitations == s.invitations[i := Invitation(user, token, PENDING, false)]
    && t.jobs.Keys == s.jobs.Keys + {job} && t.jobs[job] == Job(i, Some(token), token, QUEUED, 0, 0, 0)
    && OldJobsEnded(s, t, i) && t.loops == s.loops
  }

  lemma InviteMeans(s: State, user: Id, i: Id, job: Id, token: int)
    requires Inv(s) && Enabled(s, Invite(user, i, job, token))
    ensures var t := Next(s, Invite(user, i, job, token));
      Asked(s, t, i, user, job, token) && t.users == s.users[user := User(INVITED, false)]
  {
    assert forall j :: j in s.jobs && s.jobs[j].status == SUPERSEDED ==> JobOk(s.jobs[j]);
  }

  lemma ResendMeans(s: State, i: Id, job: Id, token: int)
    requires Inv(s) && Enabled(s, Resend(i, job, token))
    ensures var t := Next(s, Resend(i, job, token));
      Asked(s, t, i, s.invitations[i].user, job, token) && t.users == s.users
  {
    assert forall j :: j in s.jobs && s.jobs[j].status == SUPERSEDED ==> JobOk(s.jobs[j]);
  }

  lemma CancelMeans(s: State, i: Id)
    requires Inv(s) && Enabled(s, Cancel(i))
    ensures var t := Next(s, Cancel(i));
      && t.invitations == s.invitations[i := s.invitations[i].(status := InvitationStatus.CANCELLED)]
      && t.users == s.users && t.loops == s.loops && t.jobs.Keys == s.jobs.Keys && OldJobsEnded(s, t, i)
  {
    assert forall j :: j in s.jobs && s.jobs[j].status == SUPERSEDED ==> JobOk(s.jobs[j]);
  }

  lemma ActivateMeans(s: State, i: Id)
    requires Enabled(s, Activate(i))
    ensures var t, user := Next(s, Activate(i)), s.invitations[i].user;
      && t.invitations == s.invitations[i := Invitation(user, s.invitations[i].hash, ACCEPTED, true)]
      && t.users == s.users[user := User(ACTIVE, false)] && t.jobs == s.jobs && t.loops == s.loops
  {
  }

  /** A restart queues again exactly the jobs it recovers, with their tokens. */
  lemma RestartMeans(s: State, next: LoopId, mailed: set<Id>, recovered: set<Id>, j: Id)
    requires Enabled(s, Restart(next, mailed, recovered)) && j in s.jobs
    ensures var t := Next(s, Restart(next, mailed, recovered));
      && t.loops == map[next := Claiming] && t.pumping && j in t.jobs
      && (t.jobs[j].status == QUEUED <==> s.jobs[j].status == QUEUED || (j in recovered && s.jobs[j].status == PROCESSING))
      && (t.jobs[j].status != QUEUED ==> t.jobs[j].status == s.jobs[j].status)
      && t.jobs[j].token == s.jobs[j].token && t.jobs[j].attempts == s.jobs[j].attempts
      && t.jobs[j].mails == (s.jobs[j].mails + if j in mailed then 1 else 0)
      && t.jobs[j].recoveries == (s.jobs[j].recoveries + if j in recovered && s.jobs[j].status == PROCESSING then 1 else 0)
  {
  }

  // ----- From the request to the mail -----

  /** The request makes a new invitation, or renews one of a person who may still be invited. */
  predicate Asks(s: State, l: Label) {
    || l.Invite?
    || (l.Resend? && l.invitation in s.invitations && s.invitations[l.invitation].user in s.users
        && s.users[s.invitations[l.invitation].user] == User(INVITED, false))
  }

  lemma AskedJobIsInOrder(s: State, l: Label)
    requires Inv(s) && Enabled(s, l) && Asks(s, l)
    ensures var t := Next(s, l);
      && t.loops == s.loops && t.pumping == s.pumping && JobKnown(t, l.job) && InOrder(t, l.job)
      && t.jobs[l.job] == Job(l.invitation, Some(l.token), l.token, QUEUED, 0, 0, 0)
  {
    if l.Invite? {
      InviteMeans(s, l.user, l.invitation, l.job, l.token);
    } else {
      ResendMeans(s, l.invitation, l.job, l.token);
    }
  }

  lemma KickStarts(s: State, loop: LoopId, next: LoopId, j: Id)
    requires Inv(s) && s.loops == map[] && loop != next && JobKnown(s, j) && s.jobs[j].status == QUEUED
    ensures Steps(s, Kick(loop), Begin(s, loop)) && Waiting(Begin(s, loop), loop, next, j)
  {
    assert loop !in s.loops;
    StepKeepsInv(s, Kick(loop));
  }

  /** An invitation made or renewed while the pump is idle is mailed once by the next pass of the pump. */
  lemma InvitationIsMailed(s: State, l: Label, loop: LoopId, next: LoopId) returns (t: State)
    requires Inv(s) && s.loops == map[] && loop != next && Enabled(s, l) && Asks(s, l)
    ensures Ends(s, [l] + ([Kick(loop)] + FullDispatch(loop, next, l.job, true)), t)
    ensures l.job in t.jobs && t.jobs[l.job] == Job(l.invitation, None, l.token, SENT, 1, 1, 0)
  {
    var asked := Next(s, l);
    AskedJobIsInOrder(s, l);
    StepKeepsInv(s, l);
    KickStarts(asked, loop, next, l.job);
    JobInOrderIsMailed(Begin(asked, loop), loop, next, l.job, true);
    t := Left(Begin(asked, loop), loop, l.job, SENT, None, 1);
    Then(asked, Kick(loop), Begin(asked, loop), FullDispatch(loop, next, l.job, true), t);
    Then(s, l, asked, [Kick(loop)] + FullDispatch(loop, next, l.job, true), t);
  }
}
