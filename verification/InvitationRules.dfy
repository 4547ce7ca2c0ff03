/** What invitations promise when each request is atomic, and exactly when a late resend breaks it. */
module InvitationRules {
  import opened Accounts
  import opened EmailQueue

  /** resend's check, evaluated together with its write. */
  predicate Resendable(s: State, i: Id) {
    && i in s.invitations && s.invitations[i].status == PENDING && !s.invitations[i].accepted
    && s.invitations[i].user in s.users && s.users[s.invitations[i].user] == User(INVITED, false)
  }

  predicate Atomic(s: State, l: Label) {
    l.Resend? ==> Resendable(s, l.invitation)
  }

  ghost predicate OnePending(s: State) {
    forall a, b :: (a in s.invitations && b in s.invitations && s.invitations[a].user == s.invitations[b].user
                    && s.invitations[a].status == PENDING && s.invitations[b].status == PENDING) ==> a == b
  }

  ghost predicate AcceptedIffDated(s: State) {
    forall i :: i in s.invitations ==> (s.invitations[i].status == ACCEPTED <==> s.invitations[i].accepted)
  }

  /** An accepted invitation's person has left INVITED, and nobody accepted twice. */
  ghost predicate AcceptedOnce(s: State) {
    && (forall i :: i in s.invitations ==> s.invitations[i].user in s.users)
    && (forall i :: i in s.invitations && s.invitations[i].accepted ==> s.users[s.invitations[i].user].status != INVITED)
    && (forall a, b :: (a in s.invitations && b in s.invitations && s.invitations[a].user == s.invitations[b].user
                        && s.invitations[a].accepted && s.invitations[b].accepted) ==> a == b)
  }

  ghost predicate Sound(s: State) {
    OnePending(s) && AcceptedIffDated(s) && AcceptedOnce(s)
  }

  predicate TouchesInvitations(l: Label) {
    l.Invite? || l.Resend? || l.Cancel? || l.Activate? || l.ChangeUser?
  }

  lemma QueueStepsLeaveInvitations(s: State, l: Label)
    requires Enabled(s, l) && !TouchesInvitations(l)
    ensures Next(s, l).invitations == s.invitations && Next(s, l).users == s.users
  {
  }

  lemma RequestKeepsOnePending(s: State, l: Label)
    requires Enabled(s, l) && Atomic(s, l) && Sound(s) && TouchesInvitations(l)
    ensures OnePending(Next(s, l)) && AcceptedIffDated(Next(s, l))
  {
  }

  lemma RequestKeepsAcceptedOnce(s: State, l: Label)
    requires Enabled(s, l) && Sound(s) && TouchesInvitations(l)
    ensures AcceptedOnce(Next(s, l))
  {
  }

  lemma StepKeepsSound(s: State, l: Label)
    requires Enabled(s, l) && Atomic(s, l) && Sound(s)
    ensures Sound(Next(s, l))
  {
    if TouchesInvitations(l) {
      RequestKeepsOnePending(s, l);
      RequestKeepsAcceptedOnce(s, l);
    } else {
      QueueStepsLeaveInvitations(s, l);
    }
  }

  ghost predicate AtomicRun(s: State, steps: seq<Label>)
    decreases |steps|
  {
    steps == [] || (Enabled(s, steps[0]) && Atomic(s, steps[0]) && AtomicRun(Next(s, steps[0]), steps[1..]))
  }

  /** Over every atomic run: one pending invitation per person, and ACCEPTED exactly with a date. */
  lemma {:induction false} AtomicRunKeepsSound(s: State, steps: seq<Label>)
    requires Sound(s) && AtomicRun(s, steps)
    ensures Run(s, steps) && Sound(After(s, steps))
    decreases |steps|
  {
    if steps != [] {
      StepKeepsSound(s, steps[0]);
      AtomicRunKeepsSound(Next(s, steps[0]), steps[1..]);
    }
  }

  /** Nobody who has accepted is pending again. */
  ghost predicate AcceptedStay(s: State, t: State) {
    forall i :: i in s.invitations && s.invitations[i].status == ACCEPTED ==>
      i in t.invitations && t.invitations[i] == s.invitations[i]
  }

  /** Every step but a late resend leaves accepted invitations alone. */
  lemma AtomicStepsKeepAccepted(s: State, l: Label)
    requires Enabled(s, l) && Atomic(s, l) && AcceptedIffDated(s)
    ensures AcceptedStay(s, Next(s, l))
  {
    if !TouchesInvitations(l) {
      QueueStepsLeaveInvitations(s, l);
    }
  }

  /**
   * A resend whose check is out of date writes all the same. One pending invitation a person remains exactly when
   * nothing else of that person is pending, and accepted invitations stay exactly when this one was not accepted.
   */
  lemma LateResendKeepsRulesIff(s: State, i: Id, job: Id, token: int)
    requires Sound(s) && Enabled(s, Resend(i, job, token))
    ensures OnePending(Next(s, Resend(i, job, token))) <==>
            forall o :: o in s.invitations && o != i && s.invitations[o].user == s.invitations[i].user
              ==> s.invitations[o].status != PENDING
    ensures AcceptedStay(s, Next(s, Resend(i, job, token))) <==> s.invitations[i].status != ACCEPTED
    ensures AcceptedIffDated(Next(s, Resend(i, job, token))) && AcceptedOnce(Next(s, Resend(i, job, token)))
  {
    var t := Next(s, Resend(i, job, token));
    if o :| o in s.invitations && o != i && s.invitations[o].user == s.invitations[i].user
            && s.invitations[o].status == PENDING {
      assert t.invitations[o].status == PENDING && t.invitations[i].status == PENDING;
    }
    assert t.invitations[i].status == PENDING;
  }

  // ----- Who may be invited, cancelled and activated -----

  lemma {:induction false} SomeFreshInvitation(taken: set<Id>) returns (n: Id)
    ensures forall i :: i in taken ==> i < n
    decreases taken
  {
    n := 0;
    if i :| i in taken {
      n := SomeFreshInvitation(taken - {i});
      n := if i < n then n else i + 1;
      assert forall o :: o in taken ==> o == i || o in taken - {i};
    }
  }

  /** A person may be invited exactly when they are unknown so far, or have not activated and are not deleted. */
  lemma InvitePossibleIff(s: State, user: Id, job: Id, token: int)
    requires token !in s.used && job !in s.jobs
    ensures (exists i :: Enabled(s, Invite(user, i, job, token))) <==>
            (user in s.users ==> s.users[user].status == INVITED && !s.users[user].deleted)
  {
    if user in s.users ==> s.users[user].status == INVITED && !s.users[user].deleted {
      var unused := SomeFreshInvitation(s.invitations.Keys);
      assert unused !in s.invitations.Keys;
      if i :| Pending(s, i, user) {
        assert Enabled(s, Invite(user, i, job, token));
      } else {
        assert Enabled(s, Invite(user, unused, job, token));
      }
    }
  }

  /** An invitation may be cancelled exactly while it is PENDING, and accepted if its person still waits for it as well. */
  lemma PendingMayEndIff(s: State, i: Id)
    requires Sound(s)
    ensures Enabled(s, Cancel(i)) <==> i in s.invitations && s.invitations[i].status == PENDING
    ensures Enabled(s, Activate(i)) <==>
            i in s.invitations && s.invitations[i].status == PENDING
            && s.users[s.invitations[i].user].status == INVITED && !s.users[s.invitations[i].user].deleted
  {
  }

  /** A deleted account stays deleted, and nobody who has left INVITED comes back to it. */
  ghost predicate Departed(s: State, t: State, user: Id) {
    && user in s.users && user in t.users
    && (s.users[user].deleted ==> t.users[user].deleted)
    && (s.users[user].status != INVITED ==> t.users[user].status != INVITED)
  }

  lemma StepKeepsDeparted(s: State, l: Label, user: Id)
    requires Enabled(s, l) && user in s.users
    ensures Departed(s, Next(s, l), user)
  {
    if !TouchesInvitations(l) {
      QueueStepsLeaveInvitations(s, l);
    }
  }

  lemma {:induction false} NobodyComesBack(s: State, steps: seq<Label>, user: Id)
    requires Run(s, steps) && user in s.users
    ensures Departed(s, After(s, steps), user)
    decreases |steps|
  {
    if steps != [] {
      StepKeepsDeparted(s, steps[0], user);
      NobodyComesBack(Next(s, steps[0]), steps[1..], user);
    }
  }

  function Empty(): State {
    State(map[], false, false, 0, map[], map[], map[], {})
  }

  lemma RunFirst(s: State, l: Label, steps: seq<Label>)
    requires Enabled(s, l) && Run(Next(s, l), steps)
    ensures Run(s, [l] + steps) && After(s, [l] + steps) == After(Next(s, l), steps)
  {
  }

  lemma CancelThenInvite(s: State) returns (t: State)
    requires s.invitations == map[10 := Invitation(1, 7, PENDING, false)] && s.users == map[1 := User(INVITED, false)]
    requires s.jobs.Keys == {100} && s.used == {7}
    ensures Run(s, [Cancel(10), Invite(1, 11, 101, 8)]) && After(s, [Cancel(10), Invite(1, 11, 101, 8)]) == t
    ensures t.invitations == map[10 := Invitation(1, 7, CANCELLED, false), 11 := Invitation(1, 8, PENDING, false)]
    ensures t.used == {7, 8} && t.jobs.Keys == {100, 101}
  {
    var s2 := Next(s, Cancel(10));
    assert s2.jobs.Keys == {100};
    t := Next(s2, Invite(1, 11, 101, 8));
    RunFirst(s2, Invite(1, 11, 101, 8), []);
    RunFirst(s, Cancel(10), [Invite(1, 11, 101, 8)]);
  }

  /** Resend checks, then the invitation is cancelled and the person invited again before it writes. */
  lemma LateResendLeavesTwoPending() returns (s: State)
    ensures var before := [Invite(1, 10, 100, 7), Cancel(10), Invite(1, 11, 101, 8)];
      Run(Empty(), before) && After(Empty(), before) == s
    ensures Enabled(s, Resend(10, 102, 9)) && !OnePending(Next(s, Resend(10, 102, 9)))
  {
    var s1 := Next(Empty(), Invite(1, 10, 100, 7));
    s := CancelThenInvite(s1);
    RunFirst(Empty(), Invite(1, 10, 100, 7), [Cancel(10), Invite(1, 11, 101, 8)]);
    assert [Invite(1, 10, 100, 7)] + [Cancel(10), Invite(1, 11, 101, 8)]
        == [Invite(1, 10, 100, 7), Cancel(10), Invite(1, 11, 101, 8)];
    var t := Next(s, Resend(10, 102, 9));
    assert t.invitations[10].status == PENDING && t.invitations[11].status == PENDING;
  }
}
