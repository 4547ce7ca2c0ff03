/** Putting runs of the scheduling protocol together. */
module SchedulingRuns {
  import opened Timetable
  import opened SchedulingProtocol

  ghost predicate Steps(s: State, l: Label, s': State) {
    Enabled(s, l) && Next(s, l) == s'
  }

  /** The run `labels`, starting from `s`, ends in `s'`. */
  ghost predicate Ends(s: State, labels: seq<Label>, s': State) {
    Run(s, labels) && After(s, labels) == s'
  }

  lemma Then(s: State, l: Label, mid: State, labels: seq<Label>, s': State)
    requires Steps(s, l, mid) && Ends(mid, labels, s')
    ensures Ends(s, [l] + labels, s')
  {
  }

  lemma {:induction false} Concatenated(s: State, front: seq<Label>, mid: State, back: seq<Label>, s': State)
    requires Ends(s, front, mid) && Ends(mid, back, s')
    ensures Ends(s, front + back, s')
    decreases |front|
  {
    if front == [] {
      assert front + back == back;
    } else {
      Concatenated(Next(s, front[0]), front[1..], mid, back, s');
      assert (front + back)[1..] == front[1..] + back;
      assert (front + back)[0] == front[0];
    }
  }

  /** Some run leads from one state to the other. */
  ghost predicate Leads(s: State, s': State) {
    exists labels :: Ends(s, labels, s')
  }

  lemma LeadsNowhere(s: State)
    ensures Leads(s, s)
  {
    assert Ends(s, [], s);
  }

  lemma LeadsOn(s: State, l: Label, mid: State, s': State)
    requires Steps(s, l, mid) && Leads(mid, s')
    ensures Leads(s, s')
  {
    var labels :| Ends(mid, labels, s');
    Then(s, l, mid, labels, s');
  }

  lemma LeadsThrough(s: State, mid: State, s': State)
    requires Leads(s, mid) && Leads(mid, s')
    ensures Leads(s, s')
  {
    var front :| Ends(s, front, mid);
    var back :| Ends(mid, back, s');
    Concatenated(s, front, mid, back, s');
  }

  lemma Member<T>(ts: set<T>) returns (t: T)
    requires ts != {}
    ensures t in ts
  {
    t :| t in ts;
  }

  /** Only the transactions of `keep` are left. */
  ghost function Only(s: State, keep: set<Id>): State {
    s.(txs := map t | t in s.txs && t in keep :: s.txs[t])
  }

  lemma AbortLeadsOn(s: State, t: Id, s': State)
    requires t in s.txs && Leads(Ended(s, t), s')
    ensures Leads(s, s')
  {
    assert Steps(s, Abort(t), Ended(s, t));
    LeadsOn(s, Abort(t), Ended(s, t), s');
  }

  lemma OnlyAfterAbort(s: State, keep: set<Id>, t: Id)
    requires t in s.txs && t !in keep
    ensures Only(Ended(s, t), keep) == Only(s, keep)
    ensures Ended(s, t).txs.Keys - keep == s.txs.Keys - keep - {t}
  {
    assert Only(Ended(s, t), keep).txs == Only(s, keep).txs;
  }

  lemma OnlyTheseLeft(s: State, keep: set<Id>)
    requires s.txs.Keys - keep == {}
    ensures Only(s, keep) == s
  {
    assert forall t :: t in s.txs.Keys && t !in keep ==> t in s.txs.Keys - keep;
    assert Only(s, keep).txs == s.txs;
  }

  /** Any transaction may end at any time without writing. */
  lemma {:induction false} OthersMayAbort(s: State, keep: set<Id>)
    ensures Leads(s, Only(s, keep))
    decreases |s.txs.Keys - keep|
  {
    if s.txs.Keys - keep == {} {
      OnlyTheseLeft(s, keep);
      LeadsNowhere(s);
    } else {
      var t := Member(s.txs.Keys - keep);
      OnlyAfterAbort(s, keep, t);
      OthersMayAbort(Ended(s, t), keep);
      AbortLeadsOn(s, t, Only(s, keep));
    }
  }
}
