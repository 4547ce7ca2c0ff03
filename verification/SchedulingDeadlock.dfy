/** Transactions never wait for each other in a circle: locks are taken in layers, and keys in order. */
module SchedulingDeadlock {
  import opened Options
  import opened Timetable
  import opened SchedulingProtocol
  import opened SchedulingInvariant
  import opened SchedulingRuns
  import opened SchedulingSafety

  /** The locks the next statement of a transaction asks for. */
  function Requests(s: State, tx: Tx): set<Lock> {
    match tx.pc
    case Begun =>
      if NamesGroup(tx.op) then
        (if TargetGroup(s, tx.op).Some? then {GroupLock(TargetGroup(s, tx.op).value)} else {})
      else if LessonOf(tx.op).Some? then {LessonLock(LessonOf(tx.op).value)} else {}
    case GroupHeld => if LessonOf(tx.op).Some? then {LessonLock(LessonOf(tx.op).value)} else {}
    case Locking(todo, _) => if todo == [] then {} else {KeyLock(todo[0])}
    case Cancelling(_, _, targets) => set r | r in targets && LessonLock(r) !in tx.held :: LessonLock(r)
    case _ => {}
  }

  ghost predicate Blocks(s: State, t: Id, u: Id, lock: Lock) {
    && t in s.txs && u in s.txs && t != u
    && lock in Requests(s, s.txs[t]) && lock in s.txs[u].held && !Compatible(lock, s.txs[t], s.txs[u])
  }

  /** `t` asks for a lock that `u` holds. */
  ghost predicate WaitsFor(s: State, t: Id, u: Id) {
    exists lock :: Blocks(s, t, u, lock)
  }

  /** Group rows, then lesson rows, then advisory keys in their own order. */
  predicate Before(a: Lock, b: Lock) {
    match (a, b)
    case (GroupLock(_), GroupLock(_)) => false
    case (GroupLock(_), _) => true
    case (LessonLock(_), KeyLock(_)) => true
    case (KeyLock(k), KeyLock(l)) => KeyLess(k, l)
    case _ => false
  }

  /** A closing waits for no lesson row: whoever held one would hold the group FOR SHARE, and it is locked FOR UPDATE. */
  lemma ClosingNeverWaitsForLessons(s: State, t: Id, u: Id)
    requires Inv(false, s) && t in s.txs && s.txs[t].pc.Cancelling?
    ensures !WaitsFor(s, t, u)
  {
  }

  /** Whatever a transaction asks for comes after everything it holds. */
  lemma RequestsComeLater(s: State, t: Id, held: Lock, wanted: Lock)
    requires Inv(false, s) && t in s.txs && !s.txs[t].pc.Cancelling?
    requires held in s.txs[t].held && wanted in Requests(s, s.txs[t])
    ensures Before(held, wanted)
  {
  }

  ghost predicate Waits(s: State, t: Id) {
    exists u :: WaitsFor(s, t, u)
  }

  // ----- Waiting is what keeps a lock statement from running -----

  lemma BlockedIffWaitsForOne(s: State, t: Id, lock: Lock)
    requires t in s.txs && Requests(s, s.txs[t]) == {lock}
    ensures Available(s, t, lock) <==> !Waits(s, t)
  {
    if u :| u in s.txs && u != t && lock in s.txs[u].held && !Compatible(lock, s.txs[t], s.txs[u]) {
      assert Blocks(s, t, u, lock);
      assert WaitsFor(s, t, u);
    }
  }

  /** The next key can be locked exactly when the transaction waits for nobody. */
  lemma KeyBlockedIffWaits(s: State, t: Id)
    requires t in s.txs && s.txs[t].pc.Locking? && s.txs[t].pc.todo != []
    ensures Enabled(s, LockNextKey(t)) <==> !Waits(s, t)
  {
    BlockedIffWaitsForOne(s, t, KeyLock(s.txs[t].pc.todo[0]));
  }

  /** So can the group row, where there is one of the school to lock. */
  lemma GroupBlockedIffWaits(s: State, t: Id, g: Id)
    requires t in s.txs && s.txs[t].pc.Begun? && NamesGroup(s.txs[t].op) && TargetGroup(s, s.txs[t].op) == Some(g)
    requires g in s.db.groups && s.db.groups[g].org == s.txs[t].org
    ensures Enabled(s, LockGroup(t)) <==> !Waits(s, t)
  {
    BlockedIffWaitsForOne(s, t, GroupLock(g));
  }

  /** And the lesson row. */
  lemma LessonBlockedIffWaits(s: State, t: Id, r: Ref)
    requires t in s.txs && LessonOf(s.txs[t].op) == Some(r)
    requires if NamesGroup(s.txs[t].op) then s.txs[t].pc.GroupHeld? else s.txs[t].pc.Begun?
    requires r in s.db.lessons && KindMatches(r, s.db.lessons[r]) && s.db.lessons[r].org == s.txs[t].org
    ensures Enabled(s, LockLesson(t)) <==> !Waits(s, t)
  {
    BlockedIffWaitsForOne(s, t, LessonLock(r));
  }

  /** A closing waits exactly when it cannot lock one of the lessons it picked and has not locked yet. */
  lemma ClosingBlockedIffWaits(s: State, t: Id)
    requires t in s.txs && s.txs[t].pc.Cancelling?
    ensures (forall r :: r in s.txs[t].pc.targets && LessonLock(r) !in s.txs[t].held ==> Enabled(s, LockPicked(t, r))) <==> !Waits(s, t)
  {
    if r :| r in s.txs[t].pc.targets && LessonLock(r) !in s.txs[t].held && !Enabled(s, LockPicked(t, r)) {
      var u :| u in s.txs && u != t && LessonLock(r) in s.txs[u].held && !Compatible(LessonLock(r), s.txs[t], s.txs[u]);
      assert Blocks(s, t, u, LessonLock(r));
      assert WaitsFor(s, t, u);
    }
    if Waits(s, t) {
      var u :| WaitsFor(s, t, u);
      var lock :| Blocks(s, t, u, lock);
      assert lock.LessonLock? && !Enabled(s, LockPicked(t, lock.lesson));
    }
  }

  ghost function Wanted(s: State, t: Id): Lock
    requires Waits(s, t)
    ensures exists u :: Blocks(s, t, u, Wanted(s, t))
  {
    var u :| WaitsFor(s, t, u);
    var lock :| Blocks(s, t, u, lock);
    lock
  }

  lemma WaiterIsNotClosing(s: State, t: Id, u: Id)
    requires Reachable(s) && WaitsFor(s, t, u)
    ensures !s.txs[t].pc.Cancelling?
  {
    ReachableStatesAreSound(s);
    if s.txs[t].pc.Cancelling? {
      ClosingNeverWaitsForLessons(s, t, u);
    }
  }

  lemma WaitsForOneLock(s: State, t: Id, u: Id, lock: Lock)
    requires Reachable(s) && Blocks(s, t, u, lock)
    ensures !s.txs[t].pc.Cancelling? && Waits(s, t) && lock == Wanted(s, t)
  {
    assert WaitsFor(s, t, u);
    WaiterIsNotClosing(s, t, u);
  }

  lemma HolderAsksForMore(s: State, t: Id, held: Lock, wanted: Lock)
    requires Reachable(s) && t in s.txs && !s.txs[t].pc.Cancelling?
    requires held in s.txs[t].held && wanted in Requests(s, s.txs[t])
    ensures Before(held, wanted)
  {
    ReachableStatesAreSound(s);
    RequestsComeLater(s, t, held, wanted);
  }

  lemma WaitingAsksForMore(s: State, t: Id, u: Id)
    requires Reachable(s) && WaitsFor(s, t, u) && Waits(s, u)
    ensures Waits(s, t) && Before(Wanted(s, t), Wanted(s, u))
  {
    var lock :| Blocks(s, t, u, lock);
    WaitsForOneLock(s, t, u, lock);
    var v :| Blocks(s, u, v, Wanted(s, u));
    WaitsForOneLock(s, u, v, Wanted(s, u));
    HolderAsksForMore(s, u, lock, Wanted(s, u));
  }

  ghost predicate WaitPath(s: State, path: seq<Id>) {
    |path| >= 2 && forall i :: 0 <= i < |path| - 1 ==> WaitsFor(s, path[i], path[i + 1])
  }

  lemma {:induction false} PathAsksForMore(s: State, path: seq<Id>)
    requires Reachable(s) && WaitPath(s, path) && Waits(s, path[|path| - 1])
    ensures Waits(s, path[0]) && Before(Wanted(s, path[0]), Wanted(s, path[|path| - 1]))
  {
    assert WaitsFor(s, path[0], path[1]);
    if |path| > 2 {
      PathAsksForMore(s, path[1..]);
    }
    WaitingAsksForMore(s, path[0], path[1]);
  }

  /** The waits-for graph of a reachable state has no cycle. */
  lemma NoWaitCycle(s: State, path: seq<Id>)
    requires Reachable(s) && WaitPath(s, path)
    ensures path[0] != path[|path| - 1]
  {
    if path[0] == path[|path| - 1] {
      assert WaitsFor(s, path[0], path[1]);
      PathAsksForMore(s, path);
      assert false;
    }
  }

  lemma {:induction false} SomeoneAsksForMost(s: State, ts: set<Id>) returns (last: Id)
    requires ts != {} && forall t :: t in ts ==> Waits(s, t)
    ensures last in ts && forall t :: t in ts ==> !Before(Wanted(s, last), Wanted(s, t))
    decreases ts
  {
    var t := Member(ts);
    if ts == {t} {
      last := t;
    } else {
      var rest := SomeoneAsksForMost(s, ts - {t});
      last := if Before(Wanted(s, rest), Wanted(s, t)) then t else rest;
    }
  }

  /** In a reachable state with transactions under way, at least one of them is waiting for nobody. */
  lemma SomeoneCanProceed(s: State) returns (idle: Id)
    requires Reachable(s) && s.txs.Keys != {}
    ensures idle in s.txs && !Waits(s, idle)
  {
    var waiting := set t | t in s.txs.Keys && Waits(s, t);
    if waiting == {} {
      idle := Member(s.txs.Keys);
      assert Waits(s, idle) ==> idle in waiting;
    } else {
      var last := SomeoneAsksForMost(s, waiting);
      idle :| Blocks(s, last, idle, Wanted(s, last));
      assert WaitsFor(s, last, idle);
      assert Waits(s, idle) ==> idle in waiting;
      if Waits(s, idle) {
        WaitingAsksForMore(s, last, idle);
        assert false;
      }
    }
  }
}
