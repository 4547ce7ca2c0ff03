/** Waiting for advisory locks that are hashes of the keys: a transaction may wait for one who locked another key. */
module SchedulingCollisions {
  import opened Timetable
  import opened ScheduleLockHashes
  import opened SchedulingProtocol
  import opened SchedulingSafety
  import opened SchedulingDeadlock

  /** `t` asks for `wanted` while `u` holds `held`: the same lock, or a key of the same hash that `t` has not locked itself. */
  ghost predicate Meets(hash: Key -> int, s: State, t: Id, u: Id, wanted: Lock, held: Lock) {
    && t in s.txs && u in s.txs && t != u && wanted in Requests(s, s.txs[t]) && held in s.txs[u].held
    && match wanted
       case KeyLock(k) =>
         && held.KeyLock? && hash(held.key) == hash(k)
         && forall own :: own in s.txs[t].held && own.KeyLock? ==> hash(own.key) != hash(k)
       case _ => held == wanted && !Compatible(wanted, s.txs[t], s.txs[u])
  }

  /** The keys somebody holds or asks for. */
  ghost predicate LiveKeys(s: State, live: set<Key>) {
    forall t, k :: t in s.txs && (KeyLock(k) in s.txs[t].held || KeyLock(k) in Requests(s, s.txs[t])) ==> k in live
  }

  ghost predicate Comes(hash: Key -> int, live: set<Key>, a: Lock, b: Lock) {
    && Before(a, b)
    && (a.KeyLock? ==> a.key in live)
    && (b.KeyLock? ==> b.key in live)
    && (a.KeyLock? && b.KeyLock? ==> hash(a.key) != hash(b.key))
  }

  lemma ComesIsTransitive(hash: Key -> int, live: set<Key>, a: Lock, b: Lock, c: Lock)
    requires !Straddled(hash, live) && Comes(hash, live, a, b) && Comes(hash, live, b, c)
    ensures Comes(hash, live, a, c)
  {
    if a.KeyLock? {
      assert !Straddles(hash, live, a.key, b.key, c.key);
    }
  }

  lemma WaiterAsksForMore(hash: Key -> int, s: State, u: Id, v: Id, held: Lock, next: Lock, kept: Lock)
    requires Reachable(s) && Meets(hash, s, u, v, next, kept) && held in s.txs[u].held
    ensures Before(held, next)
  {
    if s.txs[u].pc.Cancelling? {
      assert next == kept && Blocks(s, u, v, next);
      assert WaitsFor(s, u, v);
      WaiterIsNotClosing(s, u, v);
    }
    HolderAsksForMore(s, u, held, next);
  }

  lemma MeetingIsLive(hash: Key -> int, live: set<Key>, s: State, t: Id, u: Id, wanted: Lock, held: Lock)
    requires LiveKeys(s, live) && Meets(hash, s, t, u, wanted, held)
    ensures wanted.KeyLock? ==> wanted.key in live && held.KeyLock? && held.key in live && hash(held.key) == hash(wanted.key)
    ensures !wanted.KeyLock? ==> held == wanted
    ensures wanted.KeyLock? ==> forall own :: own in s.txs[t].held && own.KeyLock? ==> hash(own.key) != hash(wanted.key)
  {
    if wanted.KeyLock? {
      assert KeyLock(wanted.key) == wanted && KeyLock(held.key) == held;
    }
  }

  lemma LaterThroughCollision(hash: Key -> int, live: set<Key>, wanted: Lock, held: Lock, next: Lock)
    requires !Straddled(hash, live) && Before(held, next) && (next.KeyLock? ==> next.key in live)
    requires if wanted.KeyLock? then held.KeyLock? && hash(held.key) == hash(wanted.key) else held == wanted
    requires wanted.KeyLock? ==> wanted.key in live && held.key in live
    requires wanted.KeyLock? && next.KeyLock? ==> hash(next.key) != hash(held.key)
    ensures Comes(hash, live, wanted, next)
  {
    if wanted.KeyLock? {
      assert !Straddles(hash, live, held.key, next.key, wanted.key);
    }
  }

  /** Whoever is waited for asks for a lock that comes later than the one it is waited for with. */
  lemma HolderWantsLater(hash: Key -> int, live: set<Key>, s: State, t: Id, u: Id, v: Id, wanted: Lock, held: Lock,
                         next: Lock, kept: Lock)
    requires Reachable(s) && LiveKeys(s, live) && !Straddled(hash, live)
    requires Meets(hash, s, t, u, wanted, held) && Meets(hash, s, u, v, next, kept)
    ensures Comes(hash, live, wanted, next)
  {
    WaiterAsksForMore(hash, s, u, v, held, next, kept);
    MeetingIsLive(hash, live, s, t, u, wanted, held);
    MeetingIsLive(hash, live, s, u, v, next, kept);
    LaterThroughCollision(hash, live, wanted, held, next);
  }

  ghost predicate MeetingPath(hash: Key -> int, s: State, path: seq<Id>, wanted: seq<Lock>, held: seq<Lock>) {
    && |wanted| == |held| == |path| - 1 >= 1
    && forall i :: 0 <= i < |wanted| ==> Meets(hash, s, path[i], path[i + 1], wanted[i], held[i])
  }

  lemma {:induction false} PathComesLater(hash: Key -> int, live: set<Key>, s: State, path: seq<Id>, wanted: seq<Lock>,
                                          held: seq<Lock>, n: nat)
    requires Reachable(s) && LiveKeys(s, live) && !Straddled(hash, live)
    requires MeetingPath(hash, s, path, wanted, held) && 1 <= n < |wanted|
    ensures Comes(hash, live, wanted[0], wanted[n])
  {
    HolderWantsLater(hash, live, s, path[n - 1], path[n], path[n + 1], wanted[n - 1], held[n - 1], wanted[n], held[n]);
    if n > 1 {
      PathComesLater(hash, live, s, path, wanted, held, n - 1);
      ComesIsTransitive(hash, live, wanted[0], wanted[n - 1], wanted[n]);
    }
  }

  /** Row locks and hashed keys together make no circle of waiting transactions, unless a key straddles two that collide. */
  lemma NoWaitCycleDespiteCollisions(hash: Key -> int, live: set<Key>, s: State, path: seq<Id>, wanted: seq<Lock>, held: seq<Lock>)
    requires Reachable(s) && LiveKeys(s, live) && !Straddled(hash, live) && MeetingPath(hash, s, path, wanted, held)
    ensures path[0] != path[|path| - 1]
  {
    var n := |wanted| - 1;
    if path[0] == path[n + 1] {
      assert Meets(hash, s, path[0], path[1], wanted[0], held[0]) && Meets(hash, s, path[n], path[0], wanted[n], held[n]);
      HolderWantsLater(hash, live, s, path[n], path[0], path[1], wanted[n], held[n], wanted[0], held[0]);
      if n > 0 {
        PathComesLater(hash, live, s, path, wanted, held, n);
        ComesIsTransitive(hash, live, wanted[0], wanted[n], wanted[0]);
      }
      assert false;
    }
  }
}
