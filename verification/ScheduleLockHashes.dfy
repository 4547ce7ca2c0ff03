/**
 * An advisory lock is a 64-bit hash of the key's text. Keys are sorted by text, so a collision decides more than how
 * many transactions run one after the other: it can turn the common order of the locks round.
 */
module ScheduleLockHashes {
  import opened Timetable
  import opened ScheduleLock

  /** Locking `keys` takes lock `x` at a moment when `y`, which it takes later, is not yet held. */
  ghost predicate TakesFirst(hash: Key -> int, keys: seq<Key>, x: int, y: int) {
    exists i, j :: FirstAt(hash, LockOrder(keys), i, j, x, y)
  }

  ghost predicate FirstAt(hash: Key -> int, order: seq<Key>, i: int, j: int, x: int, y: int) {
    && 0 <= i < j < |order| && hash(order[i]) == x && hash(order[j]) == y
    && forall m :: 0 <= m <= i ==> hash(order[m]) != y
  }

  /** Transactions over live keys, each of which can hold a lock the one before it asks for, all the way round. */
  ghost predicate Circle(hash: Key -> int, live: set<Key>, lists: seq<seq<Key>>, locks: seq<int>) {
    && |lists| >= 1 && |locks| == |lists| + 1 && locks[0] == locks[|lists|]
    && forall i :: 0 <= i < |lists| ==> Link(hash, live, lists[i], locks[i], locks[i + 1])
  }

  ghost predicate Link(hash: Key -> int, live: set<Key>, keys: seq<Key>, x: int, y: int) {
    (forall k :: k in keys ==> k in live) && TakesFirst(hash, keys, x, y)
  }

  /** A key that hashes otherwise lies between two that collide. */
  ghost predicate Straddles(hash: Key -> int, live: set<Key>, a: Key, b: Key, c: Key) {
    a in live && b in live && c in live && KeyLess(a, b) && KeyLess(b, c) && hash(a) == hash(c) && hash(b) != hash(a)
  }

  lemma PairOrder(a: Key, b: Key)
    requires KeyLess(a, b)
    ensures LockOrder([a, b]) == [a, b]
  {
    LockOrderIsStrict([a, b]);
    StrictOrderIsUnique(LockOrder([a, b]), [a, b]);
  }

  ghost predicate Straddled(hash: Key -> int, live: set<Key>) {
    exists a, b, c :: Straddles(hash, live, a, b, c)
  }

  lemma StraddlingKeysCanDeadlock(hash: Key -> int, live: set<Key>, a: Key, b: Key, c: Key)
    requires Straddles(hash, live, a, b, c)
    ensures Circle(hash, live, [[a, b], [b, c]], [hash(a), hash(b), hash(a)])
  {
    PairOrder(a, b);
    PairOrder(b, c);
    assert FirstAt(hash, LockOrder([a, b]), 0, 1, hash(a), hash(b));
    assert FirstAt(hash, LockOrder([b, c]), 0, 1, hash(b), hash(a));
    assert Link(hash, live, [a, b], hash(a), hash(b)) && Link(hash, live, [b, c], hash(b), hash(a));
  }

  lemma TakenInKeyOrder(hash: Key -> int, keys: seq<Key>, x: int, y: int) returns (k: Key, l: Key)
    requires TakesFirst(hash, keys, x, y)
    ensures k in keys && l in keys && KeyLess(k, l) && hash(k) == x && hash(l) == y && x != y
  {
    LockOrderIsStrict(keys);
    var order := LockOrder(keys);
    var i, j :| FirstAt(hash, order, i, j, x, y);
    k, l := order[i], order[j];
    assert k in order && l in order;
  }

  /** Some live key of lock `x` comes before some live key of lock `y`. */
  ghost predicate Earlier(hash: Key -> int, live: set<Key>, x: int, y: int) {
    x != y && exists k, l :: k in live && l in live && KeyLess(k, l) && hash(k) == x && hash(l) == y
  }

  lemma LinkIsEarlier(hash: Key -> int, live: set<Key>, keys: seq<Key>, x: int, y: int)
    requires Link(hash, live, keys, x, y)
    ensures Earlier(hash, live, x, y)
  {
    var k, l := TakenInKeyOrder(hash, keys, x, y);
  }

  /** Unless a key straddles, the locks are ordered as their keys are. */
  lemma EarlierIsTransitive(hash: Key -> int, live: set<Key>, x: int, y: int, z: int)
    requires !Straddled(hash, live) && Earlier(hash, live, x, y) && Earlier(hash, live, y, z)
    ensures Earlier(hash, live, x, z)
  {
    var k, l :| k in live && l in live && KeyLess(k, l) && hash(k) == x && hash(l) == y;
    var m, n :| m in live && n in live && KeyLess(m, n) && hash(m) == y && hash(n) == z;
    assert !Straddles(hash, live, m, k, l) && !Straddles(hash, live, k, m, n);
    assert KeyLess(k, m) && KeyLess(k, n);
  }

  lemma {:induction false} CircleIsEarlier(hash: Key -> int, live: set<Key>, lists: seq<seq<Key>>, locks: seq<int>, n: nat)
    requires !Straddled(hash, live) && |locks| == |lists| + 1 && 1 <= n <= |lists|
    requires forall i :: 0 <= i < |lists| ==> Link(hash, live, lists[i], locks[i], locks[i + 1])
    ensures Earlier(hash, live, locks[0], locks[n])
  {
    LinkIsEarlier(hash, live, lists[n - 1], locks[n - 1], locks[n]);
    if n > 1 {
      CircleIsEarlier(hash, live, lists, locks, n - 1);
      EarlierIsTransitive(hash, live, locks[0], locks[n - 1], locks[n]);
    }
  }

  /**
   * Sorting the text keys rules out a circle of transactions, of whatever length, exactly when no live key lies between
   * two that collide.
   */
  lemma SortedKeysAvoidDeadlockIff(hash: Key -> int, live: set<Key>)
    ensures (exists lists, locks :: Circle(hash, live, lists, locks)) <==> Straddled(hash, live)
  {
    if Straddled(hash, live) {
      var a, b, c :| Straddles(hash, live, a, b, c);
      StraddlingKeysCanDeadlock(hash, live, a, b, c);
    } else if lists, locks :| Circle(hash, live, lists, locks) {
      CircleIsEarlier(hash, live, lists, locks, |lists|);
      assert false;
    }
  }
}
