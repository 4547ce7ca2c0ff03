/** Advisory locks on schedule resources: de-duplicated, sorted, taken one by one. */
module ScheduleLock {
  import opened Sorting
  import opened Timetable

  /** First occurrences, in order of appearance, as a JavaScript Set keeps them. */
  function Distinct(keys: seq<Key>): (r: seq<Key>)
    ensures NoDuplicates(r)
    ensures forall k :: k in r <==> k in keys
  {
    if keys == [] then []
    else
      var front := Distinct(keys[..|keys| - 1]);
      var last := keys[|keys| - 1];
      assert keys == keys[..|keys| - 1] + [last];
      if last in front then front else front + [last]
  }

  ghost predicate StrictlyIncreasing(keys: seq<Key>) {
    forall i, j :: 0 <= i < j < |keys| ==> KeyLess(keys[i], keys[j])
  }

  function LockOrder(keys: seq<Key>): seq<Key> {
    Sort(Distinct(keys), KeyLe)
  }

  lemma LockOrderIsStrict(keys: seq<Key>)
    ensures StrictlyIncreasing(LockOrder(keys))
    ensures forall k :: k in LockOrder(keys) <==> k in keys
  {
    assert TotalPreorder(KeyLe);
    SortIsSortedPermutation(Distinct(keys), KeyLe);
  }

  /** The text a key begins with; the id follows after a colon. */
  function Prefix(k: Key): string {
    match k
    case Car(_) => "car"
    case GroupKey(_) => "group"
    case Instructor(_) => "instructor"
    case Student(_) => "student"
    case Teacher(_) => "teacher"
  }

  predicate TextLess(a: string, b: string) {
    b != "" && (a == "" || a[0] < b[0] || (a[0] == b[0] && TextLess(a[1..], b[1..])))
  }

  lemma NotLessThanItself(t: string)
    ensures !TextLess(t, t)
  {
  }

  /** The keys are in the order of their texts. */
  lemma KeysSortAsTexts(a: Key, b: Key)
    ensures KeyLess(a, b) <==> TextLess(Prefix(a), Prefix(b)) || (Prefix(a) == Prefix(b) && a.id < b.id)
  {
    NotLessThanItself(Prefix(a));
  }

  /** Two sets of requested resources are locked in the same order, however they were listed. */
  lemma LockOrderIsCanonical(keys: seq<Key>, others: seq<Key>)
    requires forall k :: k in keys <==> k in others
    ensures LockOrder(keys) == LockOrder(others)
  {
    LockOrderIsStrict(keys);
    LockOrderIsStrict(others);
    StrictOrderIsUnique(LockOrder(keys), LockOrder(others));
  }

  lemma TailOmitsHead(keys: seq<Key>, k: Key)
    requires StrictlyIncreasing(keys) && keys != []
    ensures k in keys[1..] <==> k in keys && k != keys[0]
  {
  }

  lemma HasMember(keys: seq<Key>)
    requires keys != []
    ensures exists k :: k in keys
  {
    assert keys[0] in keys;
  }

  lemma {:induction false} StrictOrderIsUnique(a: seq<Key>, b: seq<Key>)
    requires StrictlyIncreasing(a) && StrictlyIncreasing(b)
    requires forall k :: k in a <==> k in b
    ensures a == b
  {
    if a == [] {
      if b != [] {
        HasMember(b);
        assert false;
      }
    } else {
      assert a[0] in b && b[0] in a;
      assert a[0] == b[0];
      forall k
        ensures k in a[1..] <==> k in b[1..]
      {
        TailOmitsHead(a, k);
        TailOmitsHead(b, k);
      }
      StrictOrderIsUnique(a[1..], b[1..]);
    }
  }

  /** The advisory locks one transaction has taken so far, in the order it took them. */
  class AdvisorySession {
    var taken: seq<Key>

    constructor ()
      ensures taken == []
    {
      taken := [];
    }

    /** pg_advisory_xact_lock; returns once the lock is held. */
    method Acquire(key: Key)
      modifies this
      ensures taken == old(taken) + [key]
    {
      taken := taken + [key];
    }

    method LockScheduleResources(keys: seq<Key>)
      modifies this
      ensures taken == old(taken) + LockOrder(keys)
    {
      var ordered := LockOrder(keys);
      for i := 0 to |ordered|
        invariant taken == old(taken) + ordered[..i]
      {
        Acquire(ordered[i]);
        assert ordered[..i + 1] == ordered[..i] + [ordered[i]];
      }
      assert ordered[..|ordered|] == ordered;
    }
  }
}
