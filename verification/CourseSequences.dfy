/** Positions 1, 2, ... stand for a sequence; the two shifts are insertion and relocation in that sequence. */
module CourseSequences {
  import opened Sorting
  import opened CourseOrder

  predicate IsChild(rows: Rows, parent: Node, id: Node) {
    id in rows && rows[id].parent == parent
  }

  /** The children of `parent` are exactly `order`, at positions 1, 2, ... */
  ghost predicate Represents(rows: Rows, parent: Node, order: seq<Node>) {
    && (forall i :: 0 <= i < |order| ==> order[i] in rows && rows[order[i]] == Row(parent, i + 1))
    && (forall id {:trigger IsChild(rows, parent, id)} :: IsChild(rows, parent, id) ==>
          1 <= rows[id].position <= |order| && order[rows[id].position - 1] == id)
  }

  lemma RepresentedPositionsDiffer(rows: Rows, parent: Node, order: seq<Node>, a: Node, b: Node)
    requires Represents(rows, parent, order) && IsChild(rows, parent, a) && IsChild(rows, parent, b) && a != b
    ensures rows[a].position != rows[b].position
  {
  }

  lemma RepresentedMembers(rows: Rows, parent: Node, order: seq<Node>)
    requires Represents(rows, parent, order)
    ensures NoDuplicates(order)
    ensures forall id :: id in order <==> IsChild(rows, parent, id)
  {
  }

  function InsertAt(order: seq<Node>, index: nat, id: Node): seq<Node>
    requires index <= |order|
  {
    order[..index] + [id] + order[index..]
  }

  function Without(order: seq<Node>, id: Node): (rest: seq<Node>)
    requires id in order && NoDuplicates(order)
    ensures |rest| == |order| - 1
  {
    if order[0] == id then order[1..]
    else
      assert order == [order[0]] + order[1..];
      [order[0]] + Without(order[1..], id)
  }

  /** Take the item out and put it back so that it ends up at `index`. */
  function MoveTo(order: seq<Node>, id: Node, index: nat): (moved: seq<Node>)
    requires id in order && NoDuplicates(order) && index < |order|
    ensures |moved| == |order|
  {
    InsertAt(Without(order, id), index, id)
  }

  lemma {:induction false} WithoutAt(order: seq<Node>, i: nat)
    requires i < |order| && NoDuplicates(order)
    ensures Without(order, order[i]) == order[..i] + order[i + 1..]
  {
    if i > 0 {
      var rest := order[1..];
      WithoutAt(rest, i - 1);
      assert rest[i - 1] == order[i];
      assert order[..i] == [order[0]] + rest[..i - 1];
      assert order[i + 1..] == rest[i..];
    }
  }

  /** The rows after the shift and the final write of an insertion. */
  ghost function Inserted(rows: Rows, parent: Node, id: Node, position: int): Rows {
    Shifted(rows, parent, position)[id := Row(parent, position)]
  }

  /** The rows after the shift and the final write of a move. */
  ghost function Relocated(rows: Rows, parent: Node, id: Node, from: int, to: int): Rows {
    Moved(rows, parent, id, from, to)[id := Row(parent, to)]
  }

  lemma InsertAtIndex(order: seq<Node>, index: nat, id: Node, i: nat)
    requires index <= |order| && i <= |order|
    ensures |InsertAt(order, index, id)| == |order| + 1
    ensures InsertAt(order, index, id)[i] == if i < index then order[i] else if i == index then id else order[i - 1]
  {
  }

  lemma InsertedRow(rows: Rows, parent: Node, order: seq<Node>, id: Node, position: int, i: nat)
    requires Represents(rows, parent, order) && id !in rows && 1 <= position <= |order| + 1 && i <= |order|
    ensures InsertAt(order, position - 1, id)[i] in Inserted(rows, parent, id, position)
    ensures Inserted(rows, parent, id, position)[InsertAt(order, position - 1, id)[i]] == Row(parent, i + 1)
  {
  }

  lemma InsertedChild(rows: Rows, parent: Node, order: seq<Node>, id: Node, position: int, x: Node)
    requires Represents(rows, parent, order) && id !in rows && 1 <= position <= |order| + 1
    requires IsChild(Inserted(rows, parent, id, position), parent, x)
    ensures var p := Inserted(rows, parent, id, position)[x].position;
      1 <= p <= |order| + 1 && InsertAt(order, position - 1, id)[p - 1] == x
  {
    assert x == id || IsChild(rows, parent, x);
    InsertAtIndex(order, position - 1, id, Inserted(rows, parent, id, position)[x].position - 1);
  }

  /** Insertion leaves the requested position free, keeps the order of the others, and closes ranks as 1..n+1. */
  lemma InsertRefines(rows: Rows, parent: Node, order: seq<Node>, id: Node, position: int)
    requires Represents(rows, parent, order) && id !in rows && 1 <= position <= |order| + 1
    ensures Free(Shifted(rows, parent, position), parent, id, position)
    ensures Represents(Inserted(rows, parent, id, position), parent, InsertAt(order, position - 1, id))
  {
    var after, next := Inserted(rows, parent, id, position), InsertAt(order, position - 1, id);
    forall i | 0 <= i < |next|
      ensures next[i] in after && after[next[i]] == Row(parent, i + 1)
    {
      InsertedRow(rows, parent, order, id, position, i);
    }
    forall x | IsChild(after, parent, x)
      ensures 1 <= after[x].position <= |next| && next[after[x].position - 1] == x
    {
      InsertedChild(rows, parent, order, id, position, x);
    }
  }

  lemma MoveToPoint(order: seq<Node>, i: nat, index: nat, m: nat)
    requires NoDuplicates(order) && i < |order| && index < |order| && m < |order|
    ensures m == index ==> MoveTo(order, order[i], index)[m] == order[i]
    ensures m != index ==>
              (0 <= Slide(m, index, i) < |order| && MoveTo(order, order[i], index)[m] == order[Slide(m, index, i)])
  {
    WithoutAt(order, i);
    var rest := order[..i] + order[i + 1..];
    assert forall k :: 0 <= k < |rest| ==> rest[k] == order[if k < i then k else k + 1];
    InsertAtIndex(rest, index, order[i], m);
  }

  /** Every other item slides by at most one place, and nothing is lost or doubled. */
  lemma MoveToAt(order: seq<Node>, i: nat, index: nat)
    requires NoDuplicates(order) && i < |order| && index < |order|
    ensures MoveTo(order, order[i], index)[index] == order[i]
    ensures forall m :: 0 <= m < |order| && m != index ==>
              (0 <= Slide(m, index, i) < |order| && MoveTo(order, order[i], index)[m] == order[Slide(m, index, i)])
  {
    MoveToPoint(order, i, index, index);
    forall m | 0 <= m < |order| && m != index
      ensures 0 <= Slide(m, index, i) < |order| && MoveTo(order, order[i], index)[m] == order[Slide(m, index, i)]
    {
      MoveToPoint(order, i, index, m);
    }
  }

  lemma MoveToKeepsMembers(order: seq<Node>, i: nat, index: nat)
    requires NoDuplicates(order) && i < |order| && index < |order|
    ensures NoDuplicates(MoveTo(order, order[i], index))
    ensures forall x :: x in MoveTo(order, order[i], index) <==> x in order
  {
    var next := MoveTo(order, order[i], index);
    MoveToAt(order, i, index);
    forall x | x in order
      ensures x in next
    {
      var k :| 0 <= k < |order| && order[k] == x;
      assert next[if k == i then index else Slide(k, i, index)] == x;
    }
  }

  lemma MoveToPositions(rows: Rows, parent: Node, order: seq<Node>, i: nat, to: int, m: nat)
    requires Represents(rows, parent, order) && i < |order| && 1 <= to <= |order| && m < |order|
    ensures var next := MoveTo(order, order[i], to - 1);
      |next| == |order| && next[m] in rows && Relocated(rows, parent, order[i], i + 1, to)[next[m]] == Row(parent, m + 1)
  {
    MoveToAt(order, i, to - 1);
    assert m == to - 1 || order[Slide(m, to - 1, i)] in rows;
  }

  lemma MovedChild(rows: Rows, parent: Node, order: seq<Node>, i: nat, to: int, x: Node)
    requires Represents(rows, parent, order) && i < |order| && 1 <= to <= |order|
    requires order[i] in rows && IsChild(Relocated(rows, parent, order[i], i + 1, to), parent, x)
    ensures var p := Relocated(rows, parent, order[i], i + 1, to)[x].position;
      1 <= p <= |order| && |MoveTo(order, order[i], to - 1)| == |order| && MoveTo(order, order[i], to - 1)[p - 1] == x
  {
    assert IsChild(rows, parent, x);
    MoveToAt(order, i, to - 1);
    assert x == order[i] || Slide(Slide(rows[x].position, i + 1, to) - 1, to - 1, i) == rows[x].position - 1;
  }

  /** A move is taking the item out of the sequence and putting it back at the target. */
  lemma MoveRefines(rows: Rows, parent: Node, order: seq<Node>, i: nat, to: int)
    requires Represents(rows, parent, order) && i < |order| && 1 <= to <= |order|
    ensures order[i] in rows && rows[order[i]] == Row(parent, i + 1)
    ensures Represents(Relocated(rows, parent, order[i], i + 1, to), parent, MoveTo(order, order[i], to - 1))
  {
    var after, next := Relocated(rows, parent, order[i], i + 1, to), MoveTo(order, order[i], to - 1);
    forall m | 0 <= m < |next|
      ensures next[m] in after && after[next[m]] == Row(parent, m + 1)
    {
      MoveToPositions(rows, parent, order, i, to, m);
    }
    forall x | IsChild(after, parent, x)
      ensures 1 <= after[x].position <= |next| && next[after[x].position - 1] == x
    {
      MovedChild(rows, parent, order, i, to, x);
    }
  }

  /** Both touch one parent only. */
  lemma OthersUntouched(rows: Rows, parent: Node, id: Node, position: int, from: int, other: Node, order: seq<Node>)
    requires Represents(rows, other, order) && other != parent
    ensures id !in rows ==> Represents(Inserted(rows, parent, id, position), other, order)
    ensures IsChild(rows, parent, id) ==> Represents(Relocated(rows, parent, id, from, position), other, order)
  {
    forall x
      ensures IsChild(Inserted(rows, parent, id, position), other, x) ==> IsChild(rows, other, x)
      ensures IsChild(Relocated(rows, parent, id, from, position), other, x) && IsChild(rows, parent, id)
              ==> IsChild(rows, other, x)
    {
    }
  }

  /** The position query returns the sequence, numbered from 1. */
  lemma SiblingsAreTheSequence(rows: Rows, parent: Node, siblings: seq<PositionRow>, order: seq<Node>)
    requires Siblings(rows, parent, siblings) && Represents(rows, parent, order)
    ensures |siblings| == |order|
    ensures forall s :: s in siblings ==> s.position >= 1
  {
    RepresentedMembers(rows, parent, order);
    var ids := seq(|siblings|, i requires 0 <= i < |siblings| => siblings[i].id);
    forall x
      ensures x in ids <==> x in order
    {
      if x in order {
        assert IsChild(rows, parent, x);
        var s := PositionRow(x, rows[x].position);
        assert rows[x] == Row(parent, s.position);
        var i :| 0 <= i < |siblings| && siblings[i] == s;
        assert ids[i] == x;
      }
      if x in ids {
        var i :| 0 <= i < |ids| && ids[i] == x;
        assert siblings[i] in siblings && IsChild(rows, parent, x);
      }
    }
    assert forall i :: 0 <= i < |siblings| ==> siblings[i] in siblings;
    AtMostAsLong(ids, order);
    AtMostAsLong(order, ids);
    forall s | s in siblings
      ensures s.position >= 1
    {
      assert IsChild(rows, parent, s.id);
    }
  }

  /** The table determines the sequence. */
  lemma RepresentsOne(rows: Rows, parent: Node, a: seq<Node>, b: seq<Node>)
    requires Represents(rows, parent, a) && Represents(rows, parent, b)
    ensures a == b
  {
    RepresentedMembers(rows, parent, a);
    RepresentedMembers(rows, parent, b);
    AtMostAsLong(a, b);
    AtMostAsLong(b, a);
    forall i | 0 <= i < |a|
      ensures a[i] == b[i]
    {
      assert a[i] in b;
      var j :| 0 <= j < |b| && b[j] == a[i];
      assert rows[b[j]].position == j + 1;
    }
  }

  lemma {:induction false} AtMostAsLong<T>(a: seq<T>, b: seq<T>)
    requires NoDuplicates(a) && forall x :: x in a ==> x in b
    ensures |a| <= |b|
  {
    if a != [] {
      assert a[0] in b;
      var j :| 0 <= j < |b| && b[j] == a[0];
      var rest := b[..j] + b[j + 1..];
      forall x | x in a[1..]
        ensures x in rest
      {
        assert x in a;
        var k :| 0 <= k < |b| && b[k] == x;
        assert rest[if k < j then k else k - 1] == x;
      }
      AtMostAsLong(a[1..], rest);
    }
  }
}
