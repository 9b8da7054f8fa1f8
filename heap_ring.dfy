/** The height buckets of the scheduler (src/index.ts:45-78): each bucket is
    a circular doubly-linked list of computed nodes threaded through the
    nodes' `nextHeap`/`prevHeap` pointers, with the bucket slot holding the
    head or nothing.  This module gives the two splicing operations as
    functions on one bucket and proves what they do to the ring. */
module HeapRing {
  import opened Common

  type NodeId = nat

  /** One bucket's head together with the (shared) ring pointers. */
  datatype Bucket = Bucket(head: Option<NodeId>, next: seq<NodeId>, prev: seq<NodeId>)

  /** The successor of position i on the cyclic list r. */
  function Succ(r: seq<NodeId>, i: nat): NodeId
    requires i < |r|
  {
    if i + 1 < |r| then r[i + 1] else r[0]
  }

  /** The predecessor of position i on the cyclic list r. */
  function Pred(r: seq<NodeId>, i: nat): NodeId
    requires i < |r|
  {
    if i > 0 then r[i - 1] else r[|r| - 1]
  }

  /** `head`, `next` and `prev` thread exactly the nodes of r, in that cyclic
      order, starting at r[0]. */
  ghost predicate IsRing(head: Option<NodeId>, r: seq<NodeId>, next: seq<NodeId>, prev: seq<NodeId>)
  {
    && head == First(r)
    && Distinct(r)
    && Threads(r, next, prev)
  }

  ghost predicate Pointers(b: Bucket)
  {
    && |b.next| == |b.prev|
    && (forall k :: 0 <= k < |b.next| ==> b.next[k] < |b.next| && b.prev[k] < |b.prev|)
    && (b.head.Some? ==> b.head.value < |b.next|)
  }

  /** insertIntoHeap after the Pushed test (src/index.ts:49-58): an empty
      bucket gets n as its head (n's own pointers are left as they are);
      otherwise n is spliced in before the head, i.e. at the tail. */
  function Insert(b: Bucket, n: NodeId): (r: Bucket)
    requires Pointers(b) && n < |b.next|
    ensures Pointers(r) && |r.next| == |b.next|
    ensures r.head == if b.head.None? then Some(n) else b.head
  {
    match b.head
    case None => Bucket(Some(n), b.next, b.prev)
    case Some(s) =>
      var t := b.prev[s];
      Bucket(b.head, b.next[t := n][n := s], b.prev[n := t][s := n])
  }

  /** deleteFromHeap's pointer surgery (src/index.ts:65-76): advance the
      head when it is n, empty the bucket when n was alone, otherwise join
      n's neighbours; finally self-loop n. */
  function Delete(b: Bucket, n: NodeId): (r: Bucket)
    requires Pointers(b) && n < |b.next|
    ensures Pointers(r) && |r.next| == |b.next|
    ensures r.next[n] == n && r.prev[n] == n
  {
    var h1 := if b.head == Some(n) then Some(b.next[n]) else b.head;
    if h1 == Some(n) then
      Bucket(None, b.next[n := n], b.prev[n := n])
    else
      var p := b.prev[n];
      var q := b.next[n];
      Bucket(h1, b.next[p := q][n := n], b.prev[q := p][n := n])
  }

  /** A ring is not disturbed by pointer changes outside it. */
  lemma {:induction false} RingFrame(head: Option<NodeId>, r: seq<NodeId>, next: seq<NodeId>, prev: seq<NodeId>,
                                     next': seq<NodeId>, prev': seq<NodeId>)
    requires IsRing(head, r, next, prev)
    requires forall x :: x in r ==> x < |next'| && x < |prev'| && next'[x] == next[x] && prev'[x] == prev[x]
    ensures IsRing(head, r, next', prev')
  {
    forall i | 0 <= i < |r|
      ensures r[i] in r
      ensures next'[r[i]] == Succ(r, i) && prev'[r[i]] == Pred(r, i)
    {
    }
  }

  /** Inserting a node that is not yet in the ring appends it at the tail of
      the cyclic order (or makes it the sole member), provided that a node
      entering an empty bucket is self-looped, and touches no other node. */
  lemma {:induction false} InsertAppends(b: Bucket, n: NodeId, r: seq<NodeId>)
    requires Pointers(b) && n < |b.next|
    requires IsRing(b.head, r, b.next, b.prev) && n !in r
    requires b.head.None? ==> b.next[n] == n && b.prev[n] == n
    ensures IsRing(Insert(b, n).head, r + [n], Insert(b, n).next, Insert(b, n).prev)
    ensures forall k :: 0 <= k < |b.next| && k !in r && k != n ==>
              Insert(b, n).next[k] == b.next[k] && Insert(b, n).prev[k] == b.prev[k]
  {
    if b.head.None? {
      assert r == [];
      assert r + [n] == [n];
    } else {
      var s := r[0];
      var t := b.prev[s];
      InsertThreads(r, n, b.next, b.prev);
      AppendDistinct(r, n);
      assert s in r && t in r;
    }
  }

  lemma InsertThreads(r: seq<NodeId>, n: NodeId, next: seq<NodeId>, prev: seq<NodeId>)
    requires r != [] && Distinct(r) && Threads(r, next, prev) && n !in r
    requires n < |next| && n < |prev|
    ensures var s := r[0];
            var t := prev[s];
            Threads(r + [n], next[t := n][n := s], prev[n := t][s := n])
  {
    var m := |r|;
    var s := r[0];
    var t := prev[s];
    var r' := r + [n];
    assert t == r[m - 1];
    forall i | 0 <= i < |r'|
      ensures r'[i] < |next[t := n][n := s]| && r'[i] < |prev[n := t][s := n]|
      ensures next[t := n][n := s][r'[i]] == Succ(r', i)
      ensures prev[n := t][s := n][r'[i]] == Pred(r', i)
    {
      if i < m {
        assert r'[i] == r[i] && r[i] != n;
        if i < m - 1 {
          assert r[i] != t;
        }
        if i > 0 {
          assert r[i] != s;
        }
      }
    }
  }

  lemma AppendDistinct(r: seq<NodeId>, n: NodeId)
    requires Distinct(r) && n !in r
    ensures Distinct(r + [n])
  {
    var r' := r + [n];
    forall i, j | 0 <= i < j < |r'| ensures r'[i] != r'[j] {
      if j == |r| {
        assert r'[i] in r;
      }
    }
  }

  /** Deleting the member at position k leaves the other members in their
      cyclic order (the head moves on when n was the head, the bucket
      empties when n was alone), self-loops n and touches nothing else. */
  lemma {:induction false} DeleteRemoves(b: Bucket, n: NodeId, r: seq<NodeId>, k: nat)
    requires Pointers(b) && n < |b.next|
    requires IsRing(b.head, r, b.next, b.prev) && k < |r| && r[k] == n
    ensures IsRing(Delete(b, n).head, RemoveAt(r, k), Delete(b, n).next, Delete(b, n).prev)
    ensures Delete(b, n).next[n] == n && Delete(b, n).prev[n] == n
    ensures forall x :: 0 <= x < |b.next| && x !in r ==>
              Delete(b, n).next[x] == b.next[x] && Delete(b, n).prev[x] == b.prev[x]
  {
    RemoveAtDistinct(r, k);
    if |r| == 1 {
      assert b.head == Some(n) && b.next[n] == n;
      assert RemoveAt(r, k) == [];
      assert n in r;
    } else {
      var p := b.prev[n];
      var q := b.next[n];
      assert p == Pred(r, k) && q == Succ(r, k);
      assert p in r && q in r && n in r;
      assert p != n && q != n;
      DeleteThreads(r, k, b.next, b.prev);
      assert Delete(b, n).next == b.next[p := q][n := n];
      assert Delete(b, n).prev == b.prev[q := p][n := n];
      forall x | 0 <= x < |b.next| && x !in r
        ensures Delete(b, n).next[x] == b.next[x] && Delete(b, n).prev[x] == b.prev[x]
      {
        assert x != p && x != q && x != n;
      }
      assert Delete(b, n).head == First(RemoveAt(r, k)) by {
        if k == 0 {
          assert Delete(b, n).head == Some(r[1]);
        } else {
          assert b.head == Some(r[0]) && r[0] != n;
        }
      }
    }
  }

  ghost predicate Threads(r: seq<NodeId>, next: seq<NodeId>, prev: seq<NodeId>)
  {
    && (forall i :: 0 <= i < |r| ==> r[i] < |next| && r[i] < |prev|)
    && (forall i {:trigger next[r[i]]} :: 0 <= i < |r| ==> next[r[i]] == Succ(r, i))
    && (forall i {:trigger prev[r[i]]} :: 0 <= i < |r| ==> prev[r[i]] == Pred(r, i))
  }

  lemma DeleteThreads(r: seq<NodeId>, k: nat, next: seq<NodeId>, prev: seq<NodeId>)
    requires |r| > 1 && k < |r|
    requires Distinct(r) && Threads(r, next, prev)
    ensures var n := r[k];
            Threads(RemoveAt(r, k), next[prev[n] := next[n]][n := n], prev[next[n] := prev[n]][n := n])
  {
    var n := r[k];
    var r' := RemoveAt(r, k);
    forall j | 0 <= j < |r'|
      ensures r'[j] < |next[prev[n] := next[n]][n := n]| && r'[j] < |prev[next[n] := prev[n]][n := n]|
      ensures next[prev[n] := next[n]][n := n][r'[j]] == Succ(r', j)
      ensures prev[next[n] := prev[n]][n := n][r'[j]] == Pred(r', j)
    {
      assert r'[j] == r[if j < k then j else j + 1];
      DeleteNextAt(r, k, j, next, prev);
      DeletePrevAt(r, k, j, next, prev);
    }
  }

  lemma DeleteNextAt(r: seq<NodeId>, k: nat, j: nat, next: seq<NodeId>, prev: seq<NodeId>)
    requires |r| > 1 && k < |r| && j < |r| - 1
    requires Distinct(r) && Threads(r, next, prev)
    ensures var n := r[k];
            next[prev[n] := next[n]][n := n][RemoveAt(r, k)[j]] == Succ(RemoveAt(r, k), j)
  {
    var m := |r|;
    var n := r[k];
    var r' := RemoveAt(r, k);
    var j' := if j < k then j else j + 1;
    assert r'[j] == r[j'];
    assert r[j'] != n;
    var pk := if k > 0 then k - 1 else m - 1;
    assert prev[n] == r[pk];
    if j' == pk {
      assert next[n] == Succ(r, k);
    } else {
      assert r[j'] != r[pk];
      assert next[r[j']] == Succ(r, j');
    }
  }

  lemma DeletePrevAt(r: seq<NodeId>, k: nat, j: nat, next: seq<NodeId>, prev: seq<NodeId>)
    requires |r| > 1 && k < |r| && j < |r| - 1
    requires Distinct(r) && Threads(r, next, prev)
    ensures var n := r[k];
            prev[next[n] := prev[n]][n := n][RemoveAt(r, k)[j]] == Pred(RemoveAt(r, k), j)
  {
    var m := |r|;
    var sk := if k + 1 < m then k + 1 else 0;
    var j' := if j < k then j else j + 1;
    if j' == sk {
      DeletePrevAtSucc(r, k, j, next, prev);
    } else {
      DeletePrevAtOther(r, k, j, next, prev);
    }
  }

  /** DeletePrevAt for the successor of the deleted node: it inherits the
      deleted node's predecessor. */
  lemma DeletePrevAtSucc(r: seq<NodeId>, k: nat, j: nat, next: seq<NodeId>, prev: seq<NodeId>)
    requires |r| > 1 && k < |r| && j < |r| - 1
    requires Distinct(r) && Threads(r, next, prev)
    requires (if j < k then j else j + 1) == (if k + 1 < |r| then k + 1 else 0)
    ensures var n := r[k];
            prev[next[n] := prev[n]][n := n][RemoveAt(r, k)[j]] == Pred(RemoveAt(r, k), j)
  {
    var m := |r|;
    var n := r[k];
    var r' := RemoveAt(r, k);
    var j' := if j < k then j else j + 1;
    assert r'[j] == r[j'] && next[n] == r[j'];
    assert prev[n] == Pred(r, k);
    if k + 1 < m {
      assert j == k;
      if k > 0 {
        assert Pred(r', j) == r'[k - 1] == r[k - 1];
      } else {
        assert Pred(r', j) == r'[m - 2] == r[m - 1];
      }
    } else {
      assert j == 0 && k > 0;
      assert Pred(r', 0) == r'[m - 2] == r[m - 2];
    }
  }

  /** DeletePrevAt for any other survivor: its predecessor pointer is
      untouched and still right. */
  lemma DeletePrevAtOther(r: seq<NodeId>, k: nat, j: nat, next: seq<NodeId>, prev: seq<NodeId>)
    requires |r| > 1 && k < |r| && j < |r| - 1
    requires Distinct(r) && Threads(r, next, prev)
    requires (if j < k then j else j + 1) != (if k + 1 < |r| then k + 1 else 0)
    ensures var n := r[k];
            prev[next[n] := prev[n]][n := n][RemoveAt(r, k)[j]] == Pred(RemoveAt(r, k), j)
  {
    var m := |r|;
    var n := r[k];
    var r' := RemoveAt(r, k);
    var j' := if j < k then j else j + 1;
    var sk := if k + 1 < m then k + 1 else 0;
    // the predecessor of j on r', as a position on r: it is j' - 1, or
    // the last position when j' is the first
    var pj := if j > 0 then j - 1 else m - 2;
    var pj' := if j' > 0 then j' - 1 else m - 1;
    assert r'[j] == r[j'] && r'[pj] == r[pj'];
    assert r[j'] != n && r[j'] != r[sk];
    assert prev[r[j']] == Pred(r, j') == r[pj'];
  }

  /** Deleting a self-looped node that is not in the ring changes nothing:
      recompute calls deleteFromHeap unconditionally. */
  lemma DeleteAbsentIsNoOp(b: Bucket, n: NodeId, r: seq<NodeId>)
    requires Pointers(b) && n < |b.next|
    requires IsRing(b.head, r, b.next, b.prev) && n !in r
    requires b.next[n] == n && b.prev[n] == n
    ensures Delete(b, n) == b
  {
    assert r != [] ==> r[0] in r;
  }

  /** Following next from position i of a ring: the walk is back at the
      head exactly after the last position. */
  lemma RingWalkStep(head: NodeId, r: seq<NodeId>, next: seq<NodeId>, prev: seq<NodeId>, i: nat)
    requires IsRing(Some(head), r, next, prev) && i < |r|
    ensures r[i] < |next| && (next[r[i]] == head <==> i + 1 == |r|)
    ensures i + 1 < |r| ==> next[r[i]] == r[i + 1]
  {
    assert next[r[i]] == Succ(r, i);
  }
}
