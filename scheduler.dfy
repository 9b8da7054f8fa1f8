/** The scheduler state of src/index.ts: node flags, heights, the
    height-indexed `heap` of buckets and `maxHeightInHeap`
    (src/index.ts:1-6, 33-78).  `insertIntoHeap` and `deleteFromHeap` are
    given as functions on this state; the buckets' ring structure is stated
    relative to an explicit list `rings` (rings[h] is bucket h in cyclic
    order), since the source keeps it intact only as long as heights of
    pushed nodes are not changed. */
module Scheduler {
  import opened Common
  import opened HeapRing

  type Flags = bv8

  const NONE: Flags := 0
  const CHECK: Flags := 1
  const DIRTY: Flags := 2
  const PUSHED: Flags := 4

  predicate Pushed(f: Flags)
  {
    f & PUSHED != 0
  }

  /** `flags | Pushed`: the Pushed bit set, every other bit kept. */
  function WithPushed(f: Flags): (r: Flags)
    ensures Pushed(r) && r & !PUSHED == f & !PUSHED && r & f == f
  {
    f | PUSHED
  }

  /** `flags & ~Pushed`: the Pushed bit cleared, every other bit kept. */
  function WithoutPushed(f: Flags): (r: Flags)
    ensures !Pushed(r) && r & !PUSHED == f & !PUSHED
  {
    f & !PUSHED
  }

  /** `heap[h]` of a JavaScript array: undefined past its length. */
  function At(heap: seq<Option<NodeId>>, h: nat): Option<NodeId>
  {
    if h < |heap| then heap[h] else None
  }

  /** `heap[h] = v` of a JavaScript array: an assignment past the end
      extends the array, filling the gap with undefined. */
  function Store(heap: seq<Option<NodeId>>, h: nat, v: Option<NodeId>): (r: seq<Option<NodeId>>)
    ensures |r| == if h < |heap| then |heap| else h + 1
    ensures At(r, h) == v
    ensures forall i :: 0 <= i < |r| && i != h ==> At(r, i) == At(heap, i)
  {
    if h < |heap| then heap[h := v] else heap + seq(h - |heap|, _ => None) + [v]
  }

  datatype Sched = Sched(
    flags: seq<Flags>, height: seq<nat>,
    heap: seq<Option<NodeId>>, next: seq<NodeId>, prev: seq<NodeId>,
    maxHeight: nat)

  /** Per-node arrays agree in size and every pointer names a node. */
  ghost predicate SchedOk(s: Sched)
  {
    var N := |s.flags|;
    && |s.height| == N && |s.next| == N && |s.prev| == N
    && (forall k :: 0 <= k < N ==> s.next[k] < N && s.prev[k] < N)
    && (forall h :: 0 <= h < |s.heap| && s.heap[h].Some? ==> s.heap[h].value < N)
  }

  /** No bucket above maxHeightInHeap holds a node: insertIntoHeap raises
      the mark whenever it fills a bucket above it. */
  ghost predicate AboveMaxEmpty(s: Sched)
  {
    forall h :: s.maxHeight < h < |s.heap| ==> s.heap[h].None?
  }

  function BucketAt(s: Sched, h: nat): (b: Bucket)
    requires SchedOk(s)
    ensures Pointers(b)
  {
    Bucket(At(s.heap, h), s.next, s.prev)
  }

  /** insertIntoHeap(n) (src/index.ts:45-62). */
  function InsertIntoHeap(s: Sched, n: NodeId): (r: Sched)
    requires SchedOk(s) && n < |s.flags|
    ensures SchedOk(r) && |r.flags| == |s.flags| && r.height == s.height
    ensures Pushed(r.flags[n]) && r.maxHeight >= s.maxHeight
    ensures !Pushed(s.flags[n]) ==> r.maxHeight >= s.height[n]
    ensures forall k :: 0 <= k < |s.flags| && k != n ==> r.flags[k] == s.flags[k]
    ensures AboveMaxEmpty(s) ==> AboveMaxEmpty(r)
  {
    if Pushed(s.flags[n]) then
      s
    else
      var h := s.height[n];
      var b := Insert(BucketAt(s, h), n);
      s.(flags := s.flags[n := WithPushed(s.flags[n])],
         heap := if At(s.heap, h).None? then Store(s.heap, h, Some(n)) else s.heap,
         next := b.next, prev := b.prev,
         maxHeight := if h > s.maxHeight then h else s.maxHeight)
  }

  /** deleteFromHeap(n) (src/index.ts:64-78): the bucket slot is written
      only when it held n. */
  function DeleteFromHeap(s: Sched, n: NodeId): (r: Sched)
    requires SchedOk(s) && n < |s.flags|
    ensures SchedOk(r) && |r.flags| == |s.flags| && r.height == s.height && r.maxHeight == s.maxHeight
    ensures !Pushed(r.flags[n]) && r.next[n] == n && r.prev[n] == n
    ensures forall k :: 0 <= k < |s.flags| && k != n ==> r.flags[k] == s.flags[k]
    ensures AboveMaxEmpty(s) ==> AboveMaxEmpty(r)
  {
    var h := s.height[n];
    var b := Delete(BucketAt(s, h), n);
    s.(flags := s.flags[n := WithoutPushed(s.flags[n])],
       heap := if At(s.heap, h) == Some(n) then s.heap[h := b.head] else s.heap,
       next := b.next, prev := b.prev)
  }

  /** The buckets are exactly `rings`: bucket h threads rings[h], buckets
      past the end of rings are empty, the members of bucket h are the
      pushed nodes of height h, a node that is not pushed is self-looped,
      and no non-empty bucket lies above maxHeightInHeap. */
  ghost predicate HeapWf(s: Sched, rings: seq<seq<NodeId>>)
  {
    && SchedOk(s)
    && RingsOk(s, rings)
    && TailEmpty(s, rings)
    && MembersOk(s, rings)
    && PushedIn(s, rings)
    && SelfLooped(s)
    && BelowMax(s, rings)
  }

  ghost predicate RingsOk(s: Sched, rings: seq<seq<NodeId>>)
  {
    forall h :: 0 <= h < |rings| ==> IsRing(At(s.heap, h), rings[h], s.next, s.prev)
  }

  ghost predicate TailEmpty(s: Sched, rings: seq<seq<NodeId>>)
  {
    forall h :: |rings| <= h < |s.heap| ==> s.heap[h].None?
  }

  ghost predicate MembersOk(s: Sched, rings: seq<seq<NodeId>>)
  {
    forall h, i :: 0 <= h < |rings| && 0 <= i < |rings[h]| ==>
      rings[h][i] < |s.flags| && rings[h][i] < |s.height| &&
      s.height[rings[h][i]] == h && Pushed(s.flags[rings[h][i]])
  }

  ghost predicate PushedIn(s: Sched, rings: seq<seq<NodeId>>)
    requires SchedOk(s)
  {
    forall k :: 0 <= k < |s.flags| && Pushed(s.flags[k]) ==> s.height[k] < |rings| && k in rings[s.height[k]]
  }

  ghost predicate SelfLooped(s: Sched)
    requires SchedOk(s)
  {
    forall k :: 0 <= k < |s.flags| && !Pushed(s.flags[k]) ==> s.next[k] == k && s.prev[k] == k
  }

  ghost predicate BelowMax(s: Sched, rings: seq<seq<NodeId>>)
  {
    forall h :: 0 <= h < |rings| && rings[h] != [] ==> h <= s.maxHeight
  }

  /** rings with n appended to bucket h, growing the list of buckets. */
  function AddTo(rings: seq<seq<NodeId>>, h: nat, n: NodeId): (r: seq<seq<NodeId>>)
    ensures |r| == if h < |rings| then |rings| else h + 1
    ensures r[h] == (if h < |rings| then rings[h] else []) + [n]
    ensures forall g :: 0 <= g < |r| && g != h ==> r[g] == if g < |rings| then rings[g] else []
  {
    if h < |rings| then rings[h := rings[h] + [n]] else rings + seq(h - |rings|, _ => []) + [[n]]
  }

  lemma PushedInRing(s: Sched, rings: seq<seq<NodeId>>, k: NodeId, h: nat)
    requires HeapWf(s, rings) && k < |s.flags|
    ensures h < |rings| && k in rings[h] ==> Pushed(s.flags[k]) && s.height[k] == h
  {
    if h < |rings| && k in rings[h] {
      var i :| 0 <= i < |rings[h]| && rings[h][i] == k;
    }
  }

  /** The ring of bucket h survives an insertion into another bucket. */
  lemma InsertOtherRing(s: Sched, rings: seq<seq<NodeId>>, n: NodeId, g: nat)
    requires HeapWf(s, rings) && n < |s.flags| && !Pushed(s.flags[n]) && g < |rings| && g != s.height[n]
    ensures var h := s.height[n];
            var b := Insert(BucketAt(s, h), n);
            IsRing(At(s.heap, g), rings[g], b.next, b.prev)
  {
    var h := s.height[n];
    var b0 := BucketAt(s, h);
    var b := Insert(b0, n);
    var r := if h < |rings| then rings[h] else [];
    assert IsRing(b0.head, r, s.next, s.prev);
    assert n !in r;
    InsertAppends(b0, n, r);
    forall x | x in rings[g]
      ensures x < |b.next| && x < |b.prev| && b.next[x] == s.next[x] && b.prev[x] == s.prev[x]
    {
      var i :| 0 <= i < |rings[g]| && rings[g][i] == x;
      assert s.height[x] == g;
      assert x !in r by {
        PushedInRing(s, rings, x, h);
      }
      assert x != n;
    }
    RingFrame(At(s.heap, g), rings[g], s.next, s.prev, b.next, b.prev);
  }

  /** insertIntoHeap of a node that is not pushed appends it to the bucket
      of its height and keeps the buckets well formed; of a pushed node it
      changes nothing. */
  lemma {:induction false} InsertKeepsWf(s: Sched, rings: seq<seq<NodeId>>, n: NodeId)
    requires HeapWf(s, rings) && n < |s.flags|
    ensures Pushed(s.flags[n]) ==> InsertIntoHeap(s, n) == s
    ensures !Pushed(s.flags[n]) ==> HeapWf(InsertIntoHeap(s, n), AddTo(rings, s.height[n], n))
  {
    if !Pushed(s.flags[n]) {
      var h := s.height[n];
      var s' := InsertIntoHeap(s, n);
      var rings' := AddTo(rings, h, n);
      var b0 := BucketAt(s, h);
      var b := Insert(b0, n);
      var r := if h < |rings| then rings[h] else [];
      assert IsRing(b0.head, r, s.next, s.prev);
      assert n !in r;
      InsertAppends(b0, n, r);
      assert s'.next == b.next && s'.prev == b.prev;
      assert At(s'.heap, h) == b.head;
      forall g | 0 <= g < |rings'|
        ensures IsRing(At(s'.heap, g), rings'[g], s'.next, s'.prev)
      {
        if g == h {
        } else if g < |rings| {
          InsertOtherRing(s, rings, n, g);
          assert At(s'.heap, g) == At(s.heap, g);
        } else {
          assert rings'[g] == [];
          assert At(s'.heap, g) == At(s.heap, g) == None;
        }
      }
      InsertMembers(s, rings, n);
    }
  }

  /** The membership half of InsertKeepsWf. */
  lemma InsertMembers(s: Sched, rings: seq<seq<NodeId>>, n: NodeId)
    requires HeapWf(s, rings) && n < |s.flags| && !Pushed(s.flags[n])
    ensures var s' := InsertIntoHeap(s, n);
            var rings' := AddTo(rings, s.height[n], n);
            TailEmpty(s', rings') && MembersOk(s', rings') && PushedIn(s', rings') &&
            SelfLooped(s') && BelowMax(s', rings')
  {
    InsertTail(s, rings, n);
    InsertMembersOk(s, rings, n);
    InsertPushedIn(s, rings, n);
    InsertSelfLooped(s, rings, n);
  }

  lemma InsertTail(s: Sched, rings: seq<seq<NodeId>>, n: NodeId)
    requires SchedOk(s) && TailEmpty(s, rings) && n < |s.flags| && !Pushed(s.flags[n])
    ensures TailEmpty(InsertIntoHeap(s, n), AddTo(rings, s.height[n], n))
  {
    var s' := InsertIntoHeap(s, n);
    var rings' := AddTo(rings, s.height[n], n);
    forall g | |rings'| <= g < |s'.heap| ensures s'.heap[g].None? {
      assert At(s'.heap, g) == At(s.heap, g);
    }
  }

  lemma InsertMembersOk(s: Sched, rings: seq<seq<NodeId>>, n: NodeId)
    requires SchedOk(s) && MembersOk(s, rings) && n < |s.flags| && !Pushed(s.flags[n])
    ensures MembersOk(InsertIntoHeap(s, n), AddTo(rings, s.height[n], n))
  {
    var h := s.height[n];
    var s' := InsertIntoHeap(s, n);
    var rings' := AddTo(rings, h, n);
    forall g, i | 0 <= g < |rings'| && 0 <= i < |rings'[g]|
      ensures rings'[g][i] < |s'.flags| && rings'[g][i] < |s'.height|
      ensures s'.height[rings'[g][i]] == g && Pushed(s'.flags[rings'[g][i]])
    {
      if g == h && i == |rings'[g]| - 1 {
        assert rings'[g][i] == n;
      } else {
        assert rings'[g][i] == rings[g][i];
        assert rings[g][i] != n;
      }
    }
  }

  lemma InsertPushedIn(s: Sched, rings: seq<seq<NodeId>>, n: NodeId)
    requires SchedOk(s) && PushedIn(s, rings) && n < |s.flags| && !Pushed(s.flags[n])
    ensures SchedOk(InsertIntoHeap(s, n)) && PushedIn(InsertIntoHeap(s, n), AddTo(rings, s.height[n], n))
  {
    var h := s.height[n];
    var s' := InsertIntoHeap(s, n);
    var rings' := AddTo(rings, h, n);
    forall k | 0 <= k < |s'.flags| && Pushed(s'.flags[k])
      ensures s'.height[k] < |rings'| && k in rings'[s'.height[k]]
    {
      if k == n {
        assert rings'[h][|rings'[h]| - 1] == n;
      } else {
        var g := s.height[k];
        assert Pushed(s.flags[k]);
        assert k in rings[g];
        if g == h {
          assert rings'[h] == rings[h] + [n];
        }
      }
    }
  }

  lemma InsertSelfLooped(s: Sched, rings: seq<seq<NodeId>>, n: NodeId)
    requires HeapWf(s, rings) && n < |s.flags| && !Pushed(s.flags[n])
    ensures SchedOk(InsertIntoHeap(s, n)) && SelfLooped(InsertIntoHeap(s, n))
  {
    var h := s.height[n];
    var s' := InsertIntoHeap(s, n);
    var b0 := BucketAt(s, h);
    var r := if h < |rings| then rings[h] else [];
    assert IsRing(b0.head, r, s.next, s.prev);
    assert n !in r;
    InsertAppends(b0, n, r);
    forall k | 0 <= k < |s'.flags| && !Pushed(s'.flags[k])
      ensures s'.next[k] == k && s'.prev[k] == k
    {
      assert k != n && !Pushed(s.flags[k]);
      assert k !in r by {
        PushedInRing(s, rings, k, h);
      }
    }
  }

  /** The ring of bucket g survives the deletion of a member of another
      bucket. */
  lemma DeleteOtherRing(s: Sched, rings: seq<seq<NodeId>>, n: NodeId, g: nat)
    requires HeapWf(s, rings) && n < |s.flags| && Pushed(s.flags[n]) && g < |rings| && g != s.height[n]
    ensures var h := s.height[n];
            var b := Delete(BucketAt(s, h), n);
            IsRing(At(s.heap, g), rings[g], b.next, b.prev)
  {
    var h := s.height[n];
    var b0 := BucketAt(s, h);
    var r := rings[h];
    var k := IndexOf(r, n);
    DeleteRemoves(b0, n, r, k);
    var b := Delete(b0, n);
    forall x | x in rings[g]
      ensures x < |b.next| && x < |b.prev| && b.next[x] == s.next[x] && b.prev[x] == s.prev[x]
    {
      var i :| 0 <= i < |rings[g]| && rings[g][i] == x;
      assert s.height[x] == g;
      assert x !in r by {
        PushedInRing(s, rings, x, h);
      }
    }
    RingFrame(At(s.heap, g), rings[g], s.next, s.prev, b.next, b.prev);
  }

  /** deleteFromHeap of a pushed node removes it from the bucket of its
      height and keeps the buckets well formed; of a node that is not pushed
      it only clears the flag. */
  lemma {:induction false} DeleteKeepsWf(s: Sched, rings: seq<seq<NodeId>>, n: NodeId)
    requires HeapWf(s, rings) && n < |s.flags|
    ensures Pushed(s.flags[n]) ==> s.height[n] < |rings| && n in rings[s.height[n]]
    ensures Pushed(s.flags[n]) ==>
              var h := s.height[n];
              HeapWf(DeleteFromHeap(s, n), rings[h := RemoveAt(rings[h], IndexOf(rings[h], n))])
    ensures !Pushed(s.flags[n]) ==> DeleteFromHeap(s, n) == s.(flags := s.flags[n := WithoutPushed(s.flags[n])])
    ensures !Pushed(s.flags[n]) ==> HeapWf(DeleteFromHeap(s, n), rings)
  {
    if Pushed(s.flags[n]) {
      DeletePushed(s, rings, n);
    } else {
      DeleteAbsent(s, rings, n);
      SetFlagKeepsWf(s, rings, n, WithoutPushed(s.flags[n]));
    }
  }

  lemma DeletePushed(s: Sched, rings: seq<seq<NodeId>>, n: NodeId)
    requires HeapWf(s, rings) && n < |s.flags| && Pushed(s.flags[n])
    ensures s.height[n] < |rings| && n in rings[s.height[n]]
    ensures var h := s.height[n];
            HeapWf(DeleteFromHeap(s, n), rings[h := RemoveAt(rings[h], IndexOf(rings[h], n))])
  {
    DeleteRingsOk(s, rings, n);
    DeleteTail(s, rings, n);
    DeleteMembersOk(s, rings, n);
    DeletePushedIn(s, rings, n);
    DeleteSelfLooped(s, rings, n);
    DeleteBelowMax(s, rings, n);
  }

  lemma DeleteRingsOk(s: Sched, rings: seq<seq<NodeId>>, n: NodeId)
    requires HeapWf(s, rings) && n < |s.flags| && Pushed(s.flags[n])
    ensures s.height[n] < |rings| && n in rings[s.height[n]] && Distinct(rings[s.height[n]])
    ensures var h := s.height[n];
            RingsOk(DeleteFromHeap(s, n), rings[h := RemoveAt(rings[h], IndexOf(rings[h], n))])
  {
    var h := s.height[n];
    var b0 := BucketAt(s, h);
    var s' := DeleteFromHeap(s, n);
    var r := rings[h];
    var k := IndexOf(r, n);
    var rings' := rings[h := RemoveAt(r, k)];
    assert IsRing(At(s.heap, h), r, s.next, s.prev);
    DeleteRemoves(b0, n, r, k);
    DeleteHeads(s, n);
    forall g | 0 <= g < |rings'|
      ensures IsRing(At(s'.heap, g), rings'[g], s'.next, s'.prev)
    {
      if g != h {
        DeleteOtherRing(s, rings, n, g);
      }
    }
  }

  /** Deleting n changes at most the head of n's own bucket. */
  lemma DeleteHeads(s: Sched, n: NodeId)
    requires SchedOk(s) && n < |s.flags|
    ensures var s' := DeleteFromHeap(s, n);
            var b := Delete(BucketAt(s, s.height[n]), n);
            && s'.next == b.next && s'.prev == b.prev
            && forall g :: At(s'.heap, g) == if g == s.height[n] then b.head else At(s.heap, g)
  {
  }

  lemma DeleteAbsent(s: Sched, rings: seq<seq<NodeId>>, n: NodeId)
    requires HeapWf(s, rings) && n < |s.flags| && !Pushed(s.flags[n])
    ensures DeleteFromHeap(s, n) == s.(flags := s.flags[n := WithoutPushed(s.flags[n])])
  {
    var h := s.height[n];
    var b0 := BucketAt(s, h);
    var s' := DeleteFromHeap(s, n);
    var r := if h < |rings| then rings[h] else [];
    assert IsRing(b0.head, r, s.next, s.prev);
    assert n !in r by {
      PushedInRing(s, rings, n, h);
    }
    DeleteAbsentIsNoOp(b0, n, r);
    assert At(s.heap, h) != Some(n) by {
      assert r != [] ==> r[0] != n;
    }
    assert s'.heap == s.heap;
  }

  /** Changing a node's flags without changing its Pushed bit keeps the
      buckets well formed. */
  lemma SetFlagKeepsWf(s: Sched, rings: seq<seq<NodeId>>, n: NodeId, f: Flags)
    requires HeapWf(s, rings) && n < |s.flags| && Pushed(f) == Pushed(s.flags[n])
    ensures HeapWf(s.(flags := s.flags[n := f]), rings)
  {
    var s' := s.(flags := s.flags[n := f]);
    assert RingsOk(s', rings) && TailEmpty(s', rings) && BelowMax(s', rings);
    forall g, i | 0 <= g < |rings| && 0 <= i < |rings[g]|
      ensures Pushed(s'.flags[rings[g][i]])
    {
      assert Pushed(s.flags[rings[g][i]]);
    }
    assert MembersOk(s', rings);
    forall k | 0 <= k < |s'.flags| && Pushed(s'.flags[k])
      ensures s'.height[k] < |rings| && k in rings[s'.height[k]]
    {
      assert Pushed(s.flags[k]);
    }
    forall k | 0 <= k < |s'.flags| && !Pushed(s'.flags[k])
      ensures s'.next[k] == k && s'.prev[k] == k
    {
      assert !Pushed(s.flags[k]);
    }
  }

  lemma DeleteTail(s: Sched, rings: seq<seq<NodeId>>, n: NodeId)
    requires HeapWf(s, rings) && n < |s.flags| && Pushed(s.flags[n])
    ensures s.height[n] < |rings|
    ensures var h := s.height[n];
            TailEmpty(DeleteFromHeap(s, n), rings[h := RemoveAt(rings[h], IndexOf(rings[h], n))])
  {
  }

  lemma DeleteMembersOk(s: Sched, rings: seq<seq<NodeId>>, n: NodeId)
    requires SchedOk(s) && MembersOk(s, rings) && n < |s.flags|
    requires s.height[n] < |rings| && n in rings[s.height[n]] && Distinct(rings[s.height[n]])
    ensures var h := s.height[n];
            MembersOk(DeleteFromHeap(s, n), rings[h := RemoveAt(rings[h], IndexOf(rings[h], n))])
  {
    var h := s.height[n];
    var s' := DeleteFromHeap(s, n);
    var r := rings[h];
    var k := IndexOf(r, n);
    var rings' := rings[h := RemoveAt(r, k)];
    RemoveAtDistinct(r, k);
    forall g, i | 0 <= g < |rings'| && 0 <= i < |rings'[g]|
      ensures rings'[g][i] < |s'.flags| && rings'[g][i] < |s'.height|
      ensures s'.height[rings'[g][i]] == g && Pushed(s'.flags[rings'[g][i]])
    {
      if g == h {
        var i' := if i < k then i else i + 1;
        assert rings'[g][i] == r[i'] && r[i'] != n;
      } else {
        assert rings'[g][i] == rings[g][i];
        assert s.height[rings[g][i]] == g;
      }
    }
  }

  lemma DeletePushedIn(s: Sched, rings: seq<seq<NodeId>>, n: NodeId)
    requires SchedOk(s) && PushedIn(s, rings) && n < |s.flags|
    requires s.height[n] < |rings| && n in rings[s.height[n]] && Distinct(rings[s.height[n]])
    ensures var h := s.height[n];
            PushedIn(DeleteFromHeap(s, n), rings[h := RemoveAt(rings[h], IndexOf(rings[h], n))])
  {
    var h := s.height[n];
    var s' := DeleteFromHeap(s, n);
    var r := rings[h];
    var k := IndexOf(r, n);
    var rings' := rings[h := RemoveAt(r, k)];
    RemoveAtMembers(r, k);
    forall x | 0 <= x < |s'.flags| && Pushed(s'.flags[x])
      ensures s'.height[x] < |rings'| && x in rings'[s'.height[x]]
    {
      assert x != n && Pushed(s.flags[x]);
      assert x in rings[s.height[x]];
    }
  }

  lemma DeleteSelfLooped(s: Sched, rings: seq<seq<NodeId>>, n: NodeId)
    requires HeapWf(s, rings) && n < |s.flags| && Pushed(s.flags[n])
    ensures SelfLooped(DeleteFromHeap(s, n))
  {
    var h := s.height[n];
    var s' := DeleteFromHeap(s, n);
    var r := rings[h];
    var k := IndexOf(r, n);
    DeleteRemoves(BucketAt(s, h), n, r, k);
    forall x | 0 <= x < |s'.flags| && !Pushed(s'.flags[x])
      ensures s'.next[x] == x && s'.prev[x] == x
    {
      if x != n {
        assert !Pushed(s.flags[x]);
        assert x !in r by {
          PushedInRing(s, rings, x, h);
        }
      }
    }
  }

  lemma DeleteBelowMax(s: Sched, rings: seq<seq<NodeId>>, n: NodeId)
    requires HeapWf(s, rings) && n < |s.flags| && Pushed(s.flags[n])
    ensures s.height[n] < |rings| && n in rings[s.height[n]]
    ensures var h := s.height[n];
            BelowMax(DeleteFromHeap(s, n), rings[h := RemoveAt(rings[h], IndexOf(rings[h], n))])
  {
    var h := s.height[n];
    assert rings[h] != [];
  }

  // ---------------------------------------------------------------------
  // flag changes that keep the Pushed bits

  /** Two flag arrays of the same length that agree on every Pushed bit. */
  ghost predicate SamePushed(f: seq<Flags>, f': seq<Flags>)
  {
    |f'| == |f| && forall k :: 0 <= k < |f| ==> Pushed(f'[k]) == Pushed(f[k])
  }

  /** Changing flags anywhere without touching a Pushed bit keeps the
      buckets well formed (markNode, recompute's Dirty marking). */
  lemma FlagsKeepWf(s: Sched, rings: seq<seq<NodeId>>, f: seq<Flags>)
    requires HeapWf(s, rings) && SamePushed(s.flags, f)
    ensures HeapWf(s.(flags := f), rings)
  {
    var s' := s.(flags := f);
    assert RingsOk(s', rings) && TailEmpty(s', rings) && BelowMax(s', rings);
    forall g, i | 0 <= g < |rings| && 0 <= i < |rings[g]|
      ensures Pushed(s'.flags[rings[g][i]])
    {
      assert Pushed(s.flags[rings[g][i]]);
    }
    assert MembersOk(s', rings);
    forall k | 0 <= k < |s'.flags| && Pushed(s'.flags[k])
      ensures s'.height[k] < |rings| && k in rings[s'.height[k]]
    {
      assert Pushed(s.flags[k]);
    }
    forall k | 0 <= k < |s'.flags| && !Pushed(s'.flags[k])
      ensures s'.next[k] == k && s'.prev[k] == k
    {
      assert !Pushed(s.flags[k]);
    }
  }

  // ---------------------------------------------------------------------
  // node creation

  /** A fresh node (src/index.ts:80-94): flags None, height 0, its heap
      pointers pointing at itself. */
  function AddNode(s: Sched): (r: Sched)
    requires SchedOk(s)
    ensures SchedOk(r) && |r.flags| == |s.flags| + 1
    ensures r.flags[|s.flags|] == NONE && r.height[|s.flags|] == 0
    ensures r.next[|s.flags|] == |s.flags| && r.prev[|s.flags|] == |s.flags|
  {
    var x := |s.flags|;
    s.(flags := s.flags + [NONE], height := s.height + [0], next := s.next + [x], prev := s.prev + [x])
  }

  /** A fresh node sits in no bucket, so the buckets stay well formed. */
  lemma AddNodeKeepsWf(s: Sched, rings: seq<seq<NodeId>>)
    requires HeapWf(s, rings)
    ensures HeapWf(AddNode(s), rings)
  {
    var s' := AddNode(s);
    var x := |s.flags|;
    forall h | 0 <= h < |rings| ensures IsRing(At(s'.heap, h), rings[h], s'.next, s'.prev) {
      forall y | y in rings[h]
        ensures y < |s'.next| && y < |s'.prev| && s'.next[y] == s.next[y] && s'.prev[y] == s.prev[y]
      {
        var i :| 0 <= i < |rings[h]| && rings[h][i] == y;
      }
      RingFrame(At(s.heap, h), rings[h], s.next, s.prev, s'.next, s'.prev);
    }
    forall h, i | 0 <= h < |rings| && 0 <= i < |rings[h]|
      ensures rings[h][i] < |s'.flags| && s'.height[rings[h][i]] == h && Pushed(s'.flags[rings[h][i]])
    {
      assert rings[h][i] < x;
    }
    forall k | 0 <= k < |s'.flags| && Pushed(s'.flags[k])
      ensures s'.height[k] < |rings| && k in rings[s'.height[k]]
    {
      assert k != x;
      assert Pushed(s.flags[k]);
    }
    assert MembersOk(s', rings) && PushedIn(s', rings);
  }

  // ---------------------------------------------------------------------
  // enqueueing a node's subscribers

  ghost predicate AllBelow(ns: seq<NodeId>, N: nat)
  {
    forall i :: 0 <= i < |ns| ==> ns[i] < N
  }

  /** The loop of setSignal (src/index.ts:277-281): insertIntoHeap on each
      subscriber in list order. */
  function InsertAll(s: Sched, ns: seq<NodeId>): (r: Sched)
    requires SchedOk(s) && AllBelow(ns, |s.flags|)
    ensures SchedOk(r) && |r.flags| == |s.flags| && r.height == s.height
    ensures r.maxHeight >= s.maxHeight
    ensures forall i :: 0 <= i < |ns| ==> Pushed(r.flags[ns[i]])
    ensures forall k :: 0 <= k < |s.flags| && k !in ns ==> r.flags[k] == s.flags[k]
    ensures AboveMaxEmpty(s) ==> AboveMaxEmpty(r)
    decreases |ns|
  {
    if ns == [] then s
    else
      var s1 := InsertIntoHeap(s, ns[0]);
      var r := InsertAll(s1, ns[1..]);
      assert forall i :: 1 <= i < |ns| ==> ns[i] == ns[1..][i - 1];
      assert Pushed(r.flags[ns[0]]) by {
        if ns[0] in ns[1..] {
          var j :| 0 <= j < |ns[1..]| && ns[1..][j] == ns[0];
        }
      }
      r
  }

  /** `if (flags & Check) flags |= Dirty` (src/index.ts:130-132). */
  function Escalate(f: Flags): (r: Flags)
    ensures r & f == f && Pushed(r) == Pushed(f)
    ensures f & CHECK != 0 ==> r & DIRTY != 0
    ensures f & CHECK == 0 ==> r == f
  {
    if f & CHECK != 0 then f | DIRTY else f
  }

  /** One step of recompute's notification loop (src/index.ts:128-133): a
      subscriber that was Check becomes Dirty too, then it is enqueued. */
  function NotifyStep(s: Sched, o: NodeId): (r: Sched)
    requires SchedOk(s) && o < |s.flags|
    ensures SchedOk(r) && |r.flags| == |s.flags| && r.height == s.height
    ensures AboveMaxEmpty(s) ==> AboveMaxEmpty(r)
  {
    InsertIntoHeap(s.(flags := s.flags[o := Escalate(s.flags[o])]), o)
  }

  /** The whole notification loop over the subscribers ns, in list order. */
  function NotifyAll(s: Sched, ns: seq<NodeId>): (r: Sched)
    requires SchedOk(s) && AllBelow(ns, |s.flags|)
    ensures SchedOk(r) && |r.flags| == |s.flags| && r.height == s.height
    ensures AboveMaxEmpty(s) ==> AboveMaxEmpty(r)
    decreases |ns|
  {
    if ns == [] then s else NotifyAll(NotifyStep(s, ns[0]), ns[1..])
  }

  /** What the notification loop does to flags: every subscriber ends up
      Pushed, a subscriber that was Check ends up Dirty, no other bit is
      lost, and nodes that are not subscribers keep their flags. */
  lemma NotifyAllFlags(s: Sched, ns: seq<NodeId>)
    requires SchedOk(s) && AllBelow(ns, |s.flags|)
    ensures var r := NotifyAll(s, ns);
            && r.maxHeight >= s.maxHeight
            && (forall i :: 0 <= i < |ns| ==> Pushed(r.flags[ns[i]]))
            && (forall i :: 0 <= i < |ns| && s.flags[ns[i]] & CHECK != 0 ==> r.flags[ns[i]] & DIRTY != 0)
            && (forall k :: 0 <= k < |s.flags| ==> r.flags[k] & s.flags[k] == s.flags[k])
            && (forall k :: 0 <= k < |s.flags| && k !in ns ==> r.flags[k] == s.flags[k])
  {
    NotifyAllGains(s, ns);
    NotifyAllPushes(s, ns);
    NotifyAllDirties(s, ns);
  }

  /** The loop only adds flag bits, raises no maximum down, and leaves the
      nodes it does not visit alone. */
  lemma {:induction false} NotifyAllGains(s: Sched, ns: seq<NodeId>)
    requires SchedOk(s) && AllBelow(ns, |s.flags|)
    ensures var r := NotifyAll(s, ns);
            && r.maxHeight >= s.maxHeight
            && (forall k :: 0 <= k < |s.flags| ==> r.flags[k] & s.flags[k] == s.flags[k])
            && (forall k :: 0 <= k < |s.flags| && k !in ns ==> r.flags[k] == s.flags[k])
    decreases |ns|
  {
    if ns != [] {
      var o := ns[0];
      var s1 := NotifyStep(s, o);
      var r := NotifyAll(s1, ns[1..]);
      NotifyStepFlags(s, o);
      NotifyAllGains(s1, ns[1..]);
      forall k | 0 <= k < |s.flags| ensures r.flags[k] & s.flags[k] == s.flags[k] {
        GainsTrans(s.flags[k], s1.flags[k], r.flags[k]);
      }
      forall k | 0 <= k < |s.flags| && k !in ns ensures r.flags[k] == s.flags[k] {
        assert k != o && k !in ns[1..];
      }
    }
  }

  /** Every visited node ends up pushed. */
  lemma {:induction false} NotifyAllPushes(s: Sched, ns: seq<NodeId>)
    requires SchedOk(s) && AllBelow(ns, |s.flags|)
    ensures forall i :: 0 <= i < |ns| ==> Pushed(NotifyAll(s, ns).flags[ns[i]])
    decreases |ns|
  {
    if ns != [] {
      var o := ns[0];
      var s1 := NotifyStep(s, o);
      var r := NotifyAll(s1, ns[1..]);
      NotifyStepFlags(s, o);
      NotifyAllPushes(s1, ns[1..]);
      NotifyAllGains(s1, ns[1..]);
      forall i | 0 <= i < |ns| ensures Pushed(r.flags[ns[i]]) {
        if i == 0 {
          KeepsPushed(s1.flags[o], r.flags[o]);
        } else {
          assert ns[1..][i - 1] == ns[i];
        }
      }
    }
  }

  /** Every visited node that was Check ends up Dirty. */
  lemma {:induction false} NotifyAllDirties(s: Sched, ns: seq<NodeId>)
    requires SchedOk(s) && AllBelow(ns, |s.flags|)
    ensures var r := NotifyAll(s, ns);
            forall i :: 0 <= i < |ns| && s.flags[ns[i]] & CHECK != 0 ==> r.flags[ns[i]] & DIRTY != 0
    decreases |ns|
  {
    if ns != [] {
      var o := ns[0];
      var s1 := NotifyStep(s, o);
      var r := NotifyAll(s1, ns[1..]);
      NotifyStepFlags(s, o);
      NotifyAllDirties(s1, ns[1..]);
      NotifyAllGains(s1, ns[1..]);
      forall i | 0 <= i < |ns| && s.flags[ns[i]] & CHECK != 0 ensures r.flags[ns[i]] & DIRTY != 0 {
        var k := ns[i];
        if k == o {
          KeepsDirty(s1.flags[k], r.flags[k]);
        } else {
          assert s1.flags[k] == s.flags[k] && ns[1..][i - 1] == k;
        }
      }
    }
  }

  /** Flag sets only gaining bits, step after step, gain bits overall. */
  lemma GainsTrans(a: Flags, b: Flags, c: Flags)
    requires b & a == a && c & b == b
    ensures c & a == a
  {
  }

  /** A flag set that only gains bits stays pushed. */
  lemma KeepsPushed(b: Flags, c: Flags)
    requires c & b == b && Pushed(b)
    ensures Pushed(c)
  {
  }

  /** A flag set that only gains bits keeps Dirty. */
  lemma KeepsDirty(b: Flags, c: Flags)
    requires c & b == b && b & DIRTY != 0
    ensures c & DIRTY != 0
  {
  }

  /** One notification step. */
  lemma NotifyStepFlags(s: Sched, o: NodeId)
    requires SchedOk(s) && o < |s.flags|
    ensures var s1 := NotifyStep(s, o);
            && s1.maxHeight >= s.maxHeight
            && Pushed(s1.flags[o])
            && (s.flags[o] & CHECK != 0 ==> s1.flags[o] & DIRTY != 0)
            && (forall k :: 0 <= k < |s.flags| ==> s1.flags[k] & s.flags[k] == s.flags[k])
            && (forall k :: 0 <= k < |s.flags| && k != o ==> s1.flags[k] == s.flags[k])
  {
    var f := s.flags[o];
    var g := Escalate(f);
    var s1 := NotifyStep(s, o);
    if Pushed(g) {
      assert s1.flags[o] == g;
    } else {
      assert s1.flags[o] == WithPushed(g);
    }
  }

  /** The buckets after inserting ns in order: each node that was not yet
      pushed is appended to the ring of its height. */
  ghost function AddAll(s: Sched, rings: seq<seq<NodeId>>, ns: seq<NodeId>): seq<seq<NodeId>>
    requires SchedOk(s) && AllBelow(ns, |s.flags|)
    decreases |ns|
  {
    if ns == [] then rings
    else
      var n := ns[0];
      AddAll(InsertIntoHeap(s, n), if Pushed(s.flags[n]) then rings else AddTo(rings, s.height[n], n), ns[1..])
  }

  /** setSignal's loop keeps the buckets well formed. */
  lemma {:induction false} InsertAllKeepsWf(s: Sched, rings: seq<seq<NodeId>>, ns: seq<NodeId>)
    requires HeapWf(s, rings) && AllBelow(ns, |s.flags|)
    ensures HeapWf(InsertAll(s, ns), AddAll(s, rings, ns))
    decreases |ns|
  {
    if ns != [] {
      var n := ns[0];
      InsertKeepsWf(s, rings, n);
      var rings1 := if Pushed(s.flags[n]) then rings else AddTo(rings, s.height[n], n);
      InsertAllKeepsWf(InsertIntoHeap(s, n), rings1, ns[1..]);
    }
  }

  /** The rings after the notification loop. */
  ghost function NotifyRings(s: Sched, rings: seq<seq<NodeId>>, ns: seq<NodeId>): seq<seq<NodeId>>
    requires SchedOk(s) && AllBelow(ns, |s.flags|)
    decreases |ns|
  {
    if ns == [] then rings
    else
      var n := ns[0];
      NotifyRings(NotifyStep(s, n), if Pushed(s.flags[n]) then rings else AddTo(rings, s.height[n], n), ns[1..])
  }

  /** recompute's notification loop keeps the buckets well formed. */
  lemma {:induction false} NotifyAllKeepsWf(s: Sched, rings: seq<seq<NodeId>>, ns: seq<NodeId>)
    requires HeapWf(s, rings) && AllBelow(ns, |s.flags|)
    ensures HeapWf(NotifyAll(s, ns), NotifyRings(s, rings, ns))
    decreases |ns|
  {
    if ns != [] {
      var n := ns[0];
      var rings1 := if Pushed(s.flags[n]) then rings else AddTo(rings, s.height[n], n);
      NotifyStepKeepsWf(s, rings, n);
      NotifyAllKeepsWf(NotifyStep(s, n), rings1, ns[1..]);
    }
  }

  /** One notification step keeps the buckets well formed. */
  lemma NotifyStepKeepsWf(s: Sched, rings: seq<seq<NodeId>>, n: NodeId)
    requires HeapWf(s, rings) && n < |s.flags|
    ensures HeapWf(NotifyStep(s, n), if Pushed(s.flags[n]) then rings else AddTo(rings, s.height[n], n))
  {
    var g := Escalate(s.flags[n]);
    var s0 := s.(flags := s.flags[n := g]);
    SetFlagKeepsWf(s, rings, n, g);
    InsertKeepsWf(s0, rings, n);
  }

  // ---------------------------------------------------------------------
  // only computeds enter buckets

  /** Every bucket head lies in C, and the ring neighbours of a node in C
      lie in C: with C the computeds, a bucket never leads to a signal. */
  ghost predicate Confined(s: Sched, C: set<NodeId>)
  {
    && (forall h :: 0 <= h < |s.heap| && s.heap[h].Some? ==> s.heap[h].value in C)
    && (forall k :: k in C && k < |s.next| && k < |s.prev| ==> s.next[k] in C && s.prev[k] in C)
  }

  /** Inserting a node of C keeps the buckets within C. */
  lemma InsertConfined(s: Sched, C: set<NodeId>, n: NodeId)
    requires SchedOk(s) && n < |s.flags| && Confined(s, C) && n in C
    ensures Confined(InsertIntoHeap(s, n), C)
  {
    var s' := InsertIntoHeap(s, n);
    if !Pushed(s.flags[n]) {
      var h := s.height[n];
      forall g | 0 <= g < |s'.heap| && s'.heap[g].Some? ensures s'.heap[g].value in C {
        assert At(s'.heap, g) == s'.heap[g];
        if g != h {
          assert At(s.heap, g) == s'.heap[g];
        }
      }
    }
  }

  /** Deleting a node of C keeps the buckets within C. */
  lemma DeleteConfined(s: Sched, C: set<NodeId>, n: NodeId)
    requires SchedOk(s) && n < |s.flags| && Confined(s, C) && n in C
    ensures Confined(DeleteFromHeap(s, n), C)
  {
  }

  /** A fresh node points at itself, so it keeps the buckets within C
      whether or not it joins C. */
  lemma AddNodeConfined(s: Sched, C: set<NodeId>)
    requires SchedOk(s) && Confined(s, C)
    ensures Confined(AddNode(s), C) && Confined(AddNode(s), C + {|s.flags|})
  {
  }

  /** setSignal's loop over subscribers in C keeps the buckets within C. */
  lemma {:induction false} InsertAllConfined(s: Sched, C: set<NodeId>, ns: seq<NodeId>)
    requires SchedOk(s) && AllBelow(ns, |s.flags|) && Confined(s, C)
    requires forall i :: 0 <= i < |ns| ==> ns[i] in C
    ensures Confined(InsertAll(s, ns), C)
    decreases |ns|
  {
    if ns != [] {
      InsertConfined(s, C, ns[0]);
      InsertAllConfined(InsertIntoHeap(s, ns[0]), C, ns[1..]);
    }
  }

  /** recompute's notification loop over subscribers in C keeps the buckets
      within C. */
  lemma {:induction false} NotifyAllConfined(s: Sched, C: set<NodeId>, ns: seq<NodeId>)
    requires SchedOk(s) && AllBelow(ns, |s.flags|) && Confined(s, C)
    requires forall i :: 0 <= i < |ns| ==> ns[i] in C
    ensures Confined(NotifyAll(s, ns), C)
    decreases |ns|
  {
    if ns != [] {
      var o := ns[0];
      var s0 := s.(flags := s.flags[o := Escalate(s.flags[o])]);
      InsertConfined(s0, C, o);
      NotifyAllConfined(NotifyStep(s, o), C, ns[1..]);
    }
  }

  /** The scheduler invariant the engine keeps at all times: N nodes,
      pointers in range, nothing above maxHeightInHeap, buckets within C. */
  ghost predicate Fits(s: Sched, N: nat, C: set<NodeId>)
  {
    |s.flags| == N && SchedOk(s) && AboveMaxEmpty(s) && Confined(s, C)
  }

  /** With the bucket at maxHeightInHeap empty, every bucket from there
      up is empty. */
  lemma EmptyFromMax(s: Sched, N: nat, C: set<NodeId>)
    requires Fits(s, N, C) && At(s.heap, s.maxHeight) == None
    ensures forall h :: h >= s.maxHeight ==> At(s.heap, h) == None
  {
  }

  lemma InsertFits(s: Sched, N: nat, C: set<NodeId>, n: NodeId)
    requires Fits(s, N, C) && n < N && n in C
    ensures Fits(InsertIntoHeap(s, n), N, C)
  {
    InsertConfined(s, C, n);
  }

  lemma DeleteFits(s: Sched, N: nat, C: set<NodeId>, n: NodeId)
    requires Fits(s, N, C) && n < N && n in C
    ensures Fits(DeleteFromHeap(s, n), N, C)
  {
    DeleteConfined(s, C, n);
  }

  lemma InsertAllFits(s: Sched, N: nat, C: set<NodeId>, ns: seq<NodeId>)
    requires Fits(s, N, C) && AllBelow(ns, N) && forall i :: 0 <= i < |ns| ==> ns[i] in C
    ensures Fits(InsertAll(s, ns), N, C)
  {
    InsertAllConfined(s, C, ns);
  }

  lemma NotifyAllFits(s: Sched, N: nat, C: set<NodeId>, ns: seq<NodeId>)
    requires Fits(s, N, C) && AllBelow(ns, N) && forall i :: 0 <= i < |ns| ==> ns[i] in C
    ensures Fits(NotifyAll(s, ns), N, C)
  {
    NotifyAllConfined(s, C, ns);
  }

  lemma AddNodeFits(s: Sched, N: nat, C: set<NodeId>)
    requires Fits(s, N, C)
    ensures Fits(AddNode(s), N + 1, C) && Fits(AddNode(s), N + 1, C + {N})
  {
    AddNodeConfined(s, C);
  }

  /** Flags and heights do not enter the invariant. */
  lemma FitsIgnoresLevels(s: Sched, N: nat, C: set<NodeId>, f: seq<Flags>, h: seq<nat>)
    requires Fits(s, N, C) && |f| == N && |h| == N
    ensures Fits(s.(flags := f, height := h), N, C)
  {
  }

  // ---------------------------------------------------------------------
  // heights

  /** `if (el.height >= context.height) context.height = el.height + 1`
      (src/index.ts:258-260): the reader c is lifted just above el, and
      only when it is not above el already. */
  function Raise(s: Sched, el: NodeId, c: NodeId): (r: Sched)
    requires SchedOk(s) && el < |s.flags| && c < |s.flags|
    ensures SchedOk(r) && r == s.(height := r.height) && |r.height| == |s.height|
    ensures c != el ==> r.height[c] > r.height[el]
    ensures s.height[c] > s.height[el] ==> r == s
    ensures s.height[c] <= s.height[el] ==> r.height[c] == s.height[el] + 1
    ensures forall k :: 0 <= k < |s.height| && k != c ==> r.height[k] == s.height[k]
  {
    if s.height[el] >= s.height[c] then s.(height := s.height[c := s.height[el] + 1]) else s
  }
}
