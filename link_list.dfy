/** The intrusive doubly-linked lists of `Link` records (src/index.ts:8-15,
    158-234).  Every link sits on two lists at once, a consumer's `deps` list
    (threaded by prevDep/nextDep) and a producer's `subs` list (threaded by
    prevSub/nextSub); each pair of pointer arrays is shared by all the lists
    of its kind.  This module states what it means for a list of link ids to
    be threaded by such a pair, and proves that the two splices the source
    performs, insertion of a fresh link and detachment of a link, keep the
    threading. */
module LinkList {
  import opened Common

  type LinkId = nat

  /** The `prev`/`next` pointer arrays of one list kind, indexed by link id. */
  datatype Ptrs = Ptrs(prev: seq<Option<LinkId>>, next: seq<Option<LinkId>>)

  /** Both arrays cover the same links and every pointer names a link. */
  ghost predicate WellSized(p: Ptrs)
  {
    && |p.prev| == |p.next|
    && (forall y :: 0 <= y < |p.prev| && p.prev[y].Some? ==> p.prev[y].value < |p.prev|)
    && (forall y :: 0 <= y < |p.next| && p.next[y].Some? ==> p.next[y].value < |p.next|)
  }

  /** `p` threads the links of L in this order: the first has no
      predecessor, the last no successor. */
  ghost predicate Threaded(L: seq<LinkId>, p: Ptrs)
  {
    && (forall i :: 0 <= i < |L| ==> L[i] < |p.prev| && L[i] < |p.next|)
    && (forall i {:trigger p.prev[L[i]]} :: 0 <= i < |L| ==> p.prev[L[i]] == Before(L, i))
    && (forall i {:trigger p.next[L[i]]} :: 0 <= i < |L| ==> p.next[L[i]] == After(L, i))
  }

  /** The neighbour before position i of a list, None at its head. */
  function Before(L: seq<LinkId>, i: nat): Option<LinkId>
    requires i < |L|
  {
    if i == 0 then None else Some(L[i - 1])
  }

  /** The neighbour after position i of a list, None at its tail. */
  function After(L: seq<LinkId>, i: nat): Option<LinkId>
    requires i < |L|
  {
    if i + 1 == |L| then None else Some(L[i + 1])
  }

  /** Following `next` from position i of a threaded list reaches position
      i + 1, or null past the tail. */
  lemma ThreadedNext(L: seq<LinkId>, p: Ptrs, i: nat)
    requires Threaded(L, p) && i < |L|
    ensures L[i] < |p.next| && p.next[L[i]] == if i + 1 < |L| then Some(L[i + 1]) else None
  {
    assert p.next[L[i]] == After(L, i);
  }

  /** The pointer of a fresh link `|p.prev|` placed between `before` and
      `after` (the object literal and the two fix-ups of
      src/index.ts:210-228; head and tail fields are updated by the caller). */
  function SpliceIn(p: Ptrs, before: Option<LinkId>, after: Option<LinkId>): (r: Ptrs)
    requires WellSized(p)
    requires before.Some? ==> before.value < |p.prev|
    requires after.Some? ==> after.value < |p.prev|
    ensures WellSized(r) && |r.prev| == |p.prev| + 1
    ensures r.prev[|p.prev|] == before && r.next[|p.prev|] == after
    ensures forall y :: 0 <= y < |p.prev| && Some(y) != before ==> r.next[y] == p.next[y]
    ensures forall y :: 0 <= y < |p.prev| && Some(y) != after ==> r.prev[y] == p.prev[y]
    ensures before.Some? ==> r.next[before.value] == Some(|p.prev|)
    ensures after.Some? ==> r.prev[after.value] == Some(|p.prev|)
  {
    var x := |p.prev|;
    var prev1 := p.prev + [before];
    var next1 := p.next + [after];
    Ptrs(
      if after.Some? then prev1[after.value := Some(x)] else prev1,
      if before.Some? then next1[before.value := Some(x)] else next1)
  }

  /** The pointer part of unlink for one list (src/index.ts:164-183): the
      successor's prev skips the link and the predecessor's next skips it;
      the detached link keeps its own stale pointers. */
  function Detach(p: Ptrs, l: LinkId): (r: Ptrs)
    requires WellSized(p) && l < |p.prev|
    ensures WellSized(r) && |r.prev| == |p.prev|
    ensures forall y :: 0 <= y < |p.prev| && Some(y) != p.prev[l] ==> r.next[y] == p.next[y]
    ensures forall y :: 0 <= y < |p.prev| && Some(y) != p.next[l] ==> r.prev[y] == p.prev[y]
  {
    var before := p.prev[l];
    var after := p.next[l];
    Ptrs(
      if after.Some? then p.prev[after.value := before] else p.prev,
      if before.Some? then p.next[before.value := after] else p.next)
  }

  /** Threading of a list survives changes to the pointers of other links. */
  lemma {:induction false} ThreadedFrame(L: seq<LinkId>, p: Ptrs, p': Ptrs)
    requires Threaded(L, p)
    requires forall y :: y in L ==> y < |p'.prev| && y < |p'.next| && p'.prev[y] == p.prev[y] && p'.next[y] == p.next[y]
    ensures Threaded(L, p')
  {
    forall i | 0 <= i < |L|
      ensures L[i] < |p'.prev| && L[i] < |p'.next|
      ensures p'.prev[L[i]] == p.prev[L[i]] && p'.next[L[i]] == p.next[L[i]]
    {
      assert L[i] in L;
    }
  }

  /** A fresh link spliced in between positions k-1 and k takes position k
      of the list, and the list stays threaded. */
  lemma {:induction false} SpliceInThreaded(L: seq<LinkId>, k: nat, p: Ptrs)
    requires WellSized(p) && Threaded(L, p) && Distinct(L) && k <= |L|
    ensures var before := if k > 0 then Some(L[k - 1]) else None;
            var after := if k < |L| then Some(L[k]) else None;
            Threaded(L[..k] + [|p.prev|] + L[k..], SpliceIn(p, before, after))
  {
    var x := |p.prev|;
    var before := if k > 0 then Some(L[k - 1]) else None;
    var after := if k < |L| then Some(L[k]) else None;
    var r := SpliceIn(p, before, after);
    var L' := L[..k] + [x] + L[k..];
    forall i | 0 <= i < |L'|
      ensures L'[i] < |r.prev| && L'[i] < |r.next|
      ensures r.prev[L'[i]] == Before(L', i) && r.next[L'[i]] == After(L', i)
    {
      if i < k {
        SpliceInLeft(L, k, p, i);
      } else if i > k {
        SpliceInRight(L, k, p, i);
      } else {
        assert L'[i] == x;
        if i > 0 {
          assert L'[i - 1] == L[k - 1];
        }
        if i + 1 < |L'| {
          assert L'[i + 1] == L[k];
        }
      }
    }
    assert Threaded(L', r);
  }

  /** SpliceInThreaded at a position before the fresh link. */
  lemma {:induction false} SpliceInLeft(L: seq<LinkId>, k: nat, p: Ptrs, i: nat)
    requires WellSized(p) && Threaded(L, p) && Distinct(L) && i < k <= |L|
    ensures var before := if k > 0 then Some(L[k - 1]) else None;
            var after := if k < |L| then Some(L[k]) else None;
            var r := SpliceIn(p, before, after);
            var L' := L[..k] + [|p.prev|] + L[k..];
            && L'[i] == L[i] && L[i] < |r.prev| && L[i] < |r.next|
            && r.prev[L[i]] == Before(L', i) && r.next[L[i]] == After(L', i)
  {
    var L' := L[..k] + [|p.prev|] + L[k..];
    assert L'[i] == L[i] && p.prev[L[i]] == Before(L, i) && p.next[L[i]] == After(L, i);
    if i + 1 < k {
      assert L[i] != L[k - 1] && L'[i + 1] == L[i + 1];
    }
    if i > 0 {
      assert L'[i - 1] == L[i - 1];
    }
    if k < |L| {
      assert L[i] != L[k];
    }
  }

  /** SpliceInThreaded at a position after the fresh link. */
  lemma {:induction false} SpliceInRight(L: seq<LinkId>, k: nat, p: Ptrs, i: nat)
    requires WellSized(p) && Threaded(L, p) && Distinct(L) && k < i <= |L|
    ensures var before := if k > 0 then Some(L[k - 1]) else None;
            var after := if k < |L| then Some(L[k]) else None;
            var r := SpliceIn(p, before, after);
            var L' := L[..k] + [|p.prev|] + L[k..];
            && L'[i] == L[i - 1] && L[i - 1] < |r.prev| && L[i - 1] < |r.next|
            && r.prev[L[i - 1]] == Before(L', i) && r.next[L[i - 1]] == After(L', i)
  {
    var L' := L[..k] + [|p.prev|] + L[k..];
    assert L'[i] == L[i - 1] && p.prev[L[i - 1]] == Before(L, i - 1) && p.next[L[i - 1]] == After(L, i - 1);
    if i - 1 > k {
      assert L[i - 1] != L[k] && L'[i - 1] == L[i - 2];
    }
    if i + 1 < |L'| {
      assert L'[i + 1] == L[i];
    }
    if k > 0 {
      assert L[i - 1] != L[k - 1];
    }
  }

  /** Detaching the link at position k removes it from the list, and the
      rest of the list stays threaded. */
  lemma {:induction false} DetachThreaded(L: seq<LinkId>, k: nat, p: Ptrs)
    requires WellSized(p) && Threaded(L, p) && Distinct(L) && k < |L|
    ensures Threaded(RemoveAt(L, k), Detach(p, L[k]))
  {
    var l := L[k];
    var r := Detach(p, l);
    var L' := RemoveAt(L, k);
    forall j | 0 <= j < |L'|
      ensures L'[j] < |r.prev| && L'[j] < |r.next|
      ensures r.prev[L'[j]] == Before(L', j) && r.next[L'[j]] == After(L', j)
    {
      var j' := if j < k then j else j + 1;
      assert L'[j] == L[j'] && L[j'] != l;
      if j > 0 {
        assert L'[j - 1] == if j' == k + 1 then L[k - 1] else L[j' - 1];
      }
      if j + 1 < |L'| {
        assert L'[j + 1] == if j' == k - 1 then L[k + 1] else L[j' + 1];
      }
      if j' == k - 1 {
        assert p.prev[l] == Some(L[j']);
      } else if k > 0 {
        assert L[j'] != L[k - 1];
      }
      if j' == k + 1 {
        assert p.next[l] == Some(L[j']);
      } else if k + 1 < |L| {
        assert L[j'] != L[k + 1];
      }
    }
    assert Threaded(L', r);
  }

  /** Where the ends of a list go when the link at position k is detached:
      a removed head is succeeded by its next link, a removed tail by its
      previous one. */
  lemma {:induction false} DetachEnds(L: seq<LinkId>, k: nat, p: Ptrs)
    requires Threaded(L, p) && k < |L|
    ensures First(RemoveAt(L, k)) == if k == 0 then p.next[L[k]] else First(L)
    ensures Last(RemoveAt(L, k)) == if k + 1 == |L| then p.prev[L[k]] else Last(L)
  {
    var L' := RemoveAt(L, k);
    if k == 0 && |L| > 1 {
      assert L'[0] == L[1];
    } else if k > 0 {
      assert L'[0] == L[0];
    }
    if k + 1 == |L| && k > 0 {
      assert L'[k - 1] == L[k - 1];
    } else if k + 1 == |L| {
      assert L' == [] && p.prev[L[0]] == None;
    } else {
      assert L'[|L'| - 1] == L[|L| - 1];
    }
  }
}
