/** The edge store of src/index.ts: `link`, `unlink` and `isValidLink`
    (src/index.ts:158-251) stated as functions on a view of every field they
    touch, together with the abstract lists those pointers encode.

    Each consumer n has a dependency list depList[n] (its `deps`, threaded by
    prevDep/nextDep) whose first confirmed[n] links are the ones confirmed by
    reads of the current evaluation; `depsTail` points at the last confirmed
    link.  Each producer n has a subscriber list subList[n] (its `subs`,
    threaded by prevSub/nextSub) with `subsTail` at its real end. */
module EdgeStore {
  import opened Common
  import opened LinkList

  type NodeId = nat

  datatype Edges = Edges(
    deps: seq<Option<LinkId>>, depsTail: seq<Option<LinkId>>,
    subs: seq<Option<LinkId>>, subsTail: seq<Option<LinkId>>,
    dep: seq<NodeId>, sub: seq<NodeId>,
    depPtrs: Ptrs, subPtrs: Ptrs,
    depList: seq<seq<LinkId>>, subList: seq<seq<LinkId>>, confirmed: seq<nat>)

  /** The pointer fields proper: each node's deps/depsTail/subs/subsTail,
      each link's dep, sub and its two pairs of list pointers. */
  datatype Wiring = Wiring(
    deps: seq<Option<LinkId>>, depsTail: seq<Option<LinkId>>,
    subs: seq<Option<LinkId>>, subsTail: seq<Option<LinkId>>,
    dep: seq<NodeId>, sub: seq<NodeId>,
    depPtrs: Ptrs, subPtrs: Ptrs)

  /** The abstract lists the pointers thread, and each consumer's count of
      confirmed dependencies; proof-only bookkeeping. */
  datatype Lists = Lists(depList: seq<seq<LinkId>>, subList: seq<seq<LinkId>>, confirmed: seq<nat>)

  function Join(w: Wiring, l: Lists): Edges
  {
    Edges(w.deps, w.depsTail, w.subs, w.subsTail, w.dep, w.sub, w.depPtrs, w.subPtrs,
          l.depList, l.subList, l.confirmed)
  }

  ghost predicate Sized(e: Edges)
  {
    var N := |e.depList|;
    var M := |e.dep|;
    && |e.deps| == N && |e.depsTail| == N && |e.subs| == N && |e.subsTail| == N
    && |e.subList| == N && |e.confirmed| == N
    && |e.sub| == M && |e.depPtrs.prev| == M && |e.subPtrs.prev| == M
    && WellSized(e.depPtrs) && WellSized(e.subPtrs)
    && (forall l :: 0 <= l < M ==> e.dep[l] < N && e.sub[l] < N)
  }

  /** Consumer n's dependency list is threaded, has `deps` as head and
      `depsTail` at its last confirmed link, and each of its links has n as
      `sub` and is on its producer's subscriber list. */
  ghost predicate DepsOk(e: Edges, n: NodeId)
    requires Sized(e) && n < |e.depList|
  {
    DepsShape(e, n) && DepsCross(e, n)
  }

  /** The list of consumer n as its pointers thread it. */
  ghost predicate DepsShape(e: Edges, n: NodeId)
    requires Sized(e) && n < |e.depList|
  {
    var L := e.depList[n];
    && Threaded(L, e.depPtrs) && Distinct(L)
    && e.deps[n] == First(L)
    && e.confirmed[n] <= |L|
    && e.depsTail[n] == (if e.confirmed[n] == 0 then None else Some(L[e.confirmed[n] - 1]))
  }

  /** Every link on consumer n's list reads into n and is on its producer's list. */
  ghost predicate DepsCross(e: Edges, n: NodeId)
    requires Sized(e) && n < |e.depList|
  {
    var L := e.depList[n];
    forall i :: 0 <= i < |L| ==> L[i] < |e.dep| && e.sub[L[i]] == n && L[i] in e.subList[e.dep[L[i]]]
  }

  /** Producer n's subscriber list is threaded between `subs` and
      `subsTail`, and each of its links has n as `dep` and is on its
      consumer's dependency list. */
  ghost predicate SubsOk(e: Edges, n: NodeId)
    requires Sized(e) && n < |e.depList|
  {
    SubsShape(e, n) && SubsCross(e, n)
  }

  /** The list of producer n as its pointers thread it. */
  ghost predicate SubsShape(e: Edges, n: NodeId)
    requires Sized(e) && n < |e.depList|
  {
    var S := e.subList[n];
    && Threaded(S, e.subPtrs) && Distinct(S)
    && e.subs[n] == First(S) && e.subsTail[n] == Last(S)
  }

  /** Every link on producer n's list comes from n and is on its consumer's list. */
  ghost predicate SubsCross(e: Edges, n: NodeId)
    requires Sized(e) && n < |e.depList|
  {
    var S := e.subList[n];
    forall i :: 0 <= i < |S| ==> S[i] < |e.dep| && e.dep[S[i]] == n && S[i] in e.depList[e.sub[S[i]]]
  }

  /** The edge-store invariant: both lists of every node are well formed and
      mutually consistent (every edge is on exactly the two lists of its
      endpoints). */
  ghost predicate EdgesOk(e: Edges)
  {
    && Sized(e)
    && forall n :: 0 <= n < |e.depList| ==> DepsOk(e, n) && SubsOk(e, n)
  }

  /** Consumer n's list keeps its shape in a store that agrees with e on
      n's fields and list, and whose pointers still thread that list. */
  lemma DepsShapeTransfer(e: Edges, e': Edges, n: NodeId)
    requires Sized(e) && Sized(e') && n < |e.depList| && n < |e'.depList| && DepsShape(e, n)
    requires e'.depList[n] == e.depList[n] && e'.deps[n] == e.deps[n]
    requires e'.depsTail[n] == e.depsTail[n] && e'.confirmed[n] == e.confirmed[n]
    requires Threaded(e.depList[n], e'.depPtrs)
    ensures DepsShape(e', n)
  {
  }

  /** Producer n's list keeps its shape in a store that agrees with e on
      n's fields and list, and whose pointers still thread that list. */
  lemma SubsShapeTransfer(e: Edges, e': Edges, n: NodeId)
    requires Sized(e) && Sized(e') && n < |e.depList| && n < |e'.depList| && SubsShape(e, n)
    requires e'.subList[n] == e.subList[n] && e'.subs[n] == e.subs[n] && e'.subsTail[n] == e.subsTail[n]
    requires Threaded(e.subList[n], e'.subPtrs)
    ensures SubsShape(e', n)
  {
  }

  /** The links of consumer s confirmed by the current evaluation. */
  ghost function Confirmed(e: Edges, s: NodeId): seq<LinkId>
    requires Sized(e) && s < |e.depList| && e.confirmed[s] <= |e.depList[s]|
  {
    e.depList[s][..e.confirmed[s]]
  }

  /** `link(dep, sub)` (src/index.ts:187-234), on the abstract lists: the
      three early returns (the last confirmed link already comes from dep;
      the next unconfirmed one does, and is confirmed; dep's newest
      subscriber link is already one of sub's confirmed links), else a
      fresh link. */
  ghost function Link(e: Edges, d: NodeId, s: NodeId): Edges
    requires Sized(e) && d < |e.depList| && s < |e.depList| && DepsOk(e, s) && SubsOk(e, d)
  {
    var L := e.depList[s];
    var c := e.confirmed[s];
    assert DepsShape(e, s) && DepsCross(e, s) && SubsShape(e, d);
    if c > 0 && e.dep[L[c - 1]] == d then
      e
    else if c < |L| && e.dep[L[c]] == d then
      e.(depsTail := e.depsTail[s := Some(L[c])], confirmed := e.confirmed[s := c + 1])
    else if e.subsTail[d].Some? && e.sub[e.subsTail[d].value] == s && e.subsTail[d].value in L[..c] then
      e
    else
      Append(e, d, s)
  }

  /** The slow path of link: a fresh link |dep| goes right after sub's
      confirmed prefix and at the end of d's subscribers. */
  ghost function Append(e: Edges, d: NodeId, s: NodeId): Edges
    requires Sized(e) && d < |e.depList| && s < |e.depList|
    requires e.confirmed[s] <= |e.depList[s]|
    requires forall i :: 0 <= i < |e.depList[s]| ==> e.depList[s][i] < |e.dep|
    requires e.subsTail[d].Some? ==> e.subsTail[d].value < |e.dep|
  {
    var L := e.depList[s];
    var c := e.confirmed[s];
    var x := |e.dep|;
    var before := if c > 0 then Some(L[c - 1]) else None;
    var after := if c < |L| then Some(L[c]) else None;
    var prevSub := e.subsTail[d];
    assert before.Some? ==> before.value < |e.dep|;
    assert after.Some? ==> after.value < |e.dep|;
    Edges(
      if before.None? then e.deps[s := Some(x)] else e.deps,
      e.depsTail[s := Some(x)],
      if prevSub.None? then e.subs[d := Some(x)] else e.subs,
      e.subsTail[d := Some(x)],
      e.dep + [d], e.sub + [s],
      SpliceIn(e.depPtrs, before, after), SpliceIn(e.subPtrs, prevSub, None),
      e.depList[s := L[..c] + [x] + L[c..]],
      e.subList[d := e.subList[d] + [x]],
      e.confirmed[s := c + 1])
  }

  /** `l` is on its consumer's dependency list. */
  ghost predicate Live(e: Edges, l: LinkId)
    requires Sized(e)
  {
    l < |e.dep| && l in e.depList[e.sub[l]]
  }

  /** `unlink(link)` (src/index.ts:158-185), on the abstract lists.  Its one
      caller, recompute, only unlinks links past the confirmed prefix. */
  ghost function Unlink(e: Edges, l: LinkId): Edges
    requires EdgesOk(e) && Live(e, l)
    requires IndexOf(e.depList[e.sub[l]], l) >= e.confirmed[e.sub[l]]
  {
    var s := e.sub[l];
    var d := e.dep[l];
    assert DepsOk(e, s);
    var L := e.depList[s];
    var k := IndexOf(L, l);
    assert L[k] in e.subList[d];
    Remove(e, l, k, IndexOf(e.subList[d], l))
  }

  /** The field updates of unlink for the link at position k of its
      consumer's list and position j of its producer's list. */
  ghost function Remove(e: Edges, l: LinkId, k: nat, j: nat): Edges
    requires Sized(e) && l < |e.dep|
    requires k < |e.depList[e.sub[l]]| && e.depList[e.sub[l]][k] == l
    requires j < |e.subList[e.dep[l]]| && e.subList[e.dep[l]][j] == l
  {
    var s := e.sub[l];
    var d := e.dep[l];
    var prevDep := e.depPtrs.prev[l];
    var nextDep := e.depPtrs.next[l];
    var prevSub := e.subPtrs.prev[l];
    var nextSub := e.subPtrs.next[l];
    Edges(
      if prevDep.None? then e.deps[s := nextDep] else e.deps,
      if nextDep.None? then e.depsTail[s := prevDep] else e.depsTail,
      if prevSub.None? then e.subs[d := nextSub] else e.subs,
      if nextSub.None? then e.subsTail[d := prevSub] else e.subsTail,
      e.dep, e.sub,
      Detach(e.depPtrs, l), Detach(e.subPtrs, l),
      e.depList[s := RemoveAt(e.depList[s], k)],
      e.subList[d := RemoveAt(e.subList[d], j)],
      e.confirmed[s := if k + 1 == |e.depList[s]| then k else e.confirmed[s]])
  }

  // ---------------------------------------------------------------------
  // link

  lemma InsertContains(L: seq<LinkId>, c: nat, x: LinkId, y: LinkId)
    requires c <= |L| && y in L
    ensures y in L[..c] + [x] + L[c..]
  {
    var i :| 0 <= i < |L| && L[i] == y;
    if i < c {
      assert (L[..c] + [x] + L[c..])[i] == y;
    } else {
      assert (L[..c] + [x] + L[c..])[i + 1] == y;
    }
  }

  lemma InsertDistinct(L: seq<LinkId>, c: nat, x: LinkId)
    requires c <= |L| && Distinct(L) && x !in L
    ensures Distinct(L[..c] + [x] + L[c..])
  {
    var L' := L[..c] + [x] + L[c..];
    forall i, j | 0 <= i < j < |L'| ensures L'[i] != L'[j] {
      var i' := if i < c then i else i - 1;
      var j' := if j < c then j else j - 1;
      if i == c {
        assert L'[j] == L[j'] && L[j'] in L;
      } else if j == c {
        assert L'[i] == L[i'] && L[i'] in L;
      } else {
        assert L'[i] == L[i'] && L'[j] == L[j'];
      }
    }
  }

  lemma FreshNotIn(e: Edges, n: NodeId)
    requires EdgesOk(e) && n < |e.depList|
    ensures |e.dep| !in e.depList[n] && |e.dep| !in e.subList[n]
    ensures forall y :: y in e.depList[n] ==> y < |e.dep|
    ensures forall y :: y in e.subList[n] ==> y < |e.dep|
  {
    assert DepsOk(e, n) && SubsOk(e, n);
  }

  /** Where the fresh link of Append goes, as the pointers show it: sub's
      depsTail is the link before it, and the successor of that link (or
      sub's head) the link after it. */
  ghost predicate AppendAt(e: Edges, d: NodeId, s: NodeId)
    requires Sized(e) && d < |e.depList| && s < |e.depList| && AppendReadyFacts(e, d, s)
  {
    var L := e.depList[s];
    var c := e.confirmed[s];
    var after := if c < |L| then Some(L[c]) else None;
    && e.depsTail[s] == (if c > 0 then Some(L[c - 1]) else None)
    && (if c > 0 then e.depPtrs.next[L[c - 1]] else e.deps[s]) == after
  }

  lemma AppendAtFromDepsOk(e: Edges, d: NodeId, s: NodeId)
    requires Sized(e) && d < |e.depList| && s < |e.depList| && DepsOk(e, s) && SubsOk(e, d)
    ensures AppendReadyFacts(e, d, s) && AppendAt(e, d, s)
  {
    var L := e.depList[s];
    var c := e.confirmed[s];
    assert DepsShape(e, s) && SubsCross(e, d);
    if c > 0 {
      assert Threaded(L, e.depPtrs) && c <= |L|;
      assert e.depPtrs.next[L[c - 1]] == if c == |L| then None else Some(L[c]);
    }
  }

  /** Append as the three groups of field updates the source performs: the
      new link record, the consumer-side splice and the producer-side
      splice. */
  lemma AppendSteps(e: Edges, d: NodeId, s: NodeId)
    requires Sized(e) && d < |e.depList| && s < |e.depList| && AppendReadyFacts(e, d, s)
    ensures var L := e.depList[s];
            var c := e.confirmed[s];
            var x := |e.dep|;
            var before := if c > 0 then Some(L[c - 1]) else None;
            var after := if c < |L| then Some(L[c]) else None;
            var prevSub := e.subsTail[d];
            var e1 := e.(dep := e.dep + [d], sub := e.sub + [s],
                         depPtrs := Ptrs(e.depPtrs.prev + [before], e.depPtrs.next + [after]),
                         subPtrs := Ptrs(e.subPtrs.prev + [prevSub], e.subPtrs.next + [None]));
            var e2 := e1.(deps := if before.None? then e1.deps[s := Some(x)] else e1.deps,
                          depsTail := e1.depsTail[s := Some(x)],
                          depPtrs := Ptrs(if after.Some? then e1.depPtrs.prev[after.value := Some(x)] else e1.depPtrs.prev,
                                          if before.Some? then e1.depPtrs.next[before.value := Some(x)] else e1.depPtrs.next),
                          depList := e1.depList[s := e1.depList[s][..c] + [x] + e1.depList[s][c..]],
                          confirmed := e1.confirmed[s := c + 1]);
            var e3 := e2.(subs := if prevSub.None? then e2.subs[d := Some(x)] else e2.subs,
                          subsTail := e2.subsTail[d := Some(x)],
                          subPtrs := Ptrs(e2.subPtrs.prev,
                                          if prevSub.Some? then e2.subPtrs.next[prevSub.value := Some(x)] else e2.subPtrs.next),
                          subList := e2.subList[d := e2.subList[d] + [x]]);
            Append(e, d, s) == e3
  {
  }

  /** Append's preconditions hold in a well-formed store. */
  lemma AppendReady(e: Edges, d: NodeId, s: NodeId)
    requires Sized(e) && d < |e.depList| && s < |e.depList| && DepsOk(e, s) && SubsOk(e, d)
    ensures AppendReadyFacts(e, d, s)
  {
  }

  lemma AppendSized(e: Edges, d: NodeId, s: NodeId)
    requires Sized(e) && d < |e.depList| && s < |e.depList| && AppendReadyFacts(e, d, s)
    ensures Sized(Append(e, d, s))
  {
  }

  ghost predicate AppendReadyFacts(e: Edges, d: NodeId, s: NodeId)
    requires Sized(e) && d < |e.depList| && s < |e.depList|
  {
    && e.confirmed[s] <= |e.depList[s]|
    && (forall i :: 0 <= i < |e.depList[s]| ==> e.depList[s][i] < |e.dep|)
    && (e.subsTail[d].Some? ==> e.subsTail[d].value < |e.dep|)
  }

  /** An old link keeps its endpoints across Append, and stays on every list
      it was on. */
  lemma AppendKeepsLink(e: Edges, d: NodeId, s: NodeId, y: LinkId, m: NodeId)
    requires Sized(e) && d < |e.depList| && s < |e.depList| && AppendReadyFacts(e, d, s)
    requires y < |e.dep| && m < |e.depList|
    ensures Append(e, d, s).dep[y] == e.dep[y] && Append(e, d, s).sub[y] == e.sub[y]
    ensures y in e.subList[m] ==> y in Append(e, d, s).subList[m]
    ensures y in e.depList[m] ==> y in Append(e, d, s).depList[m]
  {
    if m == d && y in e.subList[d] {
      assert y in e.subList[d] + [|e.dep|];
    }
    if m == s && y in e.depList[s] {
      InsertContains(e.depList[s], e.confirmed[s], |e.dep|, y);
    }
  }

  /** Appending keeps the dependency list of the consumer s well formed. */
  lemma AppendDepsOkSelf(e: Edges, d: NodeId, s: NodeId)
    requires Sized(e) && d < |e.depList| && s < |e.depList| && AppendReadyFacts(e, d, s)
    requires DepsOk(e, s)
    ensures Sized(Append(e, d, s)) && DepsOk(Append(e, d, s), s)
  {
    AppendDepsShapeSelf(e, d, s);
    AppendDepsCrossSelf(e, d, s);
  }

  lemma AppendDepsShapeSelf(e: Edges, d: NodeId, s: NodeId)
    requires Sized(e) && d < |e.depList| && s < |e.depList| && AppendReadyFacts(e, d, s)
    requires DepsShape(e, s)
    ensures Sized(Append(e, d, s)) && DepsShape(Append(e, d, s), s)
  {
    AppendSized(e, d, s);
    var e' := Append(e, d, s);
    var L := e.depList[s];
    var c := e.confirmed[s];
    var x := |e.dep|;
    var before := if c > 0 then Some(L[c - 1]) else None;
    var after := if c < |L| then Some(L[c]) else None;
    assert x !in L;
    var L' := L[..c] + [x] + L[c..];
    assert e'.depList[s] == L' && e'.depPtrs == SpliceIn(e.depPtrs, before, after);
    SpliceInThreaded(L, c, e.depPtrs);
    InsertDistinct(L, c, x);
    assert L'[c] == x;
    if c > 0 {
      assert L'[c - 1] == L[c - 1] && L'[0] == L[0];
    }
  }

  lemma AppendDepsCrossSelf(e: Edges, d: NodeId, s: NodeId)
    requires Sized(e) && d < |e.depList| && s < |e.depList| && AppendReadyFacts(e, d, s)
    requires DepsCross(e, s)
    ensures Sized(Append(e, d, s)) && DepsCross(Append(e, d, s), s)
  {
    AppendSized(e, d, s);
    var e' := Append(e, d, s);
    var L := e.depList[s];
    var c := e.confirmed[s];
    var x := |e.dep|;
    var L' := L[..c] + [x] + L[c..];
    assert e'.depList[s] == L';
    forall i | 0 <= i < |L'|
      ensures L'[i] < |e'.dep| && e'.sub[L'[i]] == s && L'[i] in e'.subList[e'.dep[L'[i]]]
    {
      if i != c {
        var i0 := if i < c then i else i - 1;
        assert L'[i] == L[i0];
        AppendKeepsLink(e, d, s, L[i0], e.dep[L[i0]]);
      } else {
        assert e'.subList[d][|e.subList[d]|] == x;
      }
    }
  }

  /** Appending leaves the dependency list of every other consumer well formed. */
  lemma AppendDepsOkOther(e: Edges, d: NodeId, s: NodeId, n: NodeId)
    requires Sized(e) && d < |e.depList| && s < |e.depList| && AppendReadyFacts(e, d, s)
    requires n < |e.depList| && n != s && DepsOk(e, s) && DepsOk(e, n)
    ensures Sized(Append(e, d, s)) && DepsOk(Append(e, d, s), n)
  {
    AppendSized(e, d, s);
    var e' := Append(e, d, s);
    var L := e.depList[s];
    var c := e.confirmed[s];
    var x := |e.dep|;
    var Ln := e.depList[n];
    assert e'.depList[n] == Ln;
    AppendDepPtrsFrame(e, d, s, n);
    ThreadedFrame(Ln, e.depPtrs, e'.depPtrs);
    DepsShapeTransfer(e, e', n);
    AppendDepsCross(e, d, s, Ln, n);
  }

  /** The links of a list whose entries all lead from some producer to n
      keep doing so, and stay on their producers' lists, across Append. */
  lemma AppendDepsCross(e: Edges, d: NodeId, s: NodeId, Ln: seq<LinkId>, n: NodeId)
    requires Sized(e) && d < |e.depList| && s < |e.depList| && AppendReadyFacts(e, d, s)
    requires forall i :: 0 <= i < |Ln| ==> Ln[i] < |e.dep| && e.sub[Ln[i]] == n && Ln[i] in e.subList[e.dep[Ln[i]]]
    ensures var e' := Append(e, d, s);
            forall i :: 0 <= i < |Ln| ==> Ln[i] < |e'.dep| && e'.sub[Ln[i]] == n && Ln[i] in e'.subList[e'.dep[Ln[i]]]
  {
    forall i | 0 <= i < |Ln|
      ensures Ln[i] < |Append(e, d, s).dep|
      ensures Append(e, d, s).sub[Ln[i]] == n && Ln[i] in Append(e, d, s).subList[Append(e, d, s).dep[Ln[i]]]
    {
      AppendKeepsLink(e, d, s, Ln[i], e.dep[Ln[i]]);
    }
  }

  lemma AppendDepPtrsFrame(e: Edges, d: NodeId, s: NodeId, n: NodeId)
    requires Sized(e) && d < |e.depList| && s < |e.depList| && AppendReadyFacts(e, d, s)
    requires n < |e.depList| && n != s && DepsOk(e, s) && DepsOk(e, n)
    ensures var p' := Append(e, d, s).depPtrs;
            forall y :: y in e.depList[n] ==>
              y < |p'.prev| && y < |p'.next| && p'.prev[y] == e.depPtrs.prev[y] && p'.next[y] == e.depPtrs.next[y]
  {
    var L := e.depList[s];
    var c := e.confirmed[s];
    var before := if c > 0 then Some(L[c - 1]) else None;
    var after := if c < |L| then Some(L[c]) else None;
    var p' := SpliceIn(e.depPtrs, before, after);
    assert Append(e, d, s).depPtrs == p';
    var Ln := e.depList[n];
    forall y | y in Ln
      ensures y < |p'.prev| && y < |p'.next| && p'.prev[y] == e.depPtrs.prev[y] && p'.next[y] == e.depPtrs.next[y]
    {
      var i :| 0 <= i < |Ln| && Ln[i] == y;
      assert e.sub[y] == n;
      assert c < |L| ==> e.sub[L[c]] == s && Some(y) != after;
      assert c > 0 ==> e.sub[L[c - 1]] == s && Some(y) != before;
    }
  }

  /** Appending keeps the subscriber list of the producer d well formed. */
  lemma AppendSubsOkSelf(e: Edges, d: NodeId, s: NodeId)
    requires Sized(e) && d < |e.depList| && s < |e.depList| && AppendReadyFacts(e, d, s)
    requires SubsOk(e, d)
    ensures Sized(Append(e, d, s)) && SubsOk(Append(e, d, s), d)
  {
    AppendSubsShapeSelf(e, d, s);
    AppendSubsCrossSelf(e, d, s);
  }

  lemma AppendSubsShapeSelf(e: Edges, d: NodeId, s: NodeId)
    requires Sized(e) && d < |e.depList| && s < |e.depList| && AppendReadyFacts(e, d, s)
    requires SubsShape(e, d) && |e.dep| !in e.subList[d]
    ensures Sized(Append(e, d, s)) && SubsShape(Append(e, d, s), d)
  {
    AppendSized(e, d, s);
    var e' := Append(e, d, s);
    var x := |e.dep|;
    var S := e.subList[d];
    var S' := S + [x];
    assert e'.subList[d] == S' && e'.subPtrs == SpliceIn(e.subPtrs, Last(S), None);
    SpliceInThreaded(S, |S|, e.subPtrs);
    assert S[..|S|] + [x] + S[|S|..] == S';
    AppendDistinct(S, x);
    if S != [] {
      assert S'[0] == S[0];
    }
  }

  lemma AppendSubsCrossSelf(e: Edges, d: NodeId, s: NodeId)
    requires Sized(e) && d < |e.depList| && s < |e.depList| && AppendReadyFacts(e, d, s)
    requires SubsCross(e, d)
    ensures Sized(Append(e, d, s)) && |e.dep| !in e.subList[d] && SubsCross(Append(e, d, s), d)
  {
    AppendSized(e, d, s);
    var e' := Append(e, d, s);
    var L := e.depList[s];
    var c := e.confirmed[s];
    var x := |e.dep|;
    var S := e.subList[d];
    var S' := S + [x];
    assert e'.subList[d] == S';
    forall i | 0 <= i < |S'|
      ensures S'[i] < |e'.dep| && e'.dep[S'[i]] == d && S'[i] in e'.depList[e'.sub[S'[i]]]
    {
      if i < |S| {
        assert S'[i] == S[i];
        AppendKeepsLink(e, d, s, S[i], e.sub[S[i]]);
      } else {
        assert (L[..c] + [x] + L[c..])[c] == x;
      }
    }
  }

  /** Appending leaves the subscriber list of every other producer well formed. */
  lemma AppendSubsOkOther(e: Edges, d: NodeId, s: NodeId, n: NodeId)
    requires Sized(e) && d < |e.depList| && s < |e.depList| && AppendReadyFacts(e, d, s)
    requires n < |e.depList| && n != d && SubsOk(e, d) && SubsOk(e, n)
    ensures Sized(Append(e, d, s)) && SubsOk(Append(e, d, s), n)
  {
    AppendSized(e, d, s);
    var e' := Append(e, d, s);
    var Sn := e.subList[n];
    assert e'.subList[n] == Sn;
    AppendSubPtrsFrame(e, d, s, n);
    ThreadedFrame(Sn, e.subPtrs, e'.subPtrs);
    SubsShapeTransfer(e, e', n);
    AppendSubsCross(e, d, s, Sn, n);
  }

  lemma AppendSubPtrsFrame(e: Edges, d: NodeId, s: NodeId, n: NodeId)
    requires Sized(e) && d < |e.depList| && s < |e.depList| && AppendReadyFacts(e, d, s)
    requires n < |e.depList| && n != d && SubsOk(e, d) && SubsCross(e, n)
    ensures var p' := Append(e, d, s).subPtrs;
            forall y :: y in e.subList[n] ==>
              y < |p'.prev| && y < |p'.next| && p'.prev[y] == e.subPtrs.prev[y] && p'.next[y] == e.subPtrs.next[y]
  {
    var S := e.subList[d];
    var p' := SpliceIn(e.subPtrs, e.subsTail[d], None);
    assert Append(e, d, s).subPtrs == p';
    assert SubsShape(e, d) && SubsCross(e, d);
    assert S != [] ==> e.dep[S[|S| - 1]] == d;
    var Sn := e.subList[n];
    forall y | y in Sn
      ensures y < |p'.prev| && y < |p'.next| && p'.prev[y] == e.subPtrs.prev[y] && p'.next[y] == e.subPtrs.next[y]
    {
      var i :| 0 <= i < |Sn| && Sn[i] == y;
      assert e.dep[y] == n;
    }
  }

  /** The links of a list whose entries all leave n and sit on their
      consumers' lists keep doing so across Append. */
  lemma AppendSubsCross(e: Edges, d: NodeId, s: NodeId, Sn: seq<LinkId>, n: NodeId)
    requires Sized(e) && d < |e.depList| && s < |e.depList| && AppendReadyFacts(e, d, s)
    requires forall i :: 0 <= i < |Sn| ==> Sn[i] < |e.dep| && e.dep[Sn[i]] == n && Sn[i] in e.depList[e.sub[Sn[i]]]
    ensures var e' := Append(e, d, s);
            forall i :: 0 <= i < |Sn| ==> Sn[i] < |e'.dep| && e'.dep[Sn[i]] == n && Sn[i] in e'.depList[e'.sub[Sn[i]]]
  {
    forall i | 0 <= i < |Sn|
      ensures Sn[i] < |Append(e, d, s).dep|
      ensures Append(e, d, s).dep[Sn[i]] == n && Sn[i] in Append(e, d, s).depList[Append(e, d, s).sub[Sn[i]]]
    {
      AppendKeepsLink(e, d, s, Sn[i], e.sub[Sn[i]]);
    }
  }

  lemma AppendDistinct(S: seq<LinkId>, x: LinkId)
    requires Distinct(S) && x !in S
    ensures Distinct(S + [x])
  {
    var S' := S + [x];
    forall i, j | 0 <= i < j < |S'| ensures S'[i] != S'[j] {
      if j == |S| {
        assert S'[i] in S;
      }
    }
  }

  /** The slow path keeps the edge-store invariant. */
  lemma AppendKeepsOk(e: Edges, d: NodeId, s: NodeId)
    requires EdgesOk(e) && d < |e.depList| && s < |e.depList|
    ensures AppendReadyFacts(e, d, s) && EdgesOk(Append(e, d, s))
  {
    assert DepsOk(e, s) && SubsOk(e, d);
    AppendReady(e, d, s);
    AppendSized(e, d, s);
    var e' := Append(e, d, s);
    forall n | 0 <= n < |e'.depList| ensures DepsOk(e', n) && SubsOk(e', n) {
      assert DepsOk(e, n) && SubsOk(e, n) && DepsOk(e, s) && SubsOk(e, d);
      if n == s {
        AppendDepsOkSelf(e, d, s);
      } else {
        AppendDepsOkOther(e, d, s, n);
      }
      if n == d {
        AppendSubsOkSelf(e, d, s);
      } else {
        AppendSubsOkOther(e, d, s, n);
      }
    }
  }

  /** Confirming the next link of consumer s (link's second early return)
      keeps the edge-store invariant. */
  lemma ConfirmNextKeepsOk(e: Edges, s: NodeId)
    requires EdgesOk(e) && s < |e.depList| && e.confirmed[s] < |e.depList[s]|
    ensures var c := e.confirmed[s];
            EdgesOk(e.(depsTail := e.depsTail[s := Some(e.depList[s][c])], confirmed := e.confirmed[s := c + 1]))
  {
    var c := e.confirmed[s];
    var e' := e.(depsTail := e.depsTail[s := Some(e.depList[s][c])], confirmed := e.confirmed[s := c + 1]);
    assert Sized(e');
    forall n | 0 <= n < |e'.depList| ensures DepsOk(e', n) && SubsOk(e', n) {
      assert DepsOk(e, n) && SubsOk(e, n);
      assert DepsCross(e', n) && SubsShape(e', n) && SubsCross(e', n);
      assert DepsShape(e', n);
    }
  }

  /** link keeps the edge-store invariant. */
  lemma LinkKeepsOk(e: Edges, d: NodeId, s: NodeId)
    requires EdgesOk(e) && d < |e.depList| && s < |e.depList|
    ensures EdgesOk(Link(e, d, s))
  {
    var L := e.depList[s];
    var c := e.confirmed[s];
    var e' := Link(e, d, s);
    assert DepsOk(e, s) && SubsOk(e, d);
    if c > 0 && e.dep[L[c - 1]] == d {
    } else if c < |L| && e.dep[L[c]] == d {
      ConfirmNextKeepsOk(e, s);
    } else if e.subsTail[d].Some? && e.sub[e.subsTail[d].value] == s && e.subsTail[d].value in L[..c] {
    } else {
      AppendKeepsOk(e, d, s);
    }
  }

  /** Some confirmed link of consumer s comes from producer d. */
  ghost predicate ConfirmedFrom(e: Edges, s: NodeId, d: NodeId)
    requires s < |e.depList| && s < |e.confirmed|
  {
    exists k :: 0 <= k < e.confirmed[s] && k < |e.depList[s]| && e.depList[s][k] < |e.dep| && e.dep[e.depList[s][k]] == d
  }

  /** After link(dep, sub), a link from dep is among sub's confirmed links,
      the links confirmed before stay confirmed in place, and at most one
      more is confirmed. */
  lemma LinkConfirms(e: Edges, d: NodeId, s: NodeId)
    requires Sized(e) && d < |e.depList| && s < |e.depList| && DepsOk(e, s) && SubsOk(e, d)
    ensures e.confirmed[s] <= |e.depList[s]|
    ensures |Link(e, d, s).depList| == |e.depList| && |Link(e, d, s).confirmed| == |e.depList|
    ensures Link(e, d, s).confirmed[s] <= |Link(e, d, s).depList[s]|
    ensures ConfirmedFrom(Link(e, d, s), s, d)
    ensures Link(e, d, s).confirmed[s] in {e.confirmed[s], e.confirmed[s] + 1}
    ensures Link(e, d, s).depList[s][..e.confirmed[s]] == e.depList[s][..e.confirmed[s]]
  {
    var L := e.depList[s];
    var c := e.confirmed[s];
    var e' := Link(e, d, s);
    assert DepsShape(e, s) && DepsCross(e, s);
    if c > 0 && e.dep[L[c - 1]] == d {
      assert e'.dep[e'.depList[s][c - 1]] == d;
    } else if c < |L| && e.dep[L[c]] == d {
      assert e'.dep[e'.depList[s][c]] == d;
    } else if e.subsTail[d].Some? && e.sub[e.subsTail[d].value] == s && e.subsTail[d].value in L[..c] {
      SharedTailConfirmed(e, d, s);
    } else {
      AppendReady(e, d, s);
      AppendConfirms(e, d, s);
    }
  }

  /** The third early return of link: dep's newest subscriber link is a
      confirmed link of sub, so sub already has a confirmed link from dep. */
  lemma SharedTailConfirmed(e: Edges, d: NodeId, s: NodeId)
    requires Sized(e) && d < |e.depList| && s < |e.depList| && DepsOk(e, s) && SubsOk(e, d)
    requires e.subsTail[d].Some? && e.subsTail[d].value in e.depList[s][..e.confirmed[s]]
    ensures ConfirmedFrom(e, s, d)
  {
    var L := e.depList[s];
    var c := e.confirmed[s];
    var t := e.subsTail[d].value;
    var S := e.subList[d];
    assert t == S[|S| - 1] && e.dep[t] == d;
    var k :| 0 <= k < c && L[..c][k] == t;
    assert L[k] == t;
  }

  lemma AppendConfirms(e: Edges, d: NodeId, s: NodeId)
    requires Sized(e) && d < |e.depList| && s < |e.depList| && AppendReadyFacts(e, d, s)
    ensures var e' := Append(e, d, s);
            var c := e.confirmed[s];
            && e'.confirmed[s] == c + 1 && e'.confirmed[s] <= |e'.depList[s]|
            && ConfirmedFrom(e', s, d)
            && e'.depList[s][..c] == e.depList[s][..c]
  {
    var e' := Append(e, d, s);
    var L := e.depList[s];
    var c := e.confirmed[s];
    var x := |e.dep|;
    var L' := L[..c] + [x] + L[c..];
    assert e'.depList[s] == L';
    assert L'[c] == x && e'.dep[x] == d;
    assert L'[..c] == L[..c];
  }

  /** link allocates a link only on its slow path, where the new link lands
      right after sub's confirmed prefix and at the end of dep's
      subscribers; it changes no other node's lists. */
  lemma LinkFrame(e: Edges, d: NodeId, s: NodeId)
    requires Sized(e) && d < |e.depList| && s < |e.depList| && DepsOk(e, s) && SubsOk(e, d)
    ensures e.confirmed[s] <= |e.depList[s]|
    ensures var e' := Link(e, d, s);
            && |e'.depList| == |e.depList| && |e'.subList| == |e.subList| && |e'.confirmed| == |e.confirmed|
            && (|e'.dep| == |e.dep| ==> e'.depList == e.depList && e'.subList == e.subList)
            && (|e'.dep| != |e.dep| ==>
                  && |e'.dep| == |e.dep| + 1
                  && e'.depList[s] == e.depList[s][..e.confirmed[s]] + [|e.dep|] + e.depList[s][e.confirmed[s]..]
                  && e'.subList[d] == e.subList[d] + [|e.dep|])
            && (forall n :: 0 <= n < |e.depList| && n != s ==> e'.depList[n] == e.depList[n] && e'.confirmed[n] == e.confirmed[n])
            && (forall n :: 0 <= n < |e.depList| && n != d ==> e'.subList[n] == e.subList[n])
  {
    assert DepsOk(e, s) && SubsOk(e, d);
    AppendReady(e, d, s);
    AppendFrame(e, d, s);
  }

  /** The slow path of link changes only the lists of its two endpoints. */
  lemma AppendFrame(e: Edges, d: NodeId, s: NodeId)
    requires Sized(e) && d < |e.depList| && s < |e.depList| && AppendReadyFacts(e, d, s)
    ensures var e' := Append(e, d, s);
            && (forall n :: 0 <= n < |e.depList| && n != s ==> e'.depList[n] == e.depList[n] && e'.confirmed[n] == e.confirmed[n])
            && (forall n :: 0 <= n < |e.depList| && n != d ==> e'.subList[n] == e.subList[n])
  {
  }

  // ---------------------------------------------------------------------
  // unlink

  /** The two positions of a live link, and the facts unlink relies on. */
  lemma UnlinkReady(e: Edges, l: LinkId)
    requires EdgesOk(e) && Live(e, l)
    requires IndexOf(e.depList[e.sub[l]], l) >= e.confirmed[e.sub[l]]
    ensures var L := e.depList[e.sub[l]];
            var k := IndexOf(L, l);
            && l in e.subList[e.dep[l]]
            && Unlink(e, l) == Remove(e, l, k, IndexOf(e.subList[e.dep[l]], l))
  {
    var s := e.sub[l];
    assert DepsOk(e, s);
    var L := e.depList[s];
    assert L[IndexOf(L, l)] in e.subList[e.dep[l]];
  }

  ghost predicate RemoveArgs(e: Edges, l: LinkId, k: nat, j: nat)
  {
    && Sized(e) && l < |e.dep|
    && k < |e.depList[e.sub[l]]| && e.depList[e.sub[l]][k] == l
    && j < |e.subList[e.dep[l]]| && e.subList[e.dep[l]][j] == l
  }

  lemma RemoveSized(e: Edges, l: LinkId, k: nat, j: nat)
    requires RemoveArgs(e, l, k, j)
    ensures Sized(Remove(e, l, k, j)) && |Remove(e, l, k, j).depList| == |e.depList|
  {
  }

  /** An other link stays on every list it was on across Remove. */
  lemma RemoveKeepsLink(e: Edges, l: LinkId, k: nat, j: nat, y: LinkId, m: NodeId)
    requires RemoveArgs(e, l, k, j) && y != l && m < |e.depList|
    ensures y in e.subList[m] ==> y in Remove(e, l, k, j).subList[m]
    ensures y in e.depList[m] ==> y in Remove(e, l, k, j).depList[m]
  {
    if m == e.dep[l] && y in e.subList[m] {
      RemoveAtKeepsOthers(e.subList[m], j, y);
    }
    if m == e.sub[l] && y in e.depList[m] {
      RemoveAtKeepsOthers(e.depList[m], k, y);
    }
  }

  /** Links other than l that lead into n and sit on their producers'
      lists still do after Remove. */
  lemma RemoveDepsCross(e: Edges, l: LinkId, k: nat, j: nat, Ln: seq<LinkId>, n: NodeId)
    requires RemoveArgs(e, l, k, j)
    requires forall i :: 0 <= i < |Ln| ==> Ln[i] != l && Ln[i] < |e.dep| && e.sub[Ln[i]] == n && Ln[i] in e.subList[e.dep[Ln[i]]]
    ensures var e' := Remove(e, l, k, j);
            forall i :: 0 <= i < |Ln| ==> Ln[i] < |e'.dep| && e'.sub[Ln[i]] == n && Ln[i] in e'.subList[e'.dep[Ln[i]]]
  {
    forall i | 0 <= i < |Ln| ensures Ln[i] in Remove(e, l, k, j).subList[e.dep[Ln[i]]] {
      RemoveKeepsLink(e, l, k, j, Ln[i], e.dep[Ln[i]]);
    }
  }

  /** Links other than l that leave n and sit on their consumers' lists
      still do after Remove. */
  lemma RemoveSubsCross(e: Edges, l: LinkId, k: nat, j: nat, Sn: seq<LinkId>, n: NodeId)
    requires RemoveArgs(e, l, k, j)
    requires forall i :: 0 <= i < |Sn| ==> Sn[i] != l && Sn[i] < |e.dep| && e.dep[Sn[i]] == n && Sn[i] in e.depList[e.sub[Sn[i]]]
    ensures var e' := Remove(e, l, k, j);
            forall i :: 0 <= i < |Sn| ==> Sn[i] < |e'.dep| && e'.dep[Sn[i]] == n && Sn[i] in e'.depList[e'.sub[Sn[i]]]
  {
    forall i | 0 <= i < |Sn| ensures Sn[i] in Remove(e, l, k, j).depList[e.sub[Sn[i]]] {
      RemoveKeepsLink(e, l, k, j, Sn[i], e.sub[Sn[i]]);
    }
  }

  /** Removing the link keeps its consumer's dependency list threaded, with
      the right head and tail. */
  lemma RemoveDepsShapeSelf(e: Edges, l: LinkId, k: nat, j: nat)
    requires RemoveArgs(e, l, k, j) && DepsShape(e, e.sub[l]) && k >= e.confirmed[e.sub[l]]
    ensures Sized(Remove(e, l, k, j)) && DepsShape(Remove(e, l, k, j), e.sub[l])
  {
    RemoveSized(e, l, k, j);
    var e' := Remove(e, l, k, j);
    var s := e.sub[l];
    var L := e.depList[s];
    var c := e.confirmed[s];
    var L' := RemoveAt(L, k);
    assert e'.depList[s] == L' && e'.depPtrs == Detach(e.depPtrs, L[k]);
    DetachThreaded(L, k, e.depPtrs);
    RemoveAtDistinct(L, k);
    if k == 0 {
      assert e.depPtrs.prev[l] == None;
      assert k + 1 < |L| ==> e.depPtrs.next[l] == Some(L[1]) && L'[0] == L[1];
    } else {
      assert e.depPtrs.prev[l] == Some(L[k - 1]);
      assert L'[0] == L[0];
    }
    if k + 1 == |L| {
      assert e.depPtrs.next[l] == None;
      assert k > 0 ==> L'[k - 1] == L[k - 1];
    } else {
      assert e.depPtrs.next[l] == Some(L[k + 1]);
      assert c > 0 ==> L'[c - 1] == L[c - 1];
    }
  }

  /** Removing the link keeps its consumer's dependency list well formed. */
  lemma RemoveDepsOkSelf(e: Edges, l: LinkId, k: nat, j: nat)
    requires RemoveArgs(e, l, k, j) && DepsOk(e, e.sub[l]) && k >= e.confirmed[e.sub[l]]
    ensures Sized(Remove(e, l, k, j)) && DepsOk(Remove(e, l, k, j), e.sub[l])
  {
    RemoveDepsShapeSelf(e, l, k, j);
    var s := e.sub[l];
    var L := e.depList[s];
    var L' := RemoveAt(L, k);
    assert Remove(e, l, k, j).depList[s] == L';
    forall i | 0 <= i < |L'|
      ensures L'[i] != l && L'[i] < |e.dep| && e.sub[L'[i]] == s && L'[i] in e.subList[e.dep[L'[i]]]
    {
      var i' := if i < k then i else i + 1;
      assert L'[i] == L[i'] && L[i'] != L[k];
    }
    RemoveDepsCross(e, l, k, j, L', s);
  }

  lemma RemoveDepPtrsFrame(e: Edges, l: LinkId, k: nat, j: nat, n: NodeId)
    requires RemoveArgs(e, l, k, j) && DepsOk(e, e.sub[l])
    requires n < |e.depList| && n != e.sub[l] && DepsCross(e, n)
    ensures var p' := Remove(e, l, k, j).depPtrs;
            forall y :: y in e.depList[n] ==>
              y < |p'.prev| && y < |p'.next| && p'.prev[y] == e.depPtrs.prev[y] && p'.next[y] == e.depPtrs.next[y]
  {
    var s := e.sub[l];
    var L := e.depList[s];
    var p' := Detach(e.depPtrs, l);
    assert Remove(e, l, k, j).depPtrs == p';
    var Ln := e.depList[n];
    var before := e.depPtrs.prev[l];
    var after := e.depPtrs.next[l];
    assert DepsShape(e, s) && DepsCross(e, s);
    assert before == if k == 0 then None else Some(L[k - 1]);
    assert after == if k + 1 == |L| then None else Some(L[k + 1]);
    assert k > 0 ==> e.sub[L[k - 1]] == s;
    assert k + 1 < |L| ==> e.sub[L[k + 1]] == s;
    forall y | y in Ln
      ensures y < |p'.prev| && y < |p'.next| && p'.prev[y] == e.depPtrs.prev[y] && p'.next[y] == e.depPtrs.next[y]
    {
      var i :| 0 <= i < |Ln| && Ln[i] == y;
      assert e.sub[y] == n;
      assert Some(y) != before && Some(y) != after;
    }
  }

  /** Removing the link leaves every other consumer's list well formed. */
  lemma RemoveDepsOkOther(e: Edges, l: LinkId, k: nat, j: nat, n: NodeId)
    requires RemoveArgs(e, l, k, j) && DepsOk(e, e.sub[l])
    requires n < |e.depList| && n != e.sub[l] && DepsOk(e, n)
    ensures Sized(Remove(e, l, k, j)) && DepsOk(Remove(e, l, k, j), n)
  {
    RemoveSized(e, l, k, j);
    var e' := Remove(e, l, k, j);
    var Ln := e.depList[n];
    assert e'.depList[n] == Ln;
    RemoveDepPtrsFrame(e, l, k, j, n);
    ThreadedFrame(Ln, e.depPtrs, e'.depPtrs);
    DepsShapeTransfer(e, e', n);
    RemoveDepsCross(e, l, k, j, Ln, n);
  }

  /** Removing the link keeps its producer's subscriber list threaded, with
      the right head and tail. */
  lemma RemoveSubsShapeSelf(e: Edges, l: LinkId, k: nat, j: nat)
    requires RemoveArgs(e, l, k, j) && SubsShape(e, e.dep[l])
    ensures Sized(Remove(e, l, k, j)) && SubsShape(Remove(e, l, k, j), e.dep[l])
  {
    RemoveSized(e, l, k, j);
    var e' := Remove(e, l, k, j);
    var d := e.dep[l];
    var S := e.subList[d];
    var S' := RemoveAt(S, j);
    assert e'.subList[d] == S' && e'.subPtrs == Detach(e.subPtrs, S[j]);
    DetachThreaded(S, j, e.subPtrs);
    RemoveAtDistinct(S, j);
    DetachEnds(S, j, e.subPtrs);
    assert j == 0 <==> e.subPtrs.prev[l] == None;
    assert j + 1 == |S| <==> e.subPtrs.next[l] == None;
  }

  /** Removing the link keeps its producer's subscriber list well formed. */
  lemma RemoveSubsOkSelf(e: Edges, l: LinkId, k: nat, j: nat)
    requires RemoveArgs(e, l, k, j) && SubsOk(e, e.dep[l])
    ensures Sized(Remove(e, l, k, j)) && SubsOk(Remove(e, l, k, j), e.dep[l])
  {
    RemoveSubsShapeSelf(e, l, k, j);
    var d := e.dep[l];
    var S := e.subList[d];
    var S' := RemoveAt(S, j);
    assert Remove(e, l, k, j).subList[d] == S';
    forall i | 0 <= i < |S'|
      ensures S'[i] != l && S'[i] < |e.dep| && e.dep[S'[i]] == d && S'[i] in e.depList[e.sub[S'[i]]]
    {
      var i' := if i < j then i else i + 1;
      assert S'[i] == S[i'] && S[i'] != S[j];
    }
    RemoveSubsCross(e, l, k, j, S', d);
  }

  lemma RemoveSubPtrsFrame(e: Edges, l: LinkId, k: nat, j: nat, n: NodeId)
    requires RemoveArgs(e, l, k, j) && SubsOk(e, e.dep[l])
    requires n < |e.depList| && n != e.dep[l] && SubsCross(e, n)
    ensures var p' := Remove(e, l, k, j).subPtrs;
            forall y :: y in e.subList[n] ==>
              y < |p'.prev| && y < |p'.next| && p'.prev[y] == e.subPtrs.prev[y] && p'.next[y] == e.subPtrs.next[y]
  {
    var d := e.dep[l];
    var S := e.subList[d];
    var p' := Detach(e.subPtrs, l);
    assert Remove(e, l, k, j).subPtrs == p';
    var Sn := e.subList[n];
    var before := e.subPtrs.prev[l];
    var after := e.subPtrs.next[l];
    assert SubsShape(e, d) && SubsCross(e, d);
    assert before == if j == 0 then None else Some(S[j - 1]);
    assert after == if j + 1 == |S| then None else Some(S[j + 1]);
    assert j > 0 ==> e.dep[S[j - 1]] == d;
    assert j + 1 < |S| ==> e.dep[S[j + 1]] == d;
    forall y | y in Sn
      ensures y < |p'.prev| && y < |p'.next| && p'.prev[y] == e.subPtrs.prev[y] && p'.next[y] == e.subPtrs.next[y]
    {
      var i :| 0 <= i < |Sn| && Sn[i] == y;
      assert e.dep[y] == n;
      assert Some(y) != before && Some(y) != after;
    }
  }

  /** Removing the link leaves every other producer's list well formed. */
  lemma RemoveSubsOkOther(e: Edges, l: LinkId, k: nat, j: nat, n: NodeId)
    requires RemoveArgs(e, l, k, j) && SubsOk(e, e.dep[l])
    requires n < |e.depList| && n != e.dep[l] && SubsOk(e, n)
    ensures Sized(Remove(e, l, k, j)) && SubsOk(Remove(e, l, k, j), n)
  {
    RemoveSized(e, l, k, j);
    var e' := Remove(e, l, k, j);
    var Sn := e.subList[n];
    assert e'.subList[n] == Sn;
    RemoveSubPtrsFrame(e, l, k, j, n);
    ThreadedFrame(Sn, e.subPtrs, e'.subPtrs);
    SubsShapeTransfer(e, e', n);
    RemoveSubsCross(e, l, k, j, Sn, n);
  }

  /** unlink keeps the edge-store invariant. */
  lemma UnlinkKeepsOk(e: Edges, l: LinkId)
    requires EdgesOk(e) && Live(e, l)
    requires IndexOf(e.depList[e.sub[l]], l) >= e.confirmed[e.sub[l]]
    ensures EdgesOk(Unlink(e, l))
  {
    UnlinkReady(e, l);
    var s := e.sub[l];
    var d := e.dep[l];
    var k := IndexOf(e.depList[s], l);
    var j := IndexOf(e.subList[d], l);
    var e' := Remove(e, l, k, j);
    RemoveSized(e, l, k, j);
    forall n | 0 <= n < |e'.depList| ensures DepsOk(e', n) && SubsOk(e', n) {
      assert DepsOk(e, n) && SubsOk(e, n) && DepsOk(e, s) && SubsOk(e, d);
      if n == s {
        RemoveDepsOkSelf(e, l, k, j);
      } else {
        RemoveDepsOkOther(e, l, k, j, n);
      }
      if n == d {
        RemoveSubsOkSelf(e, l, k, j);
      } else {
        RemoveSubsOkOther(e, l, k, j, n);
      }
    }
  }

  /** unlink takes the link off exactly its two lists, keeps the links
      confirmed before it, and leaves every other list alone. */
  lemma UnlinkRemoves(e: Edges, l: LinkId)
    requires EdgesOk(e) && Live(e, l)
    requires IndexOf(e.depList[e.sub[l]], l) >= e.confirmed[e.sub[l]]
    ensures var e' := Unlink(e, l);
            var s := e.sub[l];
            var d := e.dep[l];
            var K := IndexOf(e.depList[s], l);
            && |e'.depList| == |e.depList| && |e'.subList| == |e.subList|
            && e'.depList[s] == RemoveAt(e.depList[s], K)
            && l !in e'.depList[s] && l !in e'.subList[d]
            && e'.confirmed[s] >= e.confirmed[s] && e'.depList[s][..e.confirmed[s]] == e.depList[s][..e.confirmed[s]]
            && (K == e.confirmed[s] ==> e'.confirmed[s] == e.confirmed[s])
            && (forall y :: y in e'.subList[d] <==> y in e.subList[d] && y != l)
            && (forall n :: 0 <= n < |e.depList| && n != s ==> e'.depList[n] == e.depList[n] && e'.confirmed[n] == e.confirmed[n])
            && (forall n :: 0 <= n < |e.depList| && n != d ==> e'.subList[n] == e.subList[n])
  {
    UnlinkReady(e, l);
    var s := e.sub[l];
    var d := e.dep[l];
    assert DepsOk(e, s) && SubsOk(e, d);
    RemoveEffect(e, l, IndexOf(e.depList[s], l), IndexOf(e.subList[d], l));
  }

  lemma RemoveEffect(e: Edges, l: LinkId, k: nat, j: nat)
    requires RemoveArgs(e, l, k, j) && Distinct(e.depList[e.sub[l]]) && Distinct(e.subList[e.dep[l]])
    requires k >= e.confirmed[e.sub[l]]
    ensures var e' := Remove(e, l, k, j);
            var s := e.sub[l];
            var d := e.dep[l];
            var K := k;
            && |e'.depList| == |e.depList| && |e'.subList| == |e.subList|
            && e'.depList[s] == RemoveAt(e.depList[s], k)
            && l !in e'.depList[s] && l !in e'.subList[d]
            && e'.confirmed[s] >= e.confirmed[s] && e'.depList[s][..e.confirmed[s]] == e.depList[s][..e.confirmed[s]]
            && (K == e.confirmed[s] ==> e'.confirmed[s] == e.confirmed[s])
            && (forall y :: y in e'.subList[d] <==> y in e.subList[d] && y != l)
            && (forall n :: 0 <= n < |e.depList| && n != s ==> e'.depList[n] == e.depList[n] && e'.confirmed[n] == e.confirmed[n])
            && (forall n :: 0 <= n < |e.depList| && n != d ==> e'.subList[n] == e.subList[n])
  {
    var s := e.sub[l];
    var d := e.dep[l];
    RemoveAtMembers(e.depList[s], k);
    RemoveAtMembers(e.subList[d], j);
  }


  // ---------------------------------------------------------------------
  // node creation

  /** A fresh node (computed() or signal(), src/index.ts:80-107) has no
      links: all four list pointers are null. */
  ghost function AddNode(e: Edges): Edges
  {
    e.(deps := e.deps + [None], depsTail := e.depsTail + [None],
       subs := e.subs + [None], subsTail := e.subsTail + [None],
       depList := e.depList + [[]], subList := e.subList + [[]], confirmed := e.confirmed + [0])
  }

  /** Adding a node keeps the invariant and changes no existing list. */
  lemma AddNodeKeepsOk(e: Edges)
    requires EdgesOk(e)
    ensures EdgesOk(AddNode(e))
    ensures |AddNode(e).depList| == |e.depList| + 1 && AddNode(e).dep == e.dep
    ensures AddNode(e).depList[|e.depList|] == [] && AddNode(e).subList[|e.depList|] == []
    ensures forall n :: 0 <= n < |e.depList| ==>
              AddNode(e).depList[n] == e.depList[n] && AddNode(e).subList[n] == e.subList[n] &&
              AddNode(e).confirmed[n] == e.confirmed[n]
  {
    var e' := AddNode(e);
    forall n | 0 <= n < |e'.depList| ensures DepsOk(e', n) && SubsOk(e', n) {
      if n < |e.depList| {
        assert DepsOk(e, n) && SubsOk(e, n);
        var L := e.depList[n];
        var S := e.subList[n];
        forall i | 0 <= i < |L| ensures L[i] in e'.subList[e'.dep[L[i]]] {
          assert e'.subList[e.dep[L[i]]] == e.subList[e.dep[L[i]]];
        }
        forall i | 0 <= i < |S| ensures S[i] in e'.depList[e'.sub[S[i]]] {
          assert e'.depList[e.sub[S[i]]] == e.depList[e.sub[S[i]]];
        }
      }
    }
  }

  /** The start of recompute (src/index.ts:113): `depsTail = null`, so no
      link of n is confirmed yet. */
  ghost function Restart(e: Edges, n: NodeId): (r: Edges)
    requires n < |e.depsTail| && n < |e.confirmed|
    ensures r.depList == e.depList && r.subList == e.subList && r.dep == e.dep && r.sub == e.sub
    ensures |r.confirmed| == |e.confirmed| && r.confirmed[n] == 0
  {
    e.(depsTail := e.depsTail[n := None], confirmed := e.confirmed[n := 0])
  }

  /** Forgetting the confirmations of one consumer keeps the invariant. */
  lemma RestartKeepsOk(e: Edges, n: NodeId)
    requires EdgesOk(e) && n < |e.depList|
    ensures EdgesOk(Restart(e, n))
  {
    var e' := Restart(e, n);
    forall m | 0 <= m < |e'.depList| ensures DepsOk(e', m) && SubsOk(e', m) {
      assert DepsOk(e, m) && SubsOk(e, m);
    }
  }

  // ---------------------------------------------------------------------
  // walking a subscriber list

  /** The subscribers of producer n, in the order of its subscriber list
      (the `link.sub` of each link from `subs` along nextSub). */
  ghost function Subscribers(e: Edges, n: NodeId): (ns: seq<NodeId>)
    requires EdgesOk(e) && n < |e.depList|
    ensures |ns| == |e.subList[n]|
    ensures forall i :: 0 <= i < |ns| ==> e.subList[n][i] < |e.sub| && ns[i] == e.sub[e.subList[n][i]]
    ensures forall i :: 0 <= i < |ns| ==> ns[i] < |e.depList|
  {
    assert SubsOk(e, n);
    SubsOf(e, e.subList[n])
  }

  ghost function SubsOf(e: Edges, S: seq<LinkId>): (ns: seq<NodeId>)
    requires forall i :: 0 <= i < |S| ==> S[i] < |e.sub|
    ensures |ns| == |S| && forall i :: 0 <= i < |S| ==> ns[i] == e.sub[S[i]]
  {
    if S == [] then [] else [e.sub[S[0]]] + SubsOf(e, S[1..])
  }

  /** What a walk over subscriber lists needs: each of the N producers'
      lists is threaded from its `subs` and every link's `sub` is a node. */
  ghost predicate Walkable(e: Edges, N: nat)
  {
    && |e.subs| == N && |e.subList| == N
    && (forall l :: 0 <= l < |e.sub| ==> e.sub[l] < N)
    && forall n :: 0 <= n < N ==> SubsWalk(e, n)
  }

  ghost predicate SubsWalk(e: Edges, n: NodeId)
    requires n < |e.subs| && n < |e.subList|
  {
    && Threaded(e.subList[n], e.subPtrs) && e.subs[n] == First(e.subList[n])
    && forall i :: 0 <= i < |e.subList[n]| ==> e.subList[n][i] < |e.sub|
  }

  lemma OkWalkable(e: Edges)
    requires EdgesOk(e)
    ensures Walkable(e, |e.depList|)
  {
    forall n | 0 <= n < |e.depList| ensures SubsWalk(e, n) {
      assert SubsOk(e, n);
    }
  }

  /** The indices a consumer-side splice of a fresh link into sub's list,
      after its c confirmed links, touches. */
  ghost predicate DepSpliceable(w: Wiring, l: Lists, sub: NodeId, before: Option<LinkId>, after: Option<LinkId>, c: nat)
  {
    && sub < |w.deps| && sub < |w.depsTail| && sub < |l.depList| && sub < |l.confirmed|
    && c <= |l.depList[sub]|
    && (after.Some? ==> after.value < |w.depPtrs.prev|)
    && (before.Some? ==> before.value < |w.depPtrs.next|)
  }

  /** The indices a producer-side append of a fresh link to dep's list
      touches. */
  ghost predicate SubSpliceable(w: Wiring, l: Lists, dep: NodeId, prevSub: Option<LinkId>)
  {
    && dep < |w.subs| && dep < |w.subsTail| && dep < |l.subList|
    && (prevSub.Some? ==> prevSub.value < |w.subPtrs.next|)
  }

  // ---------------------------------------------------------------------
  // pruning after a run (recompute, src/index.ts:117-121)

  /** The link right after n's confirmed prefix: `depsTail.nextDep`, or
      `deps` when nothing is confirmed. */
  ghost function Unconfirmed(e: Edges, n: NodeId): Option<LinkId>
    requires n < |e.depList| && n < |e.confirmed|
  {
    var L := e.depList[n];
    var c := e.confirmed[n];
    if c < |L| then Some(L[c]) else None
  }

  /** The pointer expression the pruning loop starts from names the first
      unconfirmed link. */
  lemma UnconfirmedCursor(e: Edges, n: NodeId)
    requires EdgesOk(e) && n < |e.depList|
    ensures e.depsTail[n].Some? ==> e.depsTail[n].value < |e.depPtrs.next|
    ensures (if e.depsTail[n].Some? then e.depPtrs.next[e.depsTail[n].value] else e.deps[n]) == Unconfirmed(e, n)
  {
    assert DepsOk(e, n);
    var L := e.depList[n];
    var c := e.confirmed[n];
    if c > 0 {
      ThreadedNext(L, e.depPtrs, c - 1);
    }
  }

  /** Unlinking the first unconfirmed link of n: it is live, sits at
      position confirmed[n], and its removal keeps the invariant and
      shortens n's list by one. */
  lemma PruneReady(e: Edges, n: NodeId)
    requires EdgesOk(e) && n < |e.depList| && e.confirmed[n] < |e.depList[n]|
    ensures var L := e.depList[n];
            var c := e.confirmed[n];
            && Live(e, L[c]) && e.sub[L[c]] == n && IndexOf(L, L[c]) == c
            && EdgesOk(Unlink(e, L[c]))
            && |Unlink(e, L[c]).depList| == |e.depList|
            && Unlink(e, L[c]).depList[n] == RemoveAt(L, c)
            && Unlink(e, L[c]).confirmed[n] == c
  {
    assert DepsOk(e, n);
    var L := e.depList[n];
    var c := e.confirmed[n];
    assert e.sub[L[c]] == n;
    assert IndexOf(L, L[c]) == c;
    UnlinkKeepsOk(e, L[c]);
    UnlinkRemoves(e, L[c]);
  }

  /** The edge store after the pruning loop: every link of n after its
      confirmed prefix unlinked, first to last. */
  ghost function PruneAll(e: Edges, n: NodeId): Edges
    requires EdgesOk(e) && n < |e.depList|
    decreases |e.depList[n]| - e.confirmed[n]
  {
    var L := e.depList[n];
    var c := e.confirmed[n];
    if c < |L| then
      PruneReady(e, n);
      PruneAll(PruneNext(e, n), n)
    else
      e
  }

  /** The edge store after one turn of the pruning loop: the first
      unconfirmed link of n unlinked. */
  ghost function PruneNext(e: Edges, n: NodeId): (r: Edges)
    requires EdgesOk(e) && n < |e.depList| && e.confirmed[n] < |e.depList[n]|
    ensures EdgesOk(r) && |r.depList| == |e.depList|
  {
    PruneReady(e, n);
    Unlink(e, e.depList[n][e.confirmed[n]])
  }

  /** One step of the pruning loop: the first unconfirmed link l of n is
      unlinked, n keeps its confirmed prefix, the rest of its list moves up
      one place, and l leaves the subscriber lists. */
  lemma PruneAllStep(e: Edges, n: NodeId)
    requires EdgesOk(e) && n < |e.depList| && e.confirmed[n] < |e.depList[n]|
    ensures var L := e.depList[n];
            var c := e.confirmed[n];
            var e1 := PruneNext(e, n);
            && n < |e1.depList| && e1.confirmed[n] == c && c <= |e1.depList[n]|
            && e1.depList[n] == RemoveAt(L, c)
            && e1.depList[n][c..] == L[c + 1..] && L[c..] == [L[c]] + L[c + 1..]
            && SubsMinus(e1, e, [L[c]])
            && PruneAll(e, n) == PruneAll(e1, n)
  {
    PruneStepDeps(e, n);
    PruneStepSubs(e, n);
    PruneAllUnfold(e, n);
  }

  /** Pruning goes on from where one turn leaves off. */
  lemma PruneAllUnfold(e: Edges, n: NodeId)
    requires EdgesOk(e) && n < |e.depList| && e.confirmed[n] < |e.depList[n]|
    ensures PruneAll(e, n) == PruneAll(PruneNext(e, n), n)
  {
  }

  /** What one turn does to n's own list. */
  lemma PruneStepDeps(e: Edges, n: NodeId)
    requires EdgesOk(e) && n < |e.depList| && e.confirmed[n] < |e.depList[n]|
    ensures var L := e.depList[n];
            var c := e.confirmed[n];
            var e1 := PruneNext(e, n);
            && n < |e1.depList| && e1.confirmed[n] == c && c <= |e1.depList[n]|
            && e1.depList[n] == RemoveAt(L, c)
            && e1.depList[n][c..] == L[c + 1..] && L[c..] == [L[c]] + L[c + 1..]
  {
    PruneReady(e, n);
    var L := e.depList[n];
    var c := e.confirmed[n];
    var L1 := PruneNext(e, n).depList[n];
    assert L1[c..] == L[c + 1..];
    assert L[c..] == [L[c]] + L[c + 1..];
  }

  /** What one turn does to the subscriber lists. */
  lemma PruneStepSubs(e: Edges, n: NodeId)
    requires EdgesOk(e) && n < |e.depList| && e.confirmed[n] < |e.depList[n]|
    ensures SubsMinus(PruneNext(e, n), e, [e.depList[n][e.confirmed[n]]])
  {
    PruneReady(e, n);
    UnlinkSubsMinus(e, e.depList[n][e.confirmed[n]]);
  }

  /** One turn of the pruning loop seen from its cursor: the cursor is the
      first unconfirmed link, unlink's arguments for it hold, the link after
      it is the next cursor, and the turn brings the store one step closer
      to the end of the pruning. */
  lemma PruneTurn(e: Edges, n: NodeId)
    requires EdgesOk(e) && n < |e.depList| && Unconfirmed(e, n).Some?
    ensures var x := Unconfirmed(e, n).value;
            && x < |e.dep| && x < |e.depPtrs.next| && e.dep[x] < |e.subList|
            && x in e.subList[e.dep[x]]
            && var j := IndexOf(e.subList[e.dep[x]], x);
               var e1 := PruneNext(e, n);
               && RemoveArgs(e, x, e.confirmed[n], j)
               && Remove(e, x, e.confirmed[n], j) == e1
               && e.depPtrs.next[x] == Unconfirmed(e1, n)
               && PruneAll(e1, n) == PruneAll(e, n)
               && e1.dep == e.dep && e1.sub == e.sub
               && |e1.depList[n]| - e1.confirmed[n] < |e.depList[n]| - e.confirmed[n]
  {
    var L := e.depList[n];
    var c := e.confirmed[n];
    PruneStepDeps(e, n);
    PruneAllUnfold(e, n);
    assert DepsOk(e, n);
    ThreadedNext(L, e.depPtrs, c);
    UnlinkReady(e, L[c]);
  }

  /** Pruning leaves n with exactly its confirmed links, in order, keeps
      every other consumer's list, and takes the pruned links, and only
      them, off their producers' subscriber lists. */
  lemma PruneAllEffect(e: Edges, n: NodeId)
    requires EdgesOk(e) && n < |e.depList|
    ensures var e' := PruneAll(e, n);
            var L := e.depList[n];
            var c := e.confirmed[n];
            && EdgesOk(e') && |e'.depList| == |e.depList| && c <= |L|
            && e'.depList[n] == L[..c] && e'.confirmed[n] == c
            && (forall m :: 0 <= m < |e.depList| && m != n ==> e'.depList[m] == e.depList[m] && e'.confirmed[m] == e.confirmed[m])
            && SubsMinus(e', e, L[c..])
  {
    PruneAllDeps(e, n);
    PruneAllSubs(e, n);
  }

  /** The consumer side of PruneAllEffect. */
  lemma {:induction false} PruneAllDeps(e: Edges, n: NodeId)
    requires EdgesOk(e) && n < |e.depList|
    ensures var e' := PruneAll(e, n);
            var L := e.depList[n];
            var c := e.confirmed[n];
            && EdgesOk(e') && |e'.depList| == |e.depList| && c <= |L|
            && e'.depList[n] == L[..c] && e'.confirmed[n] == c
            && (forall m :: 0 <= m < |e.depList| && m != n ==> e'.depList[m] == e.depList[m] && e'.confirmed[m] == e.confirmed[m])
    decreases |e.depList[n]| - e.confirmed[n]
  {
    var L := e.depList[n];
    var c := e.confirmed[n];
    assert DepsOk(e, n);
    if c < |L| {
      var e1 := PruneNext(e, n);
      PruneAllStep(e, n);
      UnlinkRemoves(e, L[c]);
      PruneAllDeps(e1, n);
      assert RemoveAt(L, c)[..c] == L[..c];
    }
  }

  /** The producer side of PruneAllEffect. */
  lemma {:induction false} PruneAllSubs(e: Edges, n: NodeId)
    requires EdgesOk(e) && n < |e.depList|
    ensures e.confirmed[n] <= |e.depList[n]|
    ensures SubsMinus(PruneAll(e, n), e, e.depList[n][e.confirmed[n]..])
    decreases |e.depList[n]| - e.confirmed[n]
  {
    var L := e.depList[n];
    var c := e.confirmed[n];
    assert DepsOk(e, n);
    if c < |L| {
      var e1 := PruneNext(e, n);
      PruneAllStep(e, n);
      PruneAllSubs(e1, n);
      SubsMinusTrans(e, e1, PruneAll(e1, n), [L[c]], L[c + 1..]);
    } else {
      assert L[c..] == [];
    }
  }

  /** e' has the subscriber lists of e without the links of P (as sets). */
  ghost predicate SubsMinus(e': Edges, e: Edges, P: seq<LinkId>)
  {
    && |e'.subList| == |e.subList|
    && forall m, y :: 0 <= m < |e.subList| ==> (y in e'.subList[m] <==> y in e.subList[m] && y !in P)
  }

  lemma SubsMinusTrans(e: Edges, e1: Edges, e2: Edges, P: seq<LinkId>, Q: seq<LinkId>)
    requires SubsMinus(e1, e, P) && SubsMinus(e2, e1, Q)
    ensures SubsMinus(e2, e, P + Q)
  {
  }

  /** unlink(l) takes l off its producer's list, which is the only list
      holding it. */
  lemma UnlinkSubsMinus(e: Edges, l: LinkId)
    requires EdgesOk(e) && Live(e, l)
    requires IndexOf(e.depList[e.sub[l]], l) >= e.confirmed[e.sub[l]]
    ensures SubsMinus(Unlink(e, l), e, [l])
  {
    UnlinkRemoves(e, l);
    var e1 := Unlink(e, l);
    var d := e.dep[l];
    forall m, y | 0 <= m < |e.subList|
      ensures y in e1.subList[m] <==> y in e.subList[m] && y !in [l]
    {
      if m != d {
        NotOnOtherProducer(e, l, m);
      }
    }
  }

  /** A link is on no subscriber list but its producer's. */
  lemma NotOnOtherProducer(e: Edges, l: LinkId, m: NodeId)
    requires EdgesOk(e) && l < |e.dep| && m < |e.depList| && m != e.dep[l]
    ensures l !in e.subList[m]
  {
    assert SubsOk(e, m);
    var S := e.subList[m];
    assert forall i :: 0 <= i < |S| ==> e.dep[S[i]] == m;
    assert forall i :: 0 <= i < |S| ==> S[i] != l;
  }

  /** The links a link step adds all have the consumer as `sub`. */
  lemma LinkSubs(e: Edges, d: NodeId, s: NodeId)
    requires Sized(e) && d < |e.depList| && s < |e.depList| && DepsOk(e, s) && SubsOk(e, d)
    ensures Link(e, d, s).sub == e.sub || Link(e, d, s).sub == e.sub + [s]
  {
  }
}
