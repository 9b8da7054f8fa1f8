/** Dirty marking (src/index.ts:285-311) in terms of flags: the Check/Dirty
    state of a node, the potential that makes markNode's recursion finite,
    and the closure property the marking establishes (a marked node's
    subscribers are marked as well). */
module Marking {
  import opened Common
  import opened HeapRing
  import opened Scheduler

  type LinkId = nat

  /** The Check/Dirty part of a node's flags. */
  function State(f: Flags): Flags
  {
    f & (CHECK | DIRTY)
  }

  predicate Marked(f: Flags)
  {
    State(f) != NONE
  }

  /** State(f) read as a number. */
  function Level(f: Flags): (r: nat)
    ensures r <= 3
    ensures r == 0 <==> !Marked(f)
  {
    (if f & CHECK != 0 then 1 else 0) + (if f & DIRTY != 0 then 2 else 0)
  }

  /** No bit is lost and only Check or Dirty bits are gained. */
  ghost predicate GainsOnly(f: seq<Flags>, f': seq<Flags>)
  {
    && |f'| == |f|
    && forall k :: 0 <= k < |f| ==>
         f'[k] & f[k] == f[k] && f'[k] & !(CHECK | DIRTY) == f[k] & !(CHECK | DIRTY)
  }

  /** The Check/Dirty marks still missing: markNode only ever adds marks,
      so each effective call lowers this sum. */
  function Slack(f: seq<Flags>): nat
  {
    if f == [] then 0 else (3 - Level(f[0])) + Slack(f[1..])
  }

  /** Every marked node outside P has all its subscribers marked.  The
      subscribers of k are the `sub` ends of the links on its subscriber
      list. */
  ghost predicate Closed(f: seq<Flags>, subList: seq<seq<LinkId>>, sub: seq<NodeId>, P: set<NodeId>)
  {
    forall k, i :: 0 <= k < |f| && k < |subList| && Marked(f[k]) && k !in P &&
                   0 <= i < |subList[k]| && subList[k][i] < |sub| && sub[subList[k][i]] < |f| ==>
      Marked(f[sub[subList[k][i]]])
  }

  lemma GainsLevel(a: Flags, b: Flags)
    requires b & a == a
    ensures Level(b) >= Level(a)
    ensures Marked(a) ==> Marked(b)
  {
  }

  /** Gaining marks never raises the slack, and strictly lowers it when
      some node's level rises. */
  lemma {:induction false} SlackGains(f: seq<Flags>, f': seq<Flags>)
    requires GainsOnly(f, f')
    ensures Slack(f') <= Slack(f)
    ensures (exists k :: 0 <= k < |f| && Level(f'[k]) > Level(f[k])) ==> Slack(f') < Slack(f)
  {
    if f != [] {
      GainsLevel(f[0], f'[0]);
      assert GainsOnly(f[1..], f'[1..]) by {
        forall k | 0 <= k < |f| - 1
          ensures f'[1..][k] & f[1..][k] == f[1..][k]
          ensures f'[1..][k] & !(CHECK | DIRTY) == f[1..][k] & !(CHECK | DIRTY)
        {
          assert f'[1..][k] == f'[k + 1] && f[1..][k] == f[k + 1];
        }
      }
      SlackGains(f[1..], f'[1..]);
      if exists k :: 0 <= k < |f| && Level(f'[k]) > Level(f[k]) {
        var k :| 0 <= k < |f| && Level(f'[k]) > Level(f[k]);
        if k > 0 {
          assert Level(f'[1..][k - 1]) > Level(f[1..][k - 1]);
        }
      }
    }
  }

  /** GainsOnly composes. */
  lemma GainsOnlyTrans(f: seq<Flags>, g: seq<Flags>, h: seq<Flags>)
    requires GainsOnly(f, g) && GainsOnly(g, h)
    ensures GainsOnly(f, h)
  {
    forall k | 0 <= k < |f|
      ensures h[k] & f[k] == f[k] && h[k] & !(CHECK | DIRTY) == f[k] & !(CHECK | DIRTY)
    {
      var a, b, c := f[k], g[k], h[k];
      assert b & a == a && c & b == b;
    }
  }

  /** Gaining marks keeps Pushed bits. */
  lemma GainsKeepPushed(f: seq<Flags>, f': seq<Flags>)
    requires GainsOnly(f, f')
    ensures SamePushed(f, f')
  {
    forall k | 0 <= k < |f| ensures Pushed(f'[k]) == Pushed(f[k]) {
      var a, b := f[k], f'[k];
      assert b & !(CHECK | DIRTY) == a & !(CHECK | DIRTY);
    }
  }

  /** The subscribers of k (the `sub` ends of the links on its subscriber
      list) are all marked. */
  ghost predicate SubsMarked(f: seq<Flags>, subList: seq<seq<LinkId>>, sub: seq<NodeId>, k: NodeId)
  {
    k < |subList| ==>
      forall i :: 0 <= i < |subList[k]| && subList[k][i] < |sub| && sub[subList[k][i]] < |f| ==>
        Marked(f[sub[subList[k][i]]])
  }

  /** What markNode guarantees from f to f': every node whose level it
      raised has all its subscribers marked. */
  ghost predicate Spread(f: seq<Flags>, f': seq<Flags>, subList: seq<seq<LinkId>>, sub: seq<NodeId>)
  {
    forall k :: 0 <= k < |f| && k < |f'| && Level(f'[k]) > Level(f[k]) ==> SubsMarked(f', subList, sub, k)
  }

  /** Spread for every node but el, whose subscribers are still being
      visited. */
  ghost predicate SpreadExcept(f: seq<Flags>, f': seq<Flags>, subList: seq<seq<LinkId>>, sub: seq<NodeId>, el: NodeId)
  {
    forall k :: 0 <= k < |f| && k < |f'| && k != el && Level(f'[k]) > Level(f[k]) ==> SubsMarked(f', subList, sub, k)
  }

  /** `(flags & (Check | Dirty)) >= newState` compares levels. */
  lemma StateIsLevel(f: Flags, x: Flags)
    requires x == CHECK || x == DIRTY
    ensures State(f) >= x <==> Level(f) >= Level(x)
  {
  }

  /** `flags | newState` with a lower state raises the level to at least
      newState's and gains only the mark bits. */
  lemma MarkRaises(f: Flags, x: Flags)
    requires (x == CHECK || x == DIRTY) && State(f) < x
    ensures Level(f | x) > Level(f) && Level(f | x) >= Level(x)
    ensures (f | x) & f == f && (f | x) & !(CHECK | DIRTY) == f & !(CHECK | DIRTY)
  {
  }

  /** Level 2 or more means the Dirty bit is set. */
  lemma DirtyLevel(f: Flags)
    ensures Level(f) >= Level(DIRTY) ==> f & DIRTY != 0
  {
  }

  /** Gaining marks at one node. */
  lemma GainsAt(f: seq<Flags>, el: NodeId, x: Flags)
    requires el < |f| && x & f[el] == f[el] && x & !(CHECK | DIRTY) == f[el] & !(CHECK | DIRTY)
    ensures GainsOnly(f, f[el := x])
  {
  }

  /** Changing only el's flags spreads nothing yet, apart from el. */
  lemma SpreadExceptAt(f: seq<Flags>, el: NodeId, x: Flags, subList: seq<seq<LinkId>>, sub: seq<NodeId>)
    requires el < |f|
    ensures SpreadExcept(f, f[el := x], subList, sub, el)
  {
  }

  /** Changing nothing spreads nothing. */
  lemma SpreadSame(f: seq<Flags>, subList: seq<seq<LinkId>>, sub: seq<NodeId>)
    ensures Spread(f, f, subList, sub)
  {
  }

  /** Marked subscribers stay marked as marks are gained. */
  lemma SubsMarkedGains(f: seq<Flags>, f': seq<Flags>, subList: seq<seq<LinkId>>, sub: seq<NodeId>, k: NodeId)
    requires GainsOnly(f, f') && SubsMarked(f, subList, sub, k)
    ensures SubsMarked(f', subList, sub, k)
  {
    if k < |subList| {
      forall i | 0 <= i < |subList[k]| && subList[k][i] < |sub| && sub[subList[k][i]] < |f'|
        ensures Marked(f'[sub[subList[k][i]]])
      {
        var m := sub[subList[k][i]];
        GainsLevel(f[m], f'[m]);
      }
    }
  }

  /** A recursive markNode call from fa to fb while el is being visited. */
  lemma SpreadStep(f0: seq<Flags>, fa: seq<Flags>, fb: seq<Flags>, subList: seq<seq<LinkId>>, sub: seq<NodeId>,
                   el: NodeId)
    requires SpreadExcept(f0, fa, subList, sub, el) && GainsOnly(fa, fb) && Spread(fa, fb, subList, sub)
    ensures SpreadExcept(f0, fb, subList, sub, el)
  {
    forall k | 0 <= k < |f0| && k < |fb| && k != el && Level(fb[k]) > Level(f0[k])
      ensures SubsMarked(fb, subList, sub, k)
    {
      if Level(fb[k]) <= Level(fa[k]) {
        SubsMarkedGains(fa, fb, subList, sub, k);
      }
    }
  }

  /** Spread composes along a sequence of markNode calls. */
  lemma SpreadTrans(f0: seq<Flags>, fa: seq<Flags>, fb: seq<Flags>, subList: seq<seq<LinkId>>, sub: seq<NodeId>)
    requires Spread(f0, fa, subList, sub) && GainsOnly(fa, fb) && Spread(fa, fb, subList, sub)
    ensures Spread(f0, fb, subList, sub)
  {
    forall k | 0 <= k < |f0| && k < |fb| && Level(fb[k]) > Level(f0[k])
      ensures SubsMarked(fb, subList, sub, k)
    {
      if Level(fb[k]) <= Level(fa[k]) {
        SubsMarkedGains(fa, fb, subList, sub, k);
      }
    }
  }

  /** Once el's subscribers are marked, el is no exception any more. */
  lemma SpreadClose(f0: seq<Flags>, f: seq<Flags>, subList: seq<seq<LinkId>>, sub: seq<NodeId>, el: NodeId)
    requires SpreadExcept(f0, f, subList, sub, el) && SubsMarked(f, subList, sub, el)
    ensures Spread(f0, f, subList, sub)
  {
  }

  /** Marking that spreads keeps closure: a node marked after it was
      either marked before (and its subscribers were and stay marked) or
      had its level raised (and its subscribers were marked). */
  lemma {:induction false} ClosedSpread(f: seq<Flags>, f': seq<Flags>, subList: seq<seq<LinkId>>, sub: seq<NodeId>,
                                        P: set<NodeId>)
    requires GainsOnly(f, f') && Spread(f, f', subList, sub) && Closed(f, subList, sub, P)
    ensures Closed(f', subList, sub, P)
  {
    forall k, i | 0 <= k < |f'| && k < |subList| && Marked(f'[k]) && k !in P &&
                  0 <= i < |subList[k]| && subList[k][i] < |sub| && sub[subList[k][i]] < |f'|
      ensures Marked(f'[sub[subList[k][i]]])
    {
      var m := sub[subList[k][i]];
      if Level(f'[k]) <= Level(f[k]) {
        assert Marked(f[k]);
        GainsLevel(f[m], f'[m]);
      } else {
        assert SubsMarked(f', subList, sub, k);
      }
    }
  }

  /** The state of markNode's loop over el's subscriber list S after i
      steps, from f0 (on entry) and f1 (el marked) to f. */
  ghost predicate MarkLoop(f0: seq<Flags>, f1: seq<Flags>, f: seq<Flags>, subList: seq<seq<LinkId>>, sub: seq<NodeId>,
                           el: NodeId, S: seq<LinkId>, i: nat)
  {
    && GainsOnly(f1, f) && Slack(f) <= Slack(f1)
    && SpreadExcept(f0, f, subList, sub, el)
    && i <= |S|
    && forall j :: 0 <= j < i && S[j] < |sub| && sub[S[j]] < |f| ==> Marked(f[sub[S[j]]])
  }

  lemma MarkLoopStart(f0: seq<Flags>, f1: seq<Flags>, subList: seq<seq<LinkId>>, sub: seq<NodeId>,
                      el: NodeId, S: seq<LinkId>)
    requires SpreadExcept(f0, f1, subList, sub, el)
    ensures MarkLoop(f0, f1, f1, subList, sub, el, S, 0)
  {
  }

  /** One recursive markNode call on the subscriber at S[i]. */
  lemma MarkLoopStep(f0: seq<Flags>, f1: seq<Flags>, fa: seq<Flags>, fb: seq<Flags>, subList: seq<seq<LinkId>>,
                     sub: seq<NodeId>, el: NodeId, S: seq<LinkId>, i: nat)
    requires MarkLoop(f0, f1, fa, subList, sub, el, S, i) && i < |S|
    requires MarkedFrom(fa, fb, subList, sub)
    requires S[i] < |sub| && sub[S[i]] < |fb| && Marked(fb[sub[S[i]]])
    ensures MarkLoop(f0, f1, fb, subList, sub, el, S, i + 1)
  {
    SpreadStep(f0, fa, fb, subList, sub, el);
    GainsOnlyTrans(f1, fa, fb);
    SlackGains(fa, fb);
    forall j | 0 <= j < i && S[j] < |sub| && sub[S[j]] < |fb| ensures Marked(fb[sub[S[j]]]) {
      GainsLevel(fa[sub[S[j]]], fb[sub[S[j]]]);
    }
  }

  /** After the whole list: el's own marking is complete. */
  lemma MarkLoopEnd(f0: seq<Flags>, f1: seq<Flags>, f: seq<Flags>, subList: seq<seq<LinkId>>, sub: seq<NodeId>,
                    el: NodeId)
    requires el < |subList| && MarkLoop(f0, f1, f, subList, sub, el, subList[el], |subList[el]|)
    requires GainsOnly(f0, f1) && el < |f1|
    ensures MarkedFrom(f0, f, subList, sub) && Level(f[el]) >= Level(f1[el])
  {
    GainsOnlyTrans(f0, f1, f);
    GainsLevel(f1[el], f[el]);
    SpreadClose(f0, f, subList, sub, el);
  }

  /** The first n nodes of r carry Dirty. */
  ghost predicate DirtyUpTo(f: seq<Flags>, r: seq<NodeId>, n: nat)
  {
    n <= |r| && forall j :: 0 <= j < n ==> r[j] < |f| && f[r[j]] & DIRTY != 0
  }

  /** markNode(r[n]) with newState Dirty extends the prefix, and gaining
      marks keeps it. */
  lemma DirtyUpToStep(fa: seq<Flags>, fb: seq<Flags>, r: seq<NodeId>, n: nat)
    requires DirtyUpTo(fa, r, n) && n < |r| && GainsOnly(fa, fb) && r[n] < |fb| && Level(fb[r[n]]) >= Level(DIRTY)
    ensures DirtyUpTo(fb, r, n + 1)
  {
    DirtyLevel(fb[r[n]]);
    forall j | 0 <= j < n ensures fb[r[j]] & DIRTY != 0 {
      KeepsDirty(fa[r[j]], fb[r[j]]);
    }
  }

  /** Gaining marks keeps Dirty on every node of r. */
  lemma DirtyUpToGains(fa: seq<Flags>, fb: seq<Flags>, r: seq<NodeId>)
    requires DirtyUpTo(fa, r, |r|) && GainsOnly(fa, fb)
    ensures DirtyUpTo(fb, r, |r|)
  {
    forall j | 0 <= j < |r| ensures fb[r[j]] & DIRTY != 0 {
      KeepsDirty(fa[r[j]], fb[r[j]]);
    }
  }


  lemma GainsOnlySame(f: seq<Flags>)
    ensures GainsOnly(f, f)
  {
  }

  /** A non-empty bucket of well-formed buckets threads its ring, which
      holds at most one entry per node. */
  lemma RingOfBucket(s: Sched, rings: seq<seq<NodeId>>, h: nat)
    requires HeapWf(s, rings) && At(s.heap, h).Some?
    ensures h < |rings| && IsRing(At(s.heap, h), rings[h], s.next, s.prev) && |rings[h]| <= |s.flags|
  {
    assert h < |rings|;
    assert IsRing(At(s.heap, h), rings[h], s.next, s.prev);
    DistinctBelow(rings[h], |s.flags|);
  }

  /** Completed buckets stay Dirty while later buckets are marked. */
  lemma DirtyRingsGains(fa: seq<Flags>, fb: seq<Flags>, rings: seq<seq<NodeId>>, n: nat)
    requires GainsOnly(fa, fb)
    ensures (forall h :: 0 <= h < n && h < |rings| ==> DirtyUpTo(fa, rings[h], |rings[h]|)) ==>
              forall h :: 0 <= h < n && h < |rings| ==> DirtyUpTo(fb, rings[h], |rings[h]|)
  {
    forall h | 0 <= h < n && h < |rings| && DirtyUpTo(fa, rings[h], |rings[h]|)
      ensures DirtyUpTo(fb, rings[h], |rings[h]|)
    {
      DirtyUpToGains(fa, fb, rings[h]);
    }
  }

  /** With well-formed buckets, marking the rings of every bucket up to
      maxHeightInHeap marks every pushed node. */
  lemma MarkHeapAll(s: Sched, rings: seq<seq<NodeId>>, f: seq<Flags>)
    requires HeapWf(s, rings) && |f| == |s.flags|
    requires forall h :: 0 <= h < s.maxHeight + 1 && h < |rings| ==> DirtyUpTo(f, rings[h], |rings[h]|)
    ensures forall k :: 0 <= k < |f| && Pushed(s.flags[k]) ==> f[k] & DIRTY != 0
  {
    forall k | 0 <= k < |f| && Pushed(s.flags[k]) ensures f[k] & DIRTY != 0 {
      var h := s.height[k];
      assert h < |rings| && k in rings[h];
      var j :| 0 <= j < |rings[h]| && rings[h][j] == k;
      assert DirtyUpTo(f, rings[h], |rings[h]|);
    }
  }

  /** From f to f' marks were only gained, and they spread. */
  ghost predicate MarkedFrom(f: seq<Flags>, f': seq<Flags>, subList: seq<seq<LinkId>>, sub: seq<NodeId>)
  {
    GainsOnly(f, f') && Spread(f, f', subList, sub)
  }

  lemma MarkedFromSame(f: seq<Flags>, subList: seq<seq<LinkId>>, sub: seq<NodeId>)
    ensures MarkedFrom(f, f, subList, sub)
  {
    SpreadSame(f, subList, sub);
  }

  lemma MarkedFromTrans(f0: seq<Flags>, fa: seq<Flags>, fb: seq<Flags>, subList: seq<seq<LinkId>>, sub: seq<NodeId>)
    requires MarkedFrom(f0, fa, subList, sub) && MarkedFrom(fa, fb, subList, sub)
    ensures MarkedFrom(f0, fb, subList, sub)
  {
    GainsOnlyTrans(f0, fa, fb);
    SpreadTrans(f0, fa, fb, subList, sub);
  }

  /** Every bucket below n has its whole ring Dirty. */
  ghost predicate BucketsDirty(f: seq<Flags>, rings: seq<seq<NodeId>>, n: nat)
  {
    forall h :: 0 <= h < n && h < |rings| ==> DirtyUpTo(f, rings[h], |rings[h]|)
  }

  /** The loop state of markHeap after the buckets below i: with well-formed
      buckets, enough gas means no walk has run out, and every completed
      walk left its ring Dirty. */
  ghost predicate HeapLoop(wf: bool, gas: nat, ok: bool, f: seq<Flags>, rings: seq<seq<NodeId>>, i: nat)
  {
    && (wf && gas >= |f| ==> ok)
    && (wf && ok ==> BucketsDirty(f, rings, i))
  }

  lemma HeapLoopStart(wf: bool, gas: nat, f: seq<Flags>, rings: seq<seq<NodeId>>)
    ensures HeapLoop(wf, gas, true, f, rings, 0)
  {
  }

  /** A bucket whose walk met MarkRing's promise. */
  lemma HeapLoopStep(wf: bool, gas: nat, ok: bool, ringOk: bool, fa: seq<Flags>, fb: seq<Flags>,
                     rings: seq<seq<NodeId>>, i: nat)
    requires HeapLoop(wf, gas, ok, fa, rings, i) && GainsOnly(fa, fb)
    requires wf ==> i < |rings| && |rings[i]| <= |fa| && (|rings[i]| <= gas ==> ringOk) &&
                    (ringOk ==> DirtyUpTo(fb, rings[i], |rings[i]|))
    ensures HeapLoop(wf, gas, ok && ringOk, fb, rings, i + 1)
  {
    if wf && ok && ringOk {
      forall h | 0 <= h < i + 1 && h < |rings| ensures DirtyUpTo(fb, rings[h], |rings[h]|) {
        if h < i {
          DirtyUpToGains(fa, fb, rings[h]);
        }
      }
    }
  }

  /** An empty bucket. */
  lemma HeapLoopSkip(s: Sched, wf: bool, gas: nat, ok: bool, f: seq<Flags>, rings: seq<seq<NodeId>>, i: nat)
    requires HeapLoop(wf, gas, ok, f, rings, i) && (wf ==> HeapWf(s, rings)) && At(s.heap, i).None?
    ensures HeapLoop(wf, gas, ok, f, rings, i + 1)
  {
    if wf && i < |rings| {
      assert rings[i] == [];
    }
  }
}
