/** markHeap of src/index.ts as functions on the engine's state.  A
    Snapshot holds the fields of Reactive.Engine other than `fns`; each
    function below takes the flags (or the snapshot) before a call of the
    marking method of the same name and gives them after it, together with
    whether the call completed.  The marking methods of Reactive.Engine are
    proved to end in the state these functions give, and what marking
    promises is proved here, once, on the functions. */
module EngineSpec {
  import opened Common
  import opened LinkList
  import opened HeapRing
  import opened EdgeStore
  import opened Scheduler
  import opened Marking
  import opened EngineState

  /** The engine's fields other than fns. */
  datatype Snapshot = Snapshot(
    value: seq<Value>, wiring: Wiring, lists: Lists, sched: Sched,
    markedHeap: bool, context: Option<NodeId>, stabilizeHeight: nat, trace: seq<NodeId>)

  /** The flags a marking walk leaves, and whether its budget sufficed. */
  datatype Marks = Marks(flags: seq<Flags>, ok: bool)

  /** The state after a call that returns only whether it completed. */
  datatype Done = Done(m: Snapshot, ok: bool)

  ghost predicate Ok(fns: seq<Option<Fn>>, m: Snapshot)
  {
    Good(fns, m.value, m.wiring, m.lists, m.sched, m.context)
  }

  function EdgesOf(m: Snapshot): Edges
  {
    Join(m.wiring, m.lists)
  }

  // ---------------------------------------------------------------------
  // markHeap

  /** markNode(el, ns) (src/index.ts:285-296) on the flags f. */
  ghost function MarkNode(f: seq<Flags>, e: Edges, el: NodeId, ns: Flags): (r: seq<Flags>)
    requires Walkable(e, |f|) && el < |f| && (ns == CHECK || ns == DIRTY)
    ensures GainsOnly(f, r)
    ensures Slack(r) <= Slack(f)
    decreases Slack(f), 0, 0
  {
    StateIsLevel(f[el], ns);
    if State(f[el]) >= ns then
      GainsOnlySame(f);
      f
    else
      MarkRaises(f[el], ns);
      var f1 := f[el := f[el] | ns];
      GainsAt(f, el, f[el] | ns);
      assert Level(f1[el]) > Level(f[el]);
      SlackGains(f, f1);
      var r := MarkSubs(f1, e, el, 0);
      GainsOnlyTrans(f, f1, r);
      SlackGains(f, r);
      r
  }

  /** The loop of markNode over el's subscriber list from position i on:
      each subscriber is marked Check. */
  ghost function MarkSubs(f: seq<Flags>, e: Edges, el: NodeId, i: nat): (r: seq<Flags>)
    requires Walkable(e, |f|) && el < |f| && i <= |e.subList[el]|
    ensures GainsOnly(f, r)
    ensures Slack(r) <= Slack(f)
    decreases Slack(f), 1, |e.subList[el]| - i
  {
    if i == |e.subList[el]| then
      GainsOnlySame(f);
      f
    else
      assert SubsWalk(e, el);
      var f2 := MarkNode(f, e, e.sub[e.subList[el][i]], CHECK);
      SlackGains(f, f2);
      var r := MarkSubs(f2, e, el, i + 1);
      GainsOnlyTrans(f, f2, r);
      SlackGains(f, r);
      r
  }

  /** The do-while walk of markHeap over one bucket (src/index.ts:302-309),
      at el after `steps` turns: markNode(el, Dirty), then on to nextHeap
      until head comes round again, within gas turns. */
  ghost function MarkRing(f: seq<Flags>, e: Edges, next: seq<NodeId>, head: NodeId, el: NodeId, steps: nat, gas: nat): (r: Marks)
    requires Walkable(e, |f|) && |next| == |f| && el < |f|
    requires forall k :: 0 <= k < |f| ==> next[k] < |f|
    ensures GainsOnly(f, r.flags)
    decreases gas - steps
  {
    if steps >= gas then
      GainsOnlySame(f);
      Marks(f, false)
    else
      var f1 := MarkNode(f, e, el, DIRTY);
      if next[el] == head then
        Marks(f1, true)
      else
        var r := MarkRing(f1, e, next, head, next[el], steps + 1, gas);
        GainsOnlyTrans(f, f1, r.flags);
        r
  }

  /** The bucket loop of markHeap (src/index.ts:300-310) from height i on. */
  ghost function MarkBuckets(s: Sched, e: Edges, f: seq<Flags>, i: nat, ok: bool, gas: nat): (r: Marks)
    requires SchedOk(s) && |f| == |s.flags| && Walkable(e, |f|) && i <= s.maxHeight + 1
    ensures GainsOnly(f, r.flags)
    ensures !ok ==> !r.ok
    decreases s.maxHeight + 1 - i
  {
    if i > s.maxHeight then
      GainsOnlySame(f);
      Marks(f, ok)
    else
      var head := At(s.heap, i);
      if head.Some? then
        var k := MarkRing(f, e, s.next, head.value, head.value, 0, gas);
        var r := MarkBuckets(s, e, k.flags, i + 1, ok && k.ok, gas);
        GainsOnlyTrans(f, k.flags, r.flags);
        r
      else
        MarkBuckets(s, e, f, i + 1, ok, gas)
  }

  /** One turn of the loop of markNode, as MarkSubs takes it. */
  lemma MarkSubsNext(f: seq<Flags>, e: Edges, el: NodeId, i: nat)
    requires Walkable(e, |f|) && el < |f| && i < |e.subList[el]|
    ensures SubsWalk(e, el) && e.sub[e.subList[el][i]] < |f|
    ensures MarkSubs(f, e, el, i) == MarkSubs(MarkNode(f, e, e.sub[e.subList[el][i]], CHECK), e, el, i + 1)
  {
    assert SubsWalk(e, el);
  }

  /** The two cases of markNode, as MarkNode takes them. */
  lemma MarkNodeSteps(f: seq<Flags>, e: Edges, el: NodeId, ns: Flags)
    requires Walkable(e, |f|) && el < |f| && (ns == CHECK || ns == DIRTY)
    ensures State(f[el]) >= ns ==> MarkNode(f, e, el, ns) == f
    ensures State(f[el]) < ns ==> MarkNode(f, e, el, ns) == MarkSubs(f[el := f[el] | ns], e, el, 0)
  {
  }

  /** The end of the loop of markNode, as MarkSubs takes it. */
  lemma MarkSubsEnd(f: seq<Flags>, e: Edges, el: NodeId)
    requires Walkable(e, |f|) && el < |f|
    ensures MarkSubs(f, e, el, |e.subList[el]|) == f
  {
  }

  /** Raising el in markNode only gains bits and lowers the slack. */
  lemma MarkRaiseSlack(f: seq<Flags>, el: NodeId, ns: Flags)
    requires el < |f| && (ns == CHECK || ns == DIRTY) && State(f[el]) < ns
    ensures GainsOnly(f, f[el := f[el] | ns]) && Slack(f[el := f[el] | ns]) < Slack(f)
  {
    MarkRaises(f[el], ns);
    GainsAt(f, el, f[el] | ns);
    assert Level(f[el := f[el] | ns][el]) > Level(f[el]);
    SlackGains(f, f[el := f[el] | ns]);
  }

  /** What markNode promises (see Marking): marks spread from every node
      whose level rose, and el ends at ns or above. */
  lemma {:induction false} MarkNodeMarks(f: seq<Flags>, e: Edges, el: NodeId, ns: Flags)
    requires Walkable(e, |f|) && el < |f| && (ns == CHECK || ns == DIRTY)
    ensures MarkedFrom(f, MarkNode(f, e, el, ns), e.subList, e.sub)
    ensures Level(MarkNode(f, e, el, ns)[el]) >= Level(ns)
    decreases Slack(f), 0, 0
  {
    StateIsLevel(f[el], ns);
    if State(f[el]) >= ns {
      MarkedFromSame(f, e.subList, e.sub);
    } else {
      MarkRaises(f[el], ns);
      var f1 := f[el := f[el] | ns];
      GainsAt(f, el, f[el] | ns);
      SpreadExceptAt(f, el, f[el] | ns, e.subList, e.sub);
      assert Level(f1[el]) > Level(f[el]);
      SlackGains(f, f1);
      MarkSubsFrom(f, f1, e, el);
    }
  }

  /** The second half of markNode: once el is raised from f to f1, the
      walk over its subscribers completes the spreading. */
  lemma {:induction false} MarkSubsFrom(f: seq<Flags>, f1: seq<Flags>, e: Edges, el: NodeId)
    requires Walkable(e, |f|) && el < |f| && |f1| == |f|
    requires GainsOnly(f, f1) && SpreadExcept(f, f1, e.subList, e.sub, el)
    ensures MarkedFrom(f, MarkSubs(f1, e, el, 0), e.subList, e.sub)
    ensures Level(MarkSubs(f1, e, el, 0)[el]) >= Level(f1[el])
    decreases Slack(f1), 2, 0
  {
    MarkLoopStart(f, f1, e.subList, e.sub, el, e.subList[el]);
    MarkSubsMarks(f, f1, f1, e, el, 0);
    MarkLoopEnd(f, f1, MarkSubs(f1, e, el, 0), e.subList, e.sub, el);
  }

  /** The loop of markNode keeps the loop state of Marking.MarkLoop up to
      the end of el's subscriber list. */
  lemma {:induction false} MarkSubsMarks(f0: seq<Flags>, f1: seq<Flags>, f: seq<Flags>, e: Edges, el: NodeId, i: nat)
    requires Walkable(e, |f|) && el < |f| && i <= |e.subList[el]|
    requires MarkLoop(f0, f1, f, e.subList, e.sub, el, e.subList[el], i)
    ensures MarkLoop(f0, f1, MarkSubs(f, e, el, i), e.subList, e.sub, el, e.subList[el], |e.subList[el]|)
    decreases Slack(f), 1, |e.subList[el]| - i
  {
    var S := e.subList[el];
    if i < |S| {
      assert SubsWalk(e, el);
      var x := e.sub[S[i]];
      var f2 := MarkNode(f, e, x, CHECK);
      MarkNodeMarks(f, e, x, CHECK);
      MarkLoopStep(f0, f1, f, f2, e.subList, e.sub, el, S, i);
      SlackGains(f, f2);
      MarkSubsMarks(f0, f1, f2, e, el, i + 1);
    }
  }

  /** The walk over a bucket threading the ring r, at r[steps] with the
      nodes before it Dirty: with gas for |r| nodes it completes, and a
      walk that completes leaves every node of r Dirty. */
  lemma {:induction false} MarkRingMarks(f: seq<Flags>, e: Edges, next: seq<NodeId>, prev: seq<NodeId>, head: NodeId,
                                         el: NodeId, steps: nat, gas: nat, r: seq<NodeId>)
    requires Walkable(e, |f|) && |next| == |f| && el < |f|
    requires forall k :: 0 <= k < |f| ==> next[k] < |f|
    ensures var k := MarkRing(f, e, next, head, el, steps, gas);
            && MarkedFrom(f, k.flags, e.subList, e.sub)
            && (IsRing(Some(head), r, next, prev) && steps < |r| && el == r[steps] && DirtyUpTo(f, r, steps) ==>
                  (|r| <= gas ==> k.ok) && (k.ok ==> DirtyUpTo(k.flags, r, |r|)))
    decreases gas - steps
  {
    if steps >= gas {
      MarkedFromSame(f, e.subList, e.sub);
    } else {
      var f1 := MarkNode(f, e, el, DIRTY);
      MarkNodeMarks(f, e, el, DIRTY);
      if IsRing(Some(head), r, next, prev) && steps < |r| && el == r[steps] && DirtyUpTo(f, r, steps) {
        DirtyUpToStep(f, f1, r, steps);
        RingWalkStep(head, r, next, prev, steps);
      }
      if next[el] != head {
        MarkRingMarks(f1, e, next, prev, head, next[el], steps + 1, gas, r);
        MarkedFromTrans(f, f1, MarkRing(f1, e, next, head, next[el], steps + 1, gas).flags, e.subList, e.sub);
      }
    }
  }

  /** The bucket loop keeps Marking.HeapLoop: with well-formed buckets
      threading `rings`, enough gas completes every walk, and the walks
      that complete leave their rings Dirty. */
  lemma {:induction false} MarkBucketsMarks(s: Sched, e: Edges, f: seq<Flags>, i: nat, ok: bool, gas: nat,
                                            rings: seq<seq<NodeId>>)
    requires SchedOk(s) && |f| == |s.flags| && Walkable(e, |f|) && i <= s.maxHeight + 1
    requires HeapLoop(HeapWf(s, rings), gas, ok, f, rings, i)
    ensures var k := MarkBuckets(s, e, f, i, ok, gas);
            && MarkedFrom(f, k.flags, e.subList, e.sub)
            && HeapLoop(HeapWf(s, rings), gas, k.ok, k.flags, rings, s.maxHeight + 1)
    decreases s.maxHeight + 1 - i
  {
    var wf := HeapWf(s, rings);
    if i > s.maxHeight {
      MarkedFromSame(f, e.subList, e.sub);
    } else {
      var head := At(s.heap, i);
      if head.Some? {
        var k := MarkRing(f, e, s.next, head.value, head.value, 0, gas);
        MarkBucketMarks(s, e, f, i, ok, gas, rings);
        MarkBucketsMarks(s, e, k.flags, i + 1, ok && k.ok, gas, rings);
        MarkedFromTrans(f, k.flags, MarkBuckets(s, e, k.flags, i + 1, ok && k.ok, gas).flags, e.subList, e.sub);
      } else {
        HeapLoopSkip(s, wf, gas, ok, f, rings, i);
        MarkBucketsMarks(s, e, f, i + 1, ok, gas, rings);
      }
    }
  }

  /** One bucket of the loop of MarkBuckets: its ring walk keeps
      Marking.HeapLoop one height further. */
  lemma MarkBucketMarks(s: Sched, e: Edges, f: seq<Flags>, i: nat, ok: bool, gas: nat, rings: seq<seq<NodeId>>)
    requires SchedOk(s) && |f| == |s.flags| && Walkable(e, |f|) && i <= s.maxHeight && At(s.heap, i).Some?
    requires HeapLoop(HeapWf(s, rings), gas, ok, f, rings, i)
    ensures var k := MarkRing(f, e, s.next, At(s.heap, i).value, At(s.heap, i).value, 0, gas);
            && MarkedFrom(f, k.flags, e.subList, e.sub)
            && HeapLoop(HeapWf(s, rings), gas, ok && k.ok, k.flags, rings, i + 1)
  {
    var wf := HeapWf(s, rings);
    var head := At(s.heap, i).value;
    var k := MarkRing(f, e, s.next, head, head, 0, gas);
    if wf {
      RingOfBucket(s, rings, i);
      var r := rings[i];
      assert DirtyUpTo(f, r, 0);
      MarkRingMarks(f, e, s.next, s.prev, head, head, 0, gas, r);
      HeapLoopStep(wf, gas, ok, k.ok, f, k.flags, rings, i);
    } else {
      MarkRingMarks(f, e, s.next, s.prev, head, head, 0, gas, []);
      HeapLoopStep(wf, gas, ok, k.ok, f, k.flags, rings, i);
    }
  }

  /** markHeap() (src/index.ts:298-311): once marked since the last
      setSignal it changes nothing; otherwise only flags change, by gaining
      marks, and markedHeap is set. */
  ghost function MarkHeap(fns: seq<Option<Fn>>, m: Snapshot, gas: nat): (r: Done)
    requires Ok(fns, m)
    ensures Ok(fns, r.m) && r.m.markedHeap
    ensures r.m == m.(markedHeap := true, sched := m.sched.(flags := r.m.sched.flags))
    ensures GainsOnly(m.sched.flags, r.m.sched.flags)
    ensures m.markedHeap ==> r == Done(m, true)
  {
    if m.markedHeap then
      GainsOnlySame(m.sched.flags);
      Done(m, true)
    else
      OkWalkable(EdgesOf(m));
      var k := MarkBuckets(m.sched, EdgesOf(m), m.sched.flags, 0, true, gas);
      FitsIgnoresLevels(m.sched, |fns|, Computeds(fns), k.flags, m.sched.height);
      Done(m.(markedHeap := true, sched := m.sched.(flags := k.flags)), k.ok)
  }
}
