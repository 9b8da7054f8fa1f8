/** The scenario of test/basic.test.ts:11-41 on the engine: a signal s
    holding 1, a = s + 1 and b = a + 1, then stabilize, setSignal(s, 2) and
    stabilize again.  Both drains recompute only quietly (see Quiet), so
    QuietStabilize, evaluated here step by step on the explicit states the
    engine passes through, fixes their outcome. */
module Scenario {
  import opened Common
  import opened LinkList
  import opened HeapRing
  import opened EdgeStore
  import opened Scheduler
  import opened EngineState
  import opened Quiet
  import opened Reactive

  /** `x + 1` on the one value read. */
  function Inc(vs: seq<Value>): Value
  {
    if |vs| == 1 && vs[0].Num? then Num(vs[0].n + 1) else Undefined
  }

  /** The branch test of a read whose value picks no branch. */
  function Always(v: Value): bool
  {
    true
  }

  /** `() => read(d) + 1`: one read, whatever its value, then Inc. */
  function PlusOne(d: NodeId): Fn
  {
    Read(d, Always, Return(Inc), Return(Inc))
  }

  /** The nodes of the test: 0 is s, 1 is a, 2 is b. */
  ghost function Fns(): seq<Option<Fn>>
  {
    [None, Some(PlusOne(0)), Some(PlusOne(1))]
  }

  // ---------------------------------------------------------------------
  // the states the two drains pass through

  /** The bucket array: the empty array H with buckets 0 and 1 set. */
  function Heap(H: seq<Option<NodeId>>, b0: Option<NodeId>, b1: Option<NodeId>): seq<Option<NodeId>>
    requires |H| == 2000
  {
    H[0 := b0][1 := b1]
  }

  ghost predicate EmptyHeap(H: seq<Option<NodeId>>)
  {
    |H| == 2000 && forall h :: At(H, h) == None
  }

  /** The scheduler with every node self-looped. */
  function Loose(H: seq<Option<NodeId>>, f: seq<Flags>, h: seq<nat>, b0: Option<NodeId>, b1: Option<NodeId>, max: nat): Sched
    requires |H| == 2000
  {
    Sched(f, h, Heap(H, b0, b1), [0, 1, 2], [0, 1, 2], max)
  }

  /** Three nodes and no link. */
  ghost function Unlinked(): Edges
  {
    Edges([None, None, None], [None, None, None], [None, None, None], [None, None, None], [], [],
          Ptrs([], []), Ptrs([], []), [[], [], []], [[], [], []], [0, 0, 0])
  }

  /** Link 0 from s to a. */
  ghost function OneLink(): Edges
  {
    Edges([None, Some(0), None], [None, Some(0), None], [Some(0), None, None], [Some(0), None, None], [0], [1],
          Ptrs([None], [None]), Ptrs([None], [None]), [[], [0], []], [[0], [], []], [0, 1, 0])
  }

  /** Links 0 (s to a) and 1 (a to b). */
  ghost function TwoLinks(): Edges
  {
    Edges([None, Some(0), Some(1)], [None, Some(0), Some(1)], [Some(0), Some(1), None], [Some(0), Some(1), None],
          [0, 1], [1, 2], Ptrs([None, None], [None, None]), Ptrs([None, None], [None, None]),
          [[], [0], [1]], [[0], [1], []], [0, 1, 1])
  }

  /** The state `computed` leaves: a and b in bucket 0, a at its head. */
  ghost function Queued(H: seq<Option<NodeId>>): Sched
    requires |H| == 2000
  {
    Sched([NONE, PUSHED, PUSHED], [0, 0, 0], Heap(H, Some(1), None), [0, 2, 1], [0, 2, 1], 0)
  }

  // ---------------------------------------------------------------------
  // one-read steps

  /** A run that reads one node links it once. */
  lemma LinkOnce(e: Edges, d: NodeId, c: NodeId)
    requires EdgesOk(e) && c < |e.depList| && d < |e.depList|
    ensures DepsOk(e, c) && SubsOk(e, d) && LinkAll(e, [d], c) == Link(e, d, c)
  {
    LinkAllCons(e, d, [], c);
    assert [d] + [] == [d];
  }

  /** A run that reads one node lifts the reader once. */
  lemma RaiseOnce(fns: seq<Option<Fn>>, s: Sched, d: NodeId, c: NodeId)
    requires SchedOk(s) && c < |s.flags| && d < |s.flags| && d < |fns|
    ensures RaiseAll(fns, s, [d], c) == ReadRaise(fns, s, d, c)
  {
    RaiseAllCons(fns, s, d, [], c);
    assert [d] + [] == [d];
  }

  /** Pruning a fully confirmed list changes nothing. */
  lemma PruneNothing(e: Edges, n: NodeId)
    requires EdgesOk(e) && n < |e.depList| && e.confirmed[n] == |e.depList[n]|
    ensures PruneAll(e, n) == e
  {
  }

  /** The end of a recompute whose dependency list is wholly confirmed:
      nothing is pruned, the value is stored and, when it changed, the
      subscribers are notified. */
  lemma SettledConfirmed(fns: seq<Option<Fn>>, o: Outcome, el: NodeId, v: Value)
    requires Sized3(fns, o, el) && o.edges.confirmed[el] == |o.edges.depList[el]|
    ensures Settled(fns, o, el, v)
            == Outcome(o.value[el := v], o.edges,
                       if o.value[el] == v then o.sched else NotifyAll(o.sched, Subscribers(o.edges, el)),
                       o.trace + [el])
  {
    PruneNothing(o.edges, el);
  }

  /** The store with no links is well formed. */
  lemma UnlinkedOk()
    ensures EdgesOk(Unlinked())
  {
    var e := Unlinked();
    forall n | 0 <= n < 3 ensures DepsOk(e, n) && SubsOk(e, n) {
    }
  }

  /** a's first read of s: a fresh link 0. */
  lemma LinkSA()
    ensures EdgesOk(Unlinked()) && DepsOk(Unlinked(), 1) && SubsOk(Unlinked(), 0) && Link(Unlinked(), 0, 1) == OneLink()
  {
    SlowSA();
    AppendSA();
  }

  /** With no links, link takes the slow path. */
  lemma SlowSA()
    ensures EdgesOk(Unlinked()) && DepsOk(Unlinked(), 1) && SubsOk(Unlinked(), 0)
    ensures Link(Unlinked(), 0, 1) == Append(Unlinked(), 0, 1)
  {
    UnlinkedOk();
  }

  /** The fresh link 0 from s to a. */
  lemma AppendSA()
    ensures Sized(Unlinked()) && Unlinked().subsTail[0].None? && Unlinked().confirmed[1] == 0
    ensures Append(Unlinked(), 0, 1) == OneLink()
  {
    var e := Unlinked();
    var a := Append(e, 0, 1);
    assert a.deps == [None, Some(0), None];
    assert a.depsTail == [None, Some(0), None];
    assert a.subs == [Some(0), None, None];
    assert a.subsTail == [Some(0), None, None];
    assert a.dep == [0] && a.sub == [1];
    assert a.depPtrs == Ptrs([None], [None]) && a.subPtrs == Ptrs([None], [None]);
    assert e.depList[1][..0] + [0] + e.depList[1][0..] == [0];
    assert a.depList == [[], [0], []];
    assert a.subList == [[0], [], []];
    assert a.confirmed == [0, 1, 0];
  }

  /** What a recompute's one read of d does to the edge store: el's
      confirmations are forgotten, then d is linked to el. */
  ghost function Relink(e: Edges, d: NodeId, el: NodeId): (r: Edges)
    requires EdgesOk(e) && d < |e.depList| && el < |e.depList|
    ensures EdgesOk(r) && |r.depList| == |e.depList|
  {
    RestartKeepsOk(e, el);
    var e0 := Restart(e, el);
    assert DepsOk(e0, el) && SubsOk(e0, d);
    LinkKeepsOk(e0, d, el);
    LinkFrame(e0, d, el);
    Link(e0, d, el)
  }

  /** recompute(el) of a node whose fn is PlusOne(d), when the read of d
      is quiet and leaves el's list wholly confirmed: el reads d's value,
      links d, is lifted above a computed d, stores Inc of the value and,
      when that differs from its old value, notifies its subscribers. */
  lemma OneReadStep(fns: seq<Option<Fn>>, o: Outcome, el: NodeId, sh: nat, d: NodeId)
    requires Sized3(fns, o, el) && d < |fns| && fns[el] == Some(PlusOne(d))
    requires QuietRead(fns, StartSched(o.sched, el), sh, d, el)
    requires Relink(o.edges, d, el).confirmed[el] == |Relink(o.edges, d, el).depList[el]|
    ensures var e1 := Relink(o.edges, d, el);
            var s2 := ReadRaise(fns, StartSched(o.sched, el), d, el);
            var v := Inc([o.value[d]]);
            QuietStep(fns, o, el, sh)
            == Some(Outcome(o.value[el := v], e1, if o.value[el] == v then s2 else NotifyAll(s2, Subscribers(e1, el)),
                            o.trace + [el]))
  {
    RestartKeepsOk(o.edges, el);
    var e0 := Restart(o.edges, el);
    var e1 := Relink(o.edges, d, el);
    var s1 := StartSched(o.sched, el);
    var f := PlusOne(d);
    assert QuietFn(fns, f, s1, sh, el);
    var o1 := Started(fns, o, el);
    assert o1 == Outcome(o.value, e0, s1, o.trace);
    assert Walk(f, o.value) == [d];
    assert ValuesAt(o.value, [d]) == [o.value[d]];
    var v := Inc([o.value[d]]);
    var x := o.value[d];
    assert [] + [x] == [x] && [x][1..] == [];
    assert Go(f, [], [x]) == Go(Return(Inc), [x], []);
    assert Run(f, [x]) == Some(v);
    LinkOnce(e0, d, el);
    RaiseOnce(fns, s1, d, el);
    var s2 := ReadRaise(fns, s1, d, el);
    var o2 := Outcome(o.value, e1, s2, o.trace);
    assert QuietFinish(fns, o1, el) == Some(Settled(fns, o2, el, v));
    SettledConfirmed(fns, o2, el, v);
    assert FnBelow(f, |fns|);
    assert QuietFn(fns, fns[el].value, StartSched(o.sched, el), sh, el);
    assert QuietStep(fns, o, el, sh) == QuietFinish(fns, o1, el);
  }

  /** The self-looped schedulers over the empty array are well formed. */
  lemma LooseOk(H: seq<Option<NodeId>>, f: seq<Flags>, h: seq<nat>, b0: Option<NodeId>, b1: Option<NodeId>, max: nat)
    requires EmptyHeap(H) && |f| == 3 && |h| == 3
    requires (b0.Some? ==> b0.value < 3) && (b1.Some? ==> b1.value < 3)
    ensures SchedOk(Loose(H, f, h, b0, b1, max))
  {
    assert forall k :: 0 <= k < |H| ==> H[k] == At(H, k);
  }

  lemma QueuedOk(H: seq<Option<NodeId>>)
    requires EmptyHeap(H)
    ensures SchedOk(Queued(H))
  {
    assert forall k :: 0 <= k < |H| ==> H[k] == At(H, k);
  }

  lemma OneLinkOk()
    ensures EdgesOk(OneLink())
  {
    RelinkSA();
  }

  lemma TwoLinksOk()
    ensures EdgesOk(TwoLinks())
  {
    RelinkAB();
  }

  /** A bucket whose head is alone in it empties when its head leaves. */
  lemma LeaveAlone(H: seq<Option<NodeId>>, f: seq<Flags>, h: seq<nat>, b0: Option<NodeId>, b1: Option<NodeId>, max: nat, el: NodeId)
    requires EmptyHeap(H) && |f| == 3 && |h| == 3 && el < 3 && h[el] <= 1
    requires (b0.Some? ==> b0.value < 3) && (b1.Some? ==> b1.value < 3)
    requires (if h[el] == 0 then b0 else b1) == Some(el) && f[el] == PUSHED
    ensures SchedOk(Loose(H, f, h, b0, b1, max))
    ensures StartSched(Loose(H, f, h, b0, b1, max), el)
            == Loose(H, f[el := NONE], h, if h[el] == 0 then None else b0, if h[el] == 0 then b1 else None, max)
  {
    LooseOk(H, f, h, b0, b1, max);
    var s := Loose(H, f, h, b0, b1, max);
    assert BucketAt(s, h[el]) == Bucket(Some(el), [0, 1, 2], [0, 1, 2]);
    assert Delete(BucketAt(s, h[el]), el) == Bucket(None, [0, 1, 2], [0, 1, 2]);
    assert WithoutPushed(PUSHED) == NONE;
    if h[el] == 0 {
      assert Heap(H, b0, b1)[0 := None] == Heap(H, None, b1);
    } else {
      assert Heap(H, b0, b1)[1 := None] == Heap(H, b0, None);
    }
  }

  /** a leaves bucket 0, b becomes its head. */
  lemma StartA1(H: seq<Option<NodeId>>)
    requires EmptyHeap(H)
    ensures SchedOk(Queued(H)) && StartSched(Queued(H), 1) == Loose(H, [NONE, NONE, PUSHED], [0, 0, 0], Some(2), None, 0)
  {
    QueuedOk(H);
    var s := Queued(H);
    var b := Delete(BucketAt(s, 0), 1);
    assert BucketAt(s, 0) == Bucket(Some(1), [0, 2, 1], [0, 2, 1]);
    assert b == Bucket(Some(2), [0, 1, 2], [0, 1, 2]);
    assert WithoutPushed(PUSHED) == NONE;
  }

  /** a's first read of s adds link 0. */
  lemma RelinkSA()
    ensures EdgesOk(Unlinked()) && Relink(Unlinked(), 0, 1) == OneLink()
  {
    UnlinkedOk();
    assert Restart(Unlinked(), 1) == Unlinked();
    LinkSA();
  }

  /** The fresh link 1 from a to b. */
  lemma AppendAB()
    ensures Sized(OneLink()) && OneLink().subsTail[1].None? && OneLink().confirmed[2] == 0
    ensures Append(OneLink(), 1, 2) == TwoLinks()
  {
    var e := OneLink();
    var a := Append(e, 1, 2);
    assert a.deps == [None, Some(0), Some(1)];
    assert a.depsTail == [None, Some(0), Some(1)];
    assert a.subs == [Some(0), Some(1), None];
    assert a.subsTail == [Some(0), Some(1), None];
    assert a.dep == [0, 1] && a.sub == [1, 2];
    assert a.depPtrs == Ptrs([None, None], [None, None]) && a.subPtrs == Ptrs([None, None], [None, None]);
    assert e.depList[2][..0] + [1] + e.depList[2][0..] == [1];
    assert a.depList == [[], [0], [1]];
    assert e.subList[1] + [1] == [1];
    assert a.subList == [[0], [1], []];
    assert a.confirmed == [0, 1, 1];
  }

  /** b has no confirmed link and a no subscriber, so link takes the slow
      path. */
  lemma LinkAB()
    ensures EdgesOk(OneLink()) && DepsOk(OneLink(), 2) && SubsOk(OneLink(), 1)
    ensures Link(OneLink(), 1, 2) == Append(OneLink(), 1, 2)
  {
    OneLinkOk();
  }

  /** b's first read of a adds link 1. */
  lemma RelinkAB()
    ensures EdgesOk(OneLink()) && Relink(OneLink(), 1, 2) == TwoLinks()
  {
    OneLinkOk();
    assert Restart(OneLink(), 2) == OneLink();
    LinkAB();
    AppendAB();
  }

  /** A later read by el of its one dependency d: the first link of el's
      list is d's, so link only moves el's tail back onto it. */
  lemma LinkAgain(el: NodeId, d: NodeId)
    requires (el == 1 && d == 0) || (el == 2 && d == 1)
    requires EdgesOk(TwoLinks())
    ensures EdgesOk(Restart(TwoLinks(), el)) && DepsOk(Restart(TwoLinks(), el), el) && SubsOk(Restart(TwoLinks(), el), d)
    ensures Link(Restart(TwoLinks(), el), d, el) == TwoLinks()
  {
    var e := TwoLinks();
    RestartKeepsOk(e, el);
    var e0 := Restart(e, el);
    assert e0.depList[el] == [d] && e0.confirmed[el] == 0 && e0.dep[d] == d;
    assert Link(e0, d, el) == e0.(depsTail := e0.depsTail[el := Some(d)], confirmed := e0.confirmed[el := 1]);
  }

  lemma RelinkAgain(el: NodeId, d: NodeId)
    requires (el == 1 && d == 0) || (el == 2 && d == 1)
    ensures EdgesOk(TwoLinks()) && Relink(TwoLinks(), d, el) == TwoLinks()
  {
    TwoLinksOk();
    LinkAgain(el, d);
  }

  lemma SubscribersOf()
    ensures EdgesOk(TwoLinks())
    ensures Subscribers(TwoLinks(), 0) == [1] && Subscribers(TwoLinks(), 1) == [2] && Subscribers(TwoLinks(), 2) == []
  {
    TwoLinksOk();
  }

  // ---------------------------------------------------------------------
  // the four recomputes

  /** The states: O0 after building the graph, O1 and O2 after the first
      drain's two recomputes, O3 after setSignal(s, 2), O4 and O5 after the
      second drain's recomputes at heights 0 and 1. */
  ghost function O0(H: seq<Option<NodeId>>): Outcome
    requires |H| == 2000
  {
    Outcome([Num(1), Undefined, Undefined], Unlinked(), Queued(H), [])
  }

  ghost function O1(H: seq<Option<NodeId>>): Outcome
    requires |H| == 2000
  {
    Outcome([Num(1), Num(2), Undefined], OneLink(), Loose(H, [NONE, NONE, PUSHED], [0, 0, 0], Some(2), None, 0), [1])
  }

  ghost function O2(H: seq<Option<NodeId>>): Outcome
    requires |H| == 2000
  {
    Outcome([Num(1), Num(2), Num(3)], TwoLinks(), Loose(H, [NONE, NONE, NONE], [0, 0, 1], None, None, 0), [1, 2])
  }

  ghost function O3(H: seq<Option<NodeId>>): Outcome
    requires |H| == 2000
  {
    Outcome([Num(2), Num(2), Num(3)], TwoLinks(), Loose(H, [NONE, PUSHED, NONE], [0, 0, 1], Some(1), None, 0), [1, 2])
  }

  ghost function O4(H: seq<Option<NodeId>>): Outcome
    requires |H| == 2000
  {
    Outcome([Num(2), Num(3), Num(3)], TwoLinks(), Loose(H, [NONE, NONE, PUSHED], [0, 0, 1], None, Some(2), 1), [1, 2, 1])
  }

  ghost function O5(H: seq<Option<NodeId>>): Outcome
    requires |H| == 2000
  {
    Outcome([Num(2), Num(3), Num(4)], TwoLinks(), Loose(H, [NONE, NONE, NONE], [0, 0, 1], None, None, 1), [1, 2, 1, 2])
  }

  /** OneReadStep with each of its pieces named. */
  lemma StepBy(fns: seq<Option<Fn>>, o: Outcome, el: NodeId, sh: nat, d: NodeId,
               s1: Sched, e1: Edges, s2: Sched, ns: seq<NodeId>, o': Outcome)
    requires Sized3(fns, o, el) && d < |fns| && fns[el] == Some(PlusOne(d))
    requires StartSched(o.sched, el) == s1 && QuietRead(fns, s1, sh, d, el)
    requires Relink(o.edges, d, el) == e1 && e1.confirmed[el] == |e1.depList[el]|
    requires ReadRaise(fns, s1, d, el) == s2 && Subscribers(e1, el) == ns
    requires o' == Outcome(o.value[el := Inc([o.value[d]])], e1,
                           if o.value[el] == Inc([o.value[d]]) then s2 else NotifyAll(s2, ns), o.trace + [el])
    ensures QuietStep(fns, o, el, sh) == Some(o')
  {
    OneReadStep(fns, o, el, sh, d);
  }

  /** The scheduler side of a's first recompute. */
  lemma FirstASched(H: seq<Option<NodeId>>)
    requires EmptyHeap(H)
    ensures SchedOk(Queued(H))
    ensures var s1 := O1(H).sched;
            && StartSched(Queued(H), 1) == s1 && QuietRead(Fns(), s1, 0, 0, 1)
            && ReadRaise(Fns(), s1, 0, 1) == s1
  {
    StartA1(H);
  }

  lemma FirstAEnd(H: seq<Option<NodeId>>)
    requires EmptyHeap(H)
    ensures SchedOk(O1(H).sched)
    ensures O1(H) == Outcome(O0(H).value[1 := Inc([O0(H).value[0]])], OneLink(), NotifyAll(O1(H).sched, []), O0(H).trace + [1])
  {
    LooseOk(H, [NONE, NONE, PUSHED], [0, 0, 0], Some(2), None, 0);
  }

  /** First drain, bucket 0: a reads s (1) and stores 2; it has no
      subscriber yet. */
  lemma FirstA(H: seq<Option<NodeId>>)
    requires EmptyHeap(H)
    ensures QuietStep(Fns(), O0(H), 1, 0) == Some(O1(H))
  {
    FirstASched(H);
    UnlinkedOk();
    assert Sized3(Fns(), O0(H), 1);
    RelinkSA();
    OneLinkOk();
    assert Subscribers(OneLink(), 1) == [];
    FirstAEnd(H);
    StepBy(Fns(), O0(H), 1, 0, 0, O1(H).sched, OneLink(), O1(H).sched, [], O1(H));
  }

  /** The scheduler side of b's first recompute. */
  lemma FirstBSched(H: seq<Option<NodeId>>)
    requires EmptyHeap(H)
    ensures SchedOk(O1(H).sched)
    ensures var s1 := Loose(H, [NONE, NONE, NONE], [0, 0, 0], None, None, 0);
            && StartSched(O1(H).sched, 2) == s1 && QuietRead(Fns(), s1, 0, 1, 2)
            && ReadRaise(Fns(), s1, 1, 2) == O2(H).sched
  {
    LeaveAlone(H, [NONE, NONE, PUSHED], [0, 0, 0], Some(2), None, 0, 2);
    LooseOk(H, [NONE, NONE, NONE], [0, 0, 0], None, None, 0);
  }

  lemma FirstBEnd(H: seq<Option<NodeId>>)
    requires EmptyHeap(H)
    ensures SchedOk(O2(H).sched)
    ensures O2(H) == Outcome(O1(H).value[2 := Inc([O1(H).value[1]])], TwoLinks(), NotifyAll(O2(H).sched, []), O1(H).trace + [2])
  {
    LooseOk(H, [NONE, NONE, NONE], [0, 0, 1], None, None, 0);
  }

  /** First drain, bucket 0: b reads a (2), stores 3 and is lifted to
      height 1. */
  lemma FirstB(H: seq<Option<NodeId>>)
    requires EmptyHeap(H)
    ensures QuietStep(Fns(), O1(H), 2, 0) == Some(O2(H))
  {
    FirstBSched(H);
    OneLinkOk();
    assert Sized3(Fns(), O1(H), 2);
    RelinkAB();
    SubscribersOf();
    FirstBEnd(H);
    StepBy(Fns(), O1(H), 2, 0, 1, Loose(H, [NONE, NONE, NONE], [0, 0, 0], None, None, 0), TwoLinks(), O2(H).sched, [], O2(H));
  }

  /** setSignal(s, 2) enqueues a, s's one subscriber, in bucket 0. */
  lemma SetS(H: seq<Option<NodeId>>)
    requires EmptyHeap(H)
    ensures SchedOk(O2(H).sched) && EdgesOk(TwoLinks())
    ensures InsertAll(O2(H).sched, Subscribers(TwoLinks(), 0)) == O3(H).sched
  {
    SubscribersOf();
    InsertA(H);
  }

  /** The state after setSignal(s, 2), in the terms of setSignal's
      contract. */
  lemma SetSOutcome(H: seq<Option<NodeId>>)
    requires EmptyHeap(H)
    ensures SchedOk(O2(H).sched) && EdgesOk(O2(H).edges) && |O2(H).value| == 3 && O2(H).value[0] != Num(2)
    ensures O3(H) == Outcome(O2(H).value[0 := Num(2)], O2(H).edges,
                             InsertAll(O2(H).sched, Subscribers(O2(H).edges, 0)), O2(H).trace)
  {
    SetS(H);
  }

  lemma InsertA(H: seq<Option<NodeId>>)
    requires EmptyHeap(H)
    ensures SchedOk(O2(H).sched) && InsertAll(O2(H).sched, [1]) == O3(H).sched
  {
    LooseOk(H, [NONE, NONE, NONE], [0, 0, 1], None, None, 0);
    var s := O2(H).sched;
    InsertOne(s, 1);
    InsertEmpty(s, 1);
    StoreA(H);
    assert WithPushed(NONE) == PUSHED;
  }

  /** Inserting a list of one node is inserting the node. */
  lemma InsertOne(s: Sched, n: NodeId)
    requires SchedOk(s) && n < |s.flags|
    ensures AllBelow([n], |s.flags|) && InsertAll(s, [n]) == InsertIntoHeap(s, n)
  {
    assert [n][1..] == [];
  }

  /** Bucket 0 of an empty heap filled with a. */
  lemma StoreA(H: seq<Option<NodeId>>)
    requires EmptyHeap(H)
    ensures Store(Heap(H, None, None), 0, Some(1)) == Heap(H, Some(1), None)
  {
  }

  /** insertIntoHeap of a node that is not pushed, into an empty bucket:
      the node becomes the bucket, its pointers untouched. */
  lemma InsertEmpty(s: Sched, n: NodeId)
    requires SchedOk(s) && n < |s.flags| && !Pushed(s.flags[n]) && At(s.heap, s.height[n]) == None
    ensures InsertIntoHeap(s, n) ==
              s.(flags := s.flags[n := WithPushed(s.flags[n])], heap := Store(s.heap, s.height[n], Some(n)),
                 maxHeight := if s.height[n] > s.maxHeight then s.height[n] else s.maxHeight)
  {
  }

  /** a's change puts b into the empty bucket 1. */
  lemma Notified(H: seq<Option<NodeId>>)
    requires EmptyHeap(H)
    ensures SchedOk(O2(H).sched) && NotifyAll(O2(H).sched, [2]) == O4(H).sched
  {
    var s := O2(H).sched;
    LooseOk(H, [NONE, NONE, NONE], [0, 0, 1], None, None, 0);
    assert [2][1..] == [];
    assert Escalate(NONE) == NONE;
    assert s.(flags := s.flags[2 := NONE]) == s;
    assert NotifyAll(s, [2]) == InsertIntoHeap(s, 2);
    assert At(s.heap, 1) == None;
    assert WithPushed(NONE) == PUSHED;
    assert Store(s.heap, 1, Some(2)) == Heap(H, None, Some(2));
  }

  /** The scheduler side of a's second recompute. */
  lemma SecondASched(H: seq<Option<NodeId>>)
    requires EmptyHeap(H)
    ensures SchedOk(O3(H).sched)
    ensures var s1 := O2(H).sched;
            && StartSched(O3(H).sched, 1) == s1 && QuietRead(Fns(), s1, 0, 0, 1)
            && ReadRaise(Fns(), s1, 0, 1) == s1
  {
    LeaveAlone(H, [NONE, PUSHED, NONE], [0, 0, 1], Some(1), None, 0, 1);
  }

  lemma SecondAEnd(H: seq<Option<NodeId>>)
    requires EmptyHeap(H)
    ensures SchedOk(O2(H).sched)
    ensures O4(H) == Outcome(O3(H).value[1 := Inc([O3(H).value[0]])], TwoLinks(), NotifyAll(O2(H).sched, [2]), O3(H).trace + [1])
  {
    Notified(H);
  }

  /** Second drain, bucket 0: a reads s (2), stores 3 and enqueues b in
      bucket 1. */
  lemma SecondA(H: seq<Option<NodeId>>)
    requires EmptyHeap(H)
    ensures QuietStep(Fns(), O3(H), 1, 0) == Some(O4(H))
  {
    SecondASched(H);
    TwoLinksOk();
    assert Sized3(Fns(), O3(H), 1);
    RelinkAgain(1, 0);
    SubscribersOf();
    SecondAEnd(H);
    StepBy(Fns(), O3(H), 1, 0, 0, O2(H).sched, TwoLinks(), O2(H).sched, [2], O4(H));
  }

  /** The scheduler side of b's second recompute. */
  lemma SecondBSched(H: seq<Option<NodeId>>)
    requires EmptyHeap(H)
    ensures SchedOk(O4(H).sched)
    ensures var s1 := O5(H).sched;
            && StartSched(O4(H).sched, 2) == s1 && QuietRead(Fns(), s1, 1, 1, 2)
            && ReadRaise(Fns(), s1, 1, 2) == s1
  {
    LeaveAlone(H, [NONE, NONE, PUSHED], [0, 0, 1], None, Some(2), 1, 2);
  }

  lemma SecondBEnd(H: seq<Option<NodeId>>)
    requires EmptyHeap(H)
    ensures SchedOk(O5(H).sched)
    ensures O5(H) == Outcome(O4(H).value[2 := Inc([O4(H).value[1]])], TwoLinks(), NotifyAll(O5(H).sched, []), O4(H).trace + [2])
  {
    LooseOk(H, [NONE, NONE, NONE], [0, 0, 1], None, None, 1);
  }

  /** Second drain, bucket 1: b reads a (3) and stores 4. */
  lemma SecondB(H: seq<Option<NodeId>>)
    requires EmptyHeap(H)
    ensures QuietStep(Fns(), O4(H), 2, 1) == Some(O5(H))
  {
    SecondBSched(H);
    TwoLinksOk();
    assert Sized3(Fns(), O4(H), 2);
    RelinkAgain(2, 1);
    SubscribersOf();
    SecondBEnd(H);
    StepBy(Fns(), O4(H), 2, 1, 1, O5(H).sched, TwoLinks(), O5(H).sched, [], O5(H));
  }

  // ---------------------------------------------------------------------
  // the two stabilizes

  /** The first stabilize: two recomputes at height 0, then the loop stops
      since maxHeightInHeap is still 0. */
  lemma FirstRun(H: seq<Option<NodeId>>)
    requires EmptyHeap(H)
    ensures QuietStabilize(Fns(), O0(H), 0, [2]) == Some(O2(H))
  {
    FirstDrain(H);
    LastLevel(Fns(), O0(H), 0, 2, O2(H));
  }

  /** A stabilize whose one bucket left drains to a state with nothing
      higher. */
  lemma LastLevel(fns: seq<Option<Fn>>, o: Outcome, h: nat, k: nat, o': Outcome)
    requires h <= o.sched.maxHeight && QuietDrain(fns, o, h, k) == Some(o') && o'.sched.maxHeight <= h
    ensures QuietStabilize(fns, o, h, [k]) == Some(o')
  {
    assert [k][1..] == [];
  }

  /** The drain of bucket 0 in the first stabilize. */
  lemma FirstDrain(H: seq<Option<NodeId>>)
    requires EmptyHeap(H)
    ensures QuietDrain(Fns(), O0(H), 0, 2) == Some(O2(H))
  {
    FirstA(H);
    FirstDrainB(H);
    assert At(O0(H).sched.heap, 0) == Some(1);
  }

  /** b's turn in the first drain, after which bucket 0 is empty. */
  lemma FirstDrainB(H: seq<Option<NodeId>>)
    requires EmptyHeap(H)
    ensures QuietDrain(Fns(), O1(H), 0, 1) == Some(O2(H))
  {
    FirstB(H);
    assert At(O2(H).sched.heap, 0) == None;
    assert QuietDrain(Fns(), O2(H), 0, 0) == Some(O2(H));
    assert At(O1(H).sched.heap, 0) == Some(2);
  }

  /** The second stabilize: a at height 0, whose change lifts
      maxHeightInHeap to 1, then b at height 1. */
  lemma SecondRun(H: seq<Option<NodeId>>)
    requires EmptyHeap(H)
    ensures QuietStabilize(Fns(), O3(H), 0, [1, 1]) == Some(O5(H))
  {
    SecondA(H);
    SecondHigh(H);
    assert At(O4(H).sched.heap, 0) == None;
    assert QuietDrain(Fns(), O4(H), 0, 0) == Some(O4(H));
    assert At(O3(H).sched.heap, 0) == Some(1);
    assert QuietDrain(Fns(), O3(H), 0, 1) == Some(O4(H));
    assert [1, 1][1..] == [1];
  }

  /** The second stabilize from height 1. */
  lemma SecondHigh(H: seq<Option<NodeId>>)
    requires EmptyHeap(H)
    ensures QuietStabilize(Fns(), O4(H), 1, [1]) == Some(O5(H))
  {
    SecondB(H);
    assert At(O5(H).sched.heap, 1) == None;
    assert QuietDrain(Fns(), O5(H), 1, 0) == Some(O5(H));
    assert At(O4(H).sched.heap, 1) == Some(2);
    assert QuietDrain(Fns(), O4(H), 1, 1) == Some(O5(H));
    assert [1][1..] == [];
  }

  /** signal(1) on a fresh engine. */
  method BuildS() returns (e: Engine, ghost H: seq<Option<NodeId>>)
    ensures fresh(e) && e.Valid() && EmptyHeap(H) && e.trace == []
    ensures e.fns == [None] && e.value == [Num(1)]
    ensures e.EdgesView() == Edges([None], [None], [None], [None], [], [], Ptrs([], []), Ptrs([], []), [[]], [[]], [0])
    ensures e.sched == Sched([NONE], [0], H, [0], [0], 0)
  {
    e := new Engine();
    H := e.sched.heap;
    var s := e.NewSignal(Num(1));
  }

  /** computed(a = s + 1). */
  method BuildA(e: Engine, ghost H: seq<Option<NodeId>>)
    requires e.Valid() && EmptyHeap(H) && e.trace == []
    requires e.fns == [None] && e.value == [Num(1)]
    requires e.EdgesView() == Edges([None], [None], [None], [None], [], [], Ptrs([], []), Ptrs([], []), [[]], [[]], [0])
    requires e.sched == Sched([NONE], [0], H, [0], [0], 0)
    modifies e
    ensures e.Valid() && e.trace == []
    ensures e.fns == [None, Some(PlusOne(0))] && e.value == [Num(1), Undefined]
    ensures e.EdgesView() == Edges([None, None], [None, None], [None, None], [None, None], [], [], Ptrs([], []), Ptrs([], []),
                                   [[], []], [[], []], [0, 0])
    ensures e.sched == Sched([NONE, PUSHED], [0, 0], H[0 := Some(1)], [0, 1], [0, 1], 0)
  {
    var a := e.NewComputed(PlusOne(0));
    assert forall h :: 0 <= h < |H| ==> H[h] == At(H, h);
  }

  /** computed(b = a + 1). */
  method BuildB(e: Engine, ghost H: seq<Option<NodeId>>)
    requires e.Valid() && EmptyHeap(H) && e.trace == []
    requires e.fns == [None, Some(PlusOne(0))] && e.value == [Num(1), Undefined]
    requires e.EdgesView() == Edges([None, None], [None, None], [None, None], [None, None], [], [], Ptrs([], []), Ptrs([], []),
                                    [[], []], [[], []], [0, 0])
    requires e.sched == Sched([NONE, PUSHED], [0, 0], H[0 := Some(1)], [0, 1], [0, 1], 0)
    modifies e
    ensures e.Valid() && e.fns == Fns() && e.Now() == O0(H)
  {
    var b := e.NewComputed(PlusOne(1));
    assert H[0 := Some(1)] == Heap(H, Some(1), None);
  }

  /** The graph of the test, built on a fresh engine. */
  method Build() returns (e: Engine, ghost H: seq<Option<NodeId>>)
    ensures fresh(e) && e.Valid() && EmptyHeap(H) && e.fns == Fns() && e.Now() == O0(H)
  {
    e, H := BuildS();
    BuildA(e, H);
    BuildB(e, H);
  }

  /** The first stabilize: a then b at height 0. */
  method StabilizeFirst(e: Engine, ghost H: seq<Option<NodeId>>, gas: nat) returns (ok: bool)
    requires e.Valid() && EmptyHeap(H) && e.fns == Fns()
    modifies e
    ensures e.Valid() && e.fns == Fns()
    ensures ok && old(e.Now()) == O0(H) ==> e.Now() == O2(H)
  {
    FirstRun(H);
    ok := e.Stabilize(gas, [2]);
  }

  /** setSignal(s, 2) after the first stabilize. */
  method SetS2(e: Engine, ghost H: seq<Option<NodeId>>)
    requires e.Valid() && EmptyHeap(H) && e.fns == Fns()
    modifies e
    ensures e.Valid() && e.fns == Fns()
    ensures old(e.Now()) == O2(H) ==> e.Now() == O3(H)
  {
    SetSOutcome(H);
    e.SetSignal(0, Num(2));
  }

  /** The second stabilize: a at height 0, then b at height 1. */
  method StabilizeSecond(e: Engine, ghost H: seq<Option<NodeId>>, gas: nat) returns (ok: bool)
    requires e.Valid() && EmptyHeap(H) && e.fns == Fns()
    modifies e
    ensures e.Valid() && e.fns == Fns()
    ensures ok && old(e.Now()) == O3(H) ==> e.Now() == O5(H)
  {
    SecondRun(H);
    ok := e.Stabilize(gas, [1, 1]);
  }

  /** test/basic.test.ts:11-41 on one engine: signal(1), a = s + 1,
      b = a + 1, stabilize, setSignal(s, 2), stabilize.  When neither
      stabilize runs out of gas, the first gives a = 2 and b = 3 with b one
      level above a, the second a = 3 and b = 4, and each stabilize
      recomputes a then b exactly once. */
  method Basic(gas: nat) returns (ok: bool, a1: Value, b1: Value, ha: nat, hb: nat, a2: Value, b2: Value,
                                  ghost log1: seq<NodeId>, ghost log2: seq<NodeId>)
    ensures ok ==> a1 == Num(2) && b1 == Num(3) && ha == 0 && hb == 1
    ensures ok ==> a2 == Num(3) && b2 == Num(4)
    ensures ok ==> log1 == [1, 2] && log2 == [1, 2, 1, 2]
  {
    var e, H := Build();
    var ok1 := StabilizeFirst(e, H, gas);
    a1, b1, ha, hb, log1 := e.value[1], e.value[2], e.sched.height[1], e.sched.height[2], e.trace;
    SetS2(e, H);
    var ok2 := StabilizeSecond(e, H, gas);
    a2, b2, log2 := e.value[1], e.value[2], e.trace;
    ok := ok1 && ok2;
  }
}
