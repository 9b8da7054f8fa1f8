/** The engine of src/index.ts as one object.  Every `Signal`/`Computed`
    record is a node id and every `Link` record a link id; a record field is
    a sequence indexed by id.  The link-pointer fields of all records form
    `wiring`, the scheduling fields of all nodes together with the
    module-level `heap` and `maxHeightInHeap` form `sched`, and the other
    module-level variables (`markedHeap`, `context`, `stabilizeHeight`) are
    fields of their own.  The ghost field `lists` holds the abstract lists
    the link pointers thread (see EdgeStore).  Every method is proved
    against the specification functions of EdgeStore and Scheduler, whose
    own properties are lemmas there. */
module Reactive {
  import opened Common
  import opened LinkList
  import opened HeapRing
  import opened EdgeStore
  import opened Scheduler
  import opened Marking
  import opened EngineState
  import opened Quiet
  import EngineSpec

  class Engine {
    // per node; fns[n] is None for a signal
    var fns: seq<Option<Fn>>
    var value: seq<Value>
    // deps/depsTail/subs/subsTail of every node, dep/sub/prevDep/nextDep/prevSub/nextSub of every link
    var wiring: Wiring
    // flags/height/nextHeap/prevHeap of every node, the `heap` array and maxHeightInHeap
    var sched: Sched
    // module-level state
    var markedHeap: bool
    var context: Option<NodeId>
    var stabilizeHeight: nat
    // the lists the link pointers thread
    ghost var lists: Lists
    // the recomputes completed so far, in order
    ghost var trace: seq<NodeId>

    ghost function EdgesView(): Edges
      reads this`wiring, this`lists
    {
      Join(wiring, lists)
    }

    /** The fields other than fns, as one value (see EngineSpec). */
    ghost function Snap(): EngineSpec.Snapshot
      reads this
    {
      EngineSpec.Snapshot(value, wiring, lists, sched, markedHeap, context, stabilizeHeight, trace)
    }

    /** The fields a recompute without nested evaluation changes (see Quiet). */
    ghost function Now(): Outcome
      reads this`value, this`wiring, this`lists, this`sched, this`trace
    {
      Outcome(value, EdgesView(), sched, trace)
    }

    /** The engine invariant (see Good). */
    ghost predicate Valid()
      reads this`fns, this`value, this`wiring, this`lists, this`sched, this`context
    {
      Good(fns, value, wiring, lists, sched, context)
    }

    /** The module state at load time (src/index.ts:33-38): an empty graph
        and `new Array(2000)` of empty buckets. */
    constructor()
      ensures Valid() && fns == [] && value == []
      ensures wiring == Wiring([], [], [], [], [], [], Ptrs([], []), Ptrs([], [])) && lists == Lists([], [], [])
      ensures sched == Sched([], [], sched.heap, [], [], 0)
      ensures |sched.heap| == 2000 && forall h :: At(sched.heap, h) == None
      ensures !markedHeap && context == None && stabilizeHeight == 0 && sched.maxHeight == 0 && trace == []
    {
      fns, value := [], [];
      wiring := Wiring([], [], [], [], [], [], Ptrs([], []), Ptrs([], []));
      sched := Sched([], [], seq(2000, _ => None), [], [], 0);
      markedHeap, context, stabilizeHeight := false, None, 0;
      lists := Lists([], [], []);
      trace := [];
    }

    /** increaseHeapSize(n) (src/index.ts:39-43): growing the array adds
        empty buckets only. */
    method IncreaseHeapSize(n: nat)
      requires Valid()
      modifies this`sched
      ensures Valid()
      ensures sched == old(sched).(heap := sched.heap)
      ensures |sched.heap| == if n > |old(sched.heap)| then n else |old(sched.heap)|
      ensures forall h :: At(sched.heap, h) == At(old(sched.heap), h)
    {
      if n > |sched.heap| {
        sched := sched.(heap := sched.heap + seq(n - |sched.heap|, _ => None));
      }
    }

    /** insertIntoHeap(n) (src/index.ts:45-62). */
    method InsertIntoHeap(n: NodeId)
      requires SchedOk(sched) && n < |sched.flags|
      modifies this`sched
      ensures sched == Scheduler.InsertIntoHeap(old(sched), n)
    {
      var f := sched.flags[n];
      if f & PUSHED == 0 {
        sched := sched.(flags := sched.flags[n := WithPushed(f)]);
        var h := sched.height[n];
        var newHStart := At(sched.heap, h);
        if newHStart.None? {
          sched := sched.(heap := Store(sched.heap, h, Some(n)));
        } else {
          var s := newHStart.value;
          var t := sched.prev[s];
          sched := sched.(next := sched.next[t := n]);
          sched := sched.(prev := sched.prev[n := t]);
          sched := sched.(prev := sched.prev[s := n]);
          sched := sched.(next := sched.next[n := s]);
        }
        if h > sched.maxHeight {
          sched := sched.(maxHeight := h);
        }
      }
    }

    /** deleteFromHeap(n) (src/index.ts:64-78). */
    method DeleteFromHeap(n: NodeId)
      requires SchedOk(sched) && n < |sched.flags|
      modifies this`sched
      ensures sched == Scheduler.DeleteFromHeap(old(sched), n)
    {
      var h := sched.height[n];
      if At(sched.heap, h) == Some(n) {
        sched := sched.(heap := sched.heap[h := Some(sched.next[n])]);
      }
      if At(sched.heap, h) == Some(n) {
        sched := sched.(heap := sched.heap[h := None]);
      } else {
        var p := sched.prev[n];
        var q := sched.next[n];
        sched := sched.(next := sched.next[p := q]);
        sched := sched.(prev := sched.prev[q := p]);
      }
      sched := sched.(prev := sched.prev[n := n]);
      sched := sched.(next := sched.next[n := n]);
      sched := sched.(flags := sched.flags[n := WithoutPushed(sched.flags[n])]);
    }

    /** signal(v) (src/index.ts:100-107): a fresh node without links and
        without fn. */
    method NewSignal(v: Value) returns (n: NodeId)
      requires Valid()
      modifies this`fns, this`value, this`wiring, this`lists, this`sched
      ensures Valid() && n == old(|fns|)
      ensures fns == old(fns) + [None] && value == old(value) + [v]
      ensures EdgesView() == EdgeStore.AddNode(old(EdgesView()))
      ensures sched == Scheduler.AddNode(old(sched))
    {
      AddNode(None, v);
      n := |fns| - 1;
    }

    /** computed(fn) (src/index.ts:80-98): a fresh node holding undefined,
        put into the bucket of height 0; `fn` is not run yet. */
    method NewComputed(f: Fn) returns (n: NodeId)
      requires Valid() && FnBelow(f, |fns| + 1)
      modifies this`fns, this`value, this`wiring, this`lists, this`sched
      ensures Valid() && n == old(|fns|)
      ensures fns == old(fns) + [Some(f)] && value == old(value) + [Undefined]
      ensures EdgesView() == EdgeStore.AddNode(old(EdgesView()))
      ensures sched == Scheduler.InsertIntoHeap(Scheduler.AddNode(old(sched)), n)
    {
      AddNode(Some(f), Undefined);
      n := |fns| - 1;
      InsertFits(sched, |fns|, Computeds(fns), n);
      InsertIntoHeap(n);
    }

    /** The record literal shared by signal() and computed(). */
    method AddNode(f: Option<Fn>, v: Value)
      requires Valid() && (f.Some? ==> FnBelow(f.value, |fns| + 1))
      modifies this`fns, this`value, this`wiring, this`lists, this`sched
      ensures Valid()
      ensures fns == old(fns) + [f] && value == old(value) + [v]
      ensures EdgesView() == EdgeStore.AddNode(old(EdgesView()))
      ensures sched == Scheduler.AddNode(old(sched))
    {
      ghost var e := EdgesView();
      var N := |fns|;
      AddNodeKeepsOk(e);
      AddNodeFits(sched, N, Computeds(fns));
      forall m | 0 <= m < N && fns[m].Some? ensures FnBelow(fns[m].value, N + 1) {
        FnBelowGrows(fns[m].value, N, N + 1);
      }
      fns := fns + [f];
      value := value + [v];
      wiring := wiring.(deps := wiring.deps + [None], depsTail := wiring.depsTail + [None],
                        subs := wiring.subs + [None], subsTail := wiring.subsTail + [None]);
      lists := lists.(depList := lists.depList + [[]], subList := lists.subList + [[]], confirmed := lists.confirmed + [0]);
      sched := Scheduler.AddNode(sched);
      assert Computeds(fns) == old(Computeds(fns)) + (if f.Some? then {N} else {});
    }

    /** setSignal(el, v) (src/index.ts:273-283): markedHeap is reset; a
        different value is stored and every subscriber is enqueued, in list
        order; an equal value changes nothing else. */
    method SetSignal(el: NodeId, v: Value)
      requires Valid() && el < |fns|
      modifies this`markedHeap, this`value, this`sched
      ensures Valid() && !markedHeap
      ensures old(value[el]) == v ==> value == old(value) && sched == old(sched)
      ensures old(value[el]) != v ==>
                value == old(value)[el := v] && sched == InsertAll(old(sched), Subscribers(EdgesView(), el))
    {
      markedHeap := false;
      if value[el] != v {
        ghost var ns := Subscribers(EdgesView(), el);
        SetSignalKeepsGood(fns, value, wiring, lists, sched, context, el, v);
        EnqueueSubscribers(el, lists.subList[el], ns);
        value := value[el := v];
      }
    }

    /** The loop of setSignal (src/index.ts:277-281): insertIntoHeap on the
        `sub` of each link from `subs` along nextSub, that is on the nodes
        ns of the subscriber list S. */
    method EnqueueSubscribers(el: NodeId, ghost S: seq<LinkId>, ghost ns: seq<NodeId>)
      requires SchedOk(sched) && el < |wiring.subs| && wiring.subs[el] == First(S)
      requires Threaded(S, wiring.subPtrs) && |ns| == |S| && AllBelow(ns, |sched.flags|)
      requires forall i :: 0 <= i < |S| ==> S[i] < |wiring.sub| && wiring.sub[S[i]] == ns[i]
      modifies this`sched
      ensures sched == InsertAll(old(sched), ns)
    {
      ghost var s0 := sched;
      var link := wiring.subs[el];
      ghost var i := 0;
      while link.Some?
        invariant 0 <= i <= |S| && link == if i < |S| then Some(S[i]) else None
        invariant SchedOk(sched) && |sched.flags| == |s0.flags| && AllBelow(ns[i..], |sched.flags|)
        invariant InsertAll(sched, ns[i..]) == InsertAll(s0, ns)
        decreases |S| - i
      {
        assert ns[i..][1..] == ns[i + 1..];
        ThreadedNext(S, wiring.subPtrs, i);
        InsertIntoHeap(wiring.sub[link.value]);
        link := wiring.subPtrs.next[link.value];
        i := i + 1;
      }
      assert ns[i..] == [];
    }

    /** isValidLink(checkLink, sub) (src/index.ts:236-251): walks sub's
        dependency list from its head up to depsTail. */
    method IsValidLink(checkLink: LinkId, sub: NodeId) returns (r: bool)
      requires EdgesOk(EdgesView()) && sub < |lists.depList|
      ensures lists.confirmed[sub] <= |lists.depList[sub]|
      ensures r <==> checkLink in lists.depList[sub][..lists.confirmed[sub]]
    {
      assert DepsOk(EdgesView(), sub);
      ghost var L := lists.depList[sub];
      ghost var c := lists.confirmed[sub];
      var depsTail := wiring.depsTail[sub];
      if depsTail.Some? {
        var link := wiring.deps[sub];
        ghost var i := 0;
        while link.Some?
          invariant 0 <= i < c && link == Some(L[i])
          invariant checkLink !in L[..i]
          decreases c - i
        {
          if link.value == checkLink {
            assert L[..c][i] == checkLink;
            return true;
          }
          if link == depsTail {
            break;
          }
          assert L[..i + 1] == L[..i] + [L[i]];
          link := wiring.depPtrs.next[link.value];
          i := i + 1;
        }
        assert i == c - 1 && L[..c] == L[..i] + [L[i]];
      }
      return false;
    }

    /** link(dep, sub) (src/index.ts:187-234): the three early returns,
        else a fresh link. */
    method Link(dep: NodeId, sub: NodeId)
      requires EdgesOk(EdgesView()) && dep < |lists.depList| && sub < |lists.depList|
      modifies this`wiring, this`lists
      ensures EdgesView() == EdgeStore.Link(old(EdgesView()), dep, sub)
    {
      ghost var e := EdgesView();
      assert DepsOk(e, sub) && SubsOk(e, dep);
      ghost var L := lists.depList[sub];
      ghost var c := lists.confirmed[sub];
      var prevDep := wiring.depsTail[sub];
      if prevDep.Some? && wiring.dep[prevDep.value] == dep {
        return;
      }
      var nextDep := if prevDep.Some? then wiring.depPtrs.next[prevDep.value] else wiring.deps[sub];
      assert nextDep == if c < |L| then Some(L[c]) else None;
      if nextDep.Some? && wiring.dep[nextDep.value] == dep {
        wiring := wiring.(depsTail := wiring.depsTail[sub := nextDep]);
        lists := lists.(confirmed := lists.confirmed[sub := c + 1]);
        return;
      }
      var prevSub := wiring.subsTail[dep];
      if prevSub.Some? && wiring.sub[prevSub.value] == sub {
        var valid := IsValidLink(prevSub.value, sub);
        if valid {
          return;
        }
      }
      assert EdgeStore.Link(e, dep, sub) == Append(e, dep, sub);
      AppendAtFromDepsOk(e, dep, sub);
      AppendLink(dep, sub);
    }

    /** The slow path of link (src/index.ts:209-233): a fresh link right
        after sub's confirmed dependencies and at the end of dep's
        subscribers. */
    method AppendLink(dep: NodeId, sub: NodeId)
      requires Sized(EdgesView()) && dep < |lists.depList| && sub < |lists.depList|
      requires AppendReadyFacts(EdgesView(), dep, sub) && AppendAt(EdgesView(), dep, sub)
      modifies this`wiring, this`lists
      ensures EdgesView() == Append(old(EdgesView()), dep, sub)
    {
      ghost var e := EdgesView();
      var prevDep := wiring.depsTail[sub];
      var nextDep := if prevDep.Some? then wiring.depPtrs.next[prevDep.value] else wiring.deps[sub];
      var prevSub := wiring.subsTail[dep];
      var newLink := |wiring.dep|;
      wiring := wiring.(dep := wiring.dep + [dep], sub := wiring.sub + [sub],
                        depPtrs := Ptrs(wiring.depPtrs.prev + [prevDep], wiring.depPtrs.next + [nextDep]),
                        subPtrs := Ptrs(wiring.subPtrs.prev + [prevSub], wiring.subPtrs.next + [None]));
      SpliceDep(newLink, sub, prevDep, nextDep, lists.confirmed[sub]);
      SpliceSub(newLink, dep, prevSub);
      AppendSteps(e, dep, sub);
    }

    /** The consumer side of link's fix-ups (src/index.ts:213, 221-228): the
        new link x becomes sub's depsTail and is threaded between `before`
        and `after` on sub's dependency list, right after its c confirmed
        links. */
    method SpliceDep(x: LinkId, sub: NodeId, before: Option<LinkId>, after: Option<LinkId>, ghost c: nat)
      requires DepSpliceable(wiring, lists, sub, before, after, c)
      modifies this`wiring, this`lists
      ensures var e := old(EdgesView());
              EdgesView() == e.(
                deps := if before.None? then e.deps[sub := Some(x)] else e.deps,
                depsTail := e.depsTail[sub := Some(x)],
                depPtrs := Ptrs(if after.Some? then e.depPtrs.prev[after.value := Some(x)] else e.depPtrs.prev,
                                if before.Some? then e.depPtrs.next[before.value := Some(x)] else e.depPtrs.next),
                depList := e.depList[sub := e.depList[sub][..c] + [x] + e.depList[sub][c..]],
                confirmed := e.confirmed[sub := c + 1])
    {
      wiring := wiring.(depsTail := wiring.depsTail[sub := Some(x)]);
      if after.Some? {
        wiring := wiring.(depPtrs := wiring.depPtrs.(prev := wiring.depPtrs.prev[after.value := Some(x)]));
      }
      if before.Some? {
        wiring := wiring.(depPtrs := wiring.depPtrs.(next := wiring.depPtrs.next[before.value := Some(x)]));
      } else {
        wiring := wiring.(deps := wiring.deps[sub := Some(x)]);
      }
      ghost var L := lists.depList[sub];
      lists := lists.(depList := lists.depList[sub := L[..c] + [x] + L[c..]],
                      confirmed := lists.confirmed[sub := c + 1]);
    }

    /** The producer side of link's fix-ups (src/index.ts:213, 229-233): x
        becomes dep's subsTail and is appended to dep's subscriber list. */
    method SpliceSub(x: LinkId, dep: NodeId, prevSub: Option<LinkId>)
      requires SubSpliceable(wiring, lists, dep, prevSub)
      modifies this`wiring, this`lists
      ensures var e := old(EdgesView());
              EdgesView() == e.(
                subs := if prevSub.None? then e.subs[dep := Some(x)] else e.subs,
                subsTail := e.subsTail[dep := Some(x)],
                subPtrs := Ptrs(e.subPtrs.prev,
                                if prevSub.Some? then e.subPtrs.next[prevSub.value := Some(x)] else e.subPtrs.next),
                subList := e.subList[dep := e.subList[dep] + [x]])
    {
      wiring := wiring.(subsTail := wiring.subsTail[dep := Some(x)]);
      if prevSub.Some? {
        wiring := wiring.(subPtrs := wiring.subPtrs.(next := wiring.subPtrs.next[prevSub.value := Some(x)]));
      } else {
        wiring := wiring.(subs := wiring.subs[dep := Some(x)]);
      }
      lists := lists.(subList := lists.subList[dep := lists.subList[dep] + [x]]);
    }

    /** unlink(link) (src/index.ts:158-185), for the link at position k of
        its consumer's dependency list and position j of its producer's
        subscriber list; returns the link's old nextDep. */
    method Unlink(link: LinkId, ghost k: nat, ghost j: nat) returns (next: Option<LinkId>)
      requires RemoveArgs(EdgesView(), link, k, j)
      modifies this`wiring, this`lists
      ensures EdgesView() == Remove(old(EdgesView()), link, k, j)
      ensures next == old(wiring.depPtrs.next[link])
    {
      next := wiring.depPtrs.next[link];
      UnlinkDep(link, k);
      UnlinkSub(link, j);
    }

    /** The consumer half of unlink (src/index.ts:164-173): the neighbours on
        the consumer's dependency list skip the link, or the list's head or
        tail moves past it. */
    method UnlinkDep(link: LinkId, ghost k: nat)
      requires link < |wiring.sub| && link < |wiring.depPtrs.prev| && link < |wiring.depPtrs.next|
      requires wiring.sub[link] < |wiring.deps| && wiring.sub[link] < |wiring.depsTail|
      requires wiring.sub[link] < |lists.depList| && wiring.sub[link] < |lists.confirmed|
      requires k < |lists.depList[wiring.sub[link]]|
      requires wiring.depPtrs.next[link].Some? ==> wiring.depPtrs.next[link].value < |wiring.depPtrs.prev|
      requires wiring.depPtrs.prev[link].Some? ==> wiring.depPtrs.prev[link].value < |wiring.depPtrs.next|
      modifies this`wiring, this`lists
      ensures var e := old(EdgesView());
              var s := e.sub[link];
              var before := e.depPtrs.prev[link];
              var after := e.depPtrs.next[link];
              EdgesView() == e.(
                deps := if before.None? then e.deps[s := after] else e.deps,
                depsTail := if after.None? then e.depsTail[s := before] else e.depsTail,
                depPtrs := Ptrs(if after.Some? then e.depPtrs.prev[after.value := before] else e.depPtrs.prev,
                                if before.Some? then e.depPtrs.next[before.value := after] else e.depPtrs.next),
                depList := e.depList[s := RemoveAt(e.depList[s], k)],
                confirmed := e.confirmed[s := if k + 1 == |e.depList[s]| then k else e.confirmed[s]])
    {
      var sub := wiring.sub[link];
      var prevDep := wiring.depPtrs.prev[link];
      var nextDep := wiring.depPtrs.next[link];
      if nextDep.Some? {
        wiring := wiring.(depPtrs := wiring.depPtrs.(prev := wiring.depPtrs.prev[nextDep.value := prevDep]));
      } else {
        wiring := wiring.(depsTail := wiring.depsTail[sub := prevDep]);
      }
      if prevDep.Some? {
        wiring := wiring.(depPtrs := wiring.depPtrs.(next := wiring.depPtrs.next[prevDep.value := nextDep]));
      } else {
        wiring := wiring.(deps := wiring.deps[sub := nextDep]);
      }
      ghost var L := lists.depList[sub];
      lists := lists.(depList := lists.depList[sub := RemoveAt(L, k)],
                      confirmed := lists.confirmed[sub := if k + 1 == |L| then k else lists.confirmed[sub]]);
    }

    /** The producer half of unlink (src/index.ts:174-183), on the
        producer's subscriber list. */
    method UnlinkSub(link: LinkId, ghost j: nat)
      requires link < |wiring.dep| && link < |wiring.subPtrs.prev| && link < |wiring.subPtrs.next|
      requires wiring.dep[link] < |wiring.subs| && wiring.dep[link] < |wiring.subsTail| && wiring.dep[link] < |lists.subList|
      requires j < |lists.subList[wiring.dep[link]]|
      requires wiring.subPtrs.next[link].Some? ==> wiring.subPtrs.next[link].value < |wiring.subPtrs.prev|
      requires wiring.subPtrs.prev[link].Some? ==> wiring.subPtrs.prev[link].value < |wiring.subPtrs.next|
      modifies this`wiring, this`lists
      ensures var e := old(EdgesView());
              var d := e.dep[link];
              var before := e.subPtrs.prev[link];
              var after := e.subPtrs.next[link];
              EdgesView() == e.(
                subs := if before.None? then e.subs[d := after] else e.subs,
                subsTail := if after.None? then e.subsTail[d := before] else e.subsTail,
                subPtrs := Ptrs(if after.Some? then e.subPtrs.prev[after.value := before] else e.subPtrs.prev,
                                if before.Some? then e.subPtrs.next[before.value := after] else e.subPtrs.next),
                subList := e.subList[d := RemoveAt(e.subList[d], j)])
    {
      var dep := wiring.dep[link];
      var prevSub := wiring.subPtrs.prev[link];
      var nextSub := wiring.subPtrs.next[link];
      if nextSub.Some? {
        wiring := wiring.(subPtrs := wiring.subPtrs.(prev := wiring.subPtrs.prev[nextSub.value := prevSub]));
      } else {
        wiring := wiring.(subsTail := wiring.subsTail[dep := prevSub]);
      }
      if prevSub.Some? {
        wiring := wiring.(subPtrs := wiring.subPtrs.(next := wiring.subPtrs.next[prevSub.value := nextSub]));
      } else {
        wiring := wiring.(subs := wiring.subs[dep := nextSub]);
      }
      lists := lists.(subList := lists.subList[dep := RemoveAt(lists.subList[dep], j)]);
    }
    /** markNode(el, newState) (src/index.ts:285-296): a node whose
        Check/Dirty state is below newState gains newState and its
        subscribers are marked Check in list order.  Only flags change, as
        EngineSpec.MarkNode says; EngineSpec.MarkNodeMarks proves what that
        promises.  The recursion ends because every effective call lowers
        the slack. */
    method MarkNode(el: NodeId, newState: Flags)
      requires Walkable(EdgesView(), |sched.flags|)
      requires el < |sched.flags| && (newState == CHECK || newState == DIRTY)
      modifies this`sched
      ensures sched.flags == EngineSpec.MarkNode(old(sched.flags), EdgesView(), el, newState)
      ensures sched == old(sched).(flags := sched.flags)
      decreases Slack(sched.flags), 0
    {
      ghost var f0 := sched.flags;
      EngineSpec.MarkNodeSteps(f0, EdgesView(), el, newState);
      var flags := sched.flags[el];
      if State(flags) >= newState {
        return;
      }
      EngineSpec.MarkRaiseSlack(f0, el, newState);
      sched := sched.(flags := sched.flags[el := flags | newState]);
      MarkSubscribers(el);
    }

    /** The loop of markNode (src/index.ts:290-295): every subscriber of el,
        in list order, is marked Check, as EngineSpec.MarkSubs says. */
    method MarkSubscribers(el: NodeId)
      requires Walkable(EdgesView(), |sched.flags|) && el < |sched.flags|
      modifies this`sched
      ensures sched.flags == EngineSpec.MarkSubs(old(sched.flags), EdgesView(), el, 0)
      ensures sched == old(sched).(flags := sched.flags)
      decreases Slack(sched.flags), 1
    {
      ghost var s0 := sched;
      ghost var e := EdgesView();
      ghost var target := EngineSpec.MarkSubs(s0.flags, e, el, 0);
      ghost var S := e.subList[el];
      assert SubsWalk(e, el);
      var link := wiring.subs[el];
      ghost var i := 0;
      while link.Some?
        invariant 0 <= i <= |S| && link == if i < |S| then Some(S[i]) else None
        invariant sched == s0.(flags := sched.flags) && |sched.flags| == |s0.flags|
        invariant Slack(sched.flags) <= Slack(s0.flags)
        invariant EngineSpec.MarkSubs(sched.flags, e, el, i) == target
        decreases |S| - i
      {
        ThreadedNext(S, e.subPtrs, i);
        EngineSpec.MarkSubsNext(sched.flags, e, el, i);
        MarkNode(wiring.sub[link.value], CHECK);
        link := wiring.subPtrs.next[link.value];
        i := i + 1;
      }
      EngineSpec.MarkSubsEnd(sched.flags, e, el);
    }

    /** The do-while walk of markHeap over one bucket (src/index.ts:302-309):
        markNode with Dirty on head, then along nextHeap until head comes
        round again, within `gas` turns, as EngineSpec.MarkRing says. */
    method MarkRing(head: NodeId, gas: nat) returns (ok: bool)
      requires SchedOk(sched) && Walkable(EdgesView(), |sched.flags|) && head < |sched.flags|
      modifies this`sched
      ensures EngineSpec.Marks(sched.flags, ok) == EngineSpec.MarkRing(old(sched.flags), EdgesView(), old(sched.next), head, head, 0, gas)
      ensures sched == old(sched).(flags := sched.flags)
    {
      ghost var s0 := sched;
      var el: NodeId := head;
      var steps: nat := 0;
      while true
        invariant steps <= gas && sched == s0.(flags := sched.flags) && |sched.flags| == |s0.flags| && el < |sched.flags|
        invariant SchedOk(sched)
        invariant EngineSpec.MarkRing(sched.flags, EdgesView(), s0.next, head, el, steps, gas)
                  == EngineSpec.MarkRing(s0.flags, EdgesView(), s0.next, head, head, 0, gas)
        decreases gas - steps
      {
        if steps >= gas {
          return false;
        }
        MarkNode(el, DIRTY);
        el := sched.next[el];
        steps := steps + 1;
        if el == head {
          break;
        }
      }
      return true;
    }

    /** The bucket loop of markHeap (src/index.ts:300-310): every bucket up
        to maxHeightInHeap is walked with markNode(·, Dirty).  Only flags
        change, marks spread as markNode guarantees, and when the buckets are
        well formed with rings `rings` the walks complete for `gas` at least
        the number of nodes and every pushed node ends Dirty. */
    method MarkBuckets(gas: nat, ghost rings: seq<seq<NodeId>>) returns (ok: bool)
      requires SchedOk(sched) && Walkable(EdgesView(), |sched.flags|)
      modifies this`sched
      ensures EngineSpec.Marks(sched.flags, ok) == EngineSpec.MarkBuckets(old(sched), EdgesView(), old(sched.flags), 0, true, gas)
      ensures sched == old(sched).(flags := sched.flags) && |sched.flags| == |old(sched.flags)|
      ensures MarkedFrom(old(sched.flags), sched.flags, lists.subList, wiring.sub)
      ensures HeapWf(old(sched), rings) ==>
                (gas >= |sched.flags| ==> ok) &&
                (ok ==> forall k :: 0 <= k < |sched.flags| && Pushed(old(sched.flags)[k]) ==> sched.flags[k] & DIRTY != 0)
      ensures HeapIdle(old(sched)) ==> ok && sched == old(sched)
    {
      ghost var s0 := sched;
      HeapLoopStart(HeapWf(s0, rings), gas, s0.flags, rings);
      EngineSpec.MarkBucketsMarks(s0, EdgesView(), s0.flags, 0, true, gas, rings);
      ok := true;
      var i := 0;
      while i <= sched.maxHeight
        invariant i <= sched.maxHeight + 1
        invariant sched == s0.(flags := sched.flags) && |sched.flags| == |s0.flags| && SchedOk(sched)
        invariant EngineSpec.MarkBuckets(s0, EdgesView(), sched.flags, i, ok, gas)
                  == EngineSpec.MarkBuckets(s0, EdgesView(), s0.flags, 0, true, gas)
        invariant HeapIdle(s0) ==> ok && sched == s0
        decreases sched.maxHeight + 1 - i
      {
        var head := At(sched.heap, i);
        if head.Some? {
          var ringOk := MarkRing(head.value, gas);
          ok := ok && ringOk;
        }
        i := i + 1;
      }
      if HeapWf(s0, rings) && ok {
        MarkHeapAll(s0, rings, sched.flags);
      }
    }

    /** markHeap() (src/index.ts:298-311): a no-op once the heap has been
        marked since the last setSignal, otherwise the bucket loop above,
        after which the engine is still valid. */
    method MarkHeap(gas: nat, ghost rings: seq<seq<NodeId>>) returns (ok: bool)
      requires Valid()
      modifies this`sched, this`markedHeap
      ensures EngineSpec.Done(Snap(), ok) == EngineSpec.MarkHeap(fns, old(Snap()), gas)
      ensures Valid() && markedHeap
      ensures old(markedHeap) ==> ok && sched == old(sched)
      ensures sched == old(sched).(flags := sched.flags)
      ensures MarkedFrom(old(sched.flags), sched.flags, lists.subList, wiring.sub)
      ensures !old(markedHeap) && HeapWf(old(sched), rings) ==>
                (gas >= |sched.flags| ==> ok) &&
                (ok ==> forall k :: 0 <= k < |sched.flags| && Pushed(old(sched.flags)[k]) ==> sched.flags[k] & DIRTY != 0)
      ensures HeapIdle(old(sched)) ==> ok && sched == old(sched)
    {
      if markedHeap {
        MarkedFromSame(sched.flags, lists.subList, wiring.sub);
        return true;
      }
      markedHeap := true;
      ghost var fns0, value0, w0, l0, s0, c0 := fns, value, wiring, lists, sched, context;
      assert Good(fns0, value0, w0, l0, s0, c0);
      OkWalkable(EdgesView());
      ok := MarkBuckets(gas, rings);
      FitsIgnoresLevels(s0, |fns|, Computeds(fns), sched.flags, sched.height);
      GoodSched(fns0, value0, w0, l0, s0, c0, value, sched);
    }


    /** The pruning loop of recompute (src/index.ts:117-121): from the link
        after depsTail (or from `deps` when depsTail is null), every link is
        unlinked, so the consumer keeps exactly the links its run
        confirmed. */
    method Prune(el: NodeId)
      requires Valid() && el < |fns|
      modifies this`wiring, this`lists
      ensures Valid() && EdgesView() == PruneAll(old(EdgesView()), el)
      ensures wiring.dep == old(wiring.dep) && wiring.sub == old(wiring.sub)
    {
      ghost var e0 := EdgesView();
      PruningStart(fns, value, wiring, lists, sched, context, el);
      var depsTail := wiring.depsTail[el];
      var toRemove := if depsTail.Some? then wiring.depPtrs.next[depsTail.value] else wiring.deps[el];
      while toRemove.Some?
        invariant Pruning(fns, value, wiring, lists, sched, context, el, e0, toRemove)
        decreases |lists.depList[el]| - lists.confirmed[el]
      {
        toRemove := PruneOne(el, e0, toRemove.value);
      }
      PruningEnd(fns, value, wiring, lists, sched, context, el, e0);
    }

    /** One turn of the pruning loop (src/index.ts:119-120): the link under
        the cursor is unlinked and the cursor moves to its old nextDep. */
    method PruneOne(el: NodeId, ghost e0: Edges, link: LinkId) returns (next: Option<LinkId>)
      requires Pruning(fns, value, wiring, lists, sched, context, el, e0, Some(link))
      modifies this`wiring, this`lists
      ensures Pruning(fns, value, wiring, lists, sched, context, el, e0, next)
      ensures 0 <= |lists.depList[el]| - lists.confirmed[el] < old(|lists.depList[el]| - lists.confirmed[el])
    {
      ghost var w, l := wiring, lists;
      PruningArgs(fns, value, wiring, lists, sched, context, el, e0, Some(link));
      next := Unlink(link, lists.confirmed[el], IndexOf(lists.subList[wiring.dep[link]], link));
      PruningStep(fns, value, w, l, sched, context, el, e0, Some(link), wiring, lists);
    }

    /** The end of recompute (src/index.ts:123-135): a value that differs
        from the stored one is stored, and then every subscriber that was
        Check becomes Dirty and is enqueued; an equal value changes
        nothing. */
    method Settle(el: NodeId, v: Value)
      requires Valid() && el < |fns|
      modifies this`value, this`sched
      ensures Valid() && value[el] == v && Grows(old(sched), sched)
      ensures old(value[el]) == v ==> value == old(value) && sched == old(sched)
      ensures old(value[el]) != v ==>
                value == old(value)[el := v] && sched == NotifyAll(old(sched), Subscribers(EdgesView(), el))
    {
      if v != value[el] {
        ghost var ns := Subscribers(EdgesView(), el);
        NotifyKeepsGood(fns, value, wiring, lists, sched, context, el, v);
        value := value[el := v];
        NotifySubscribers(el, lists.subList[el], ns);
        NotifyAllFlags(old(sched), ns);
      }
    }

    /** The notification loop of recompute (src/index.ts:127-134), over
        the subscriber list S whose links' `sub` are ns. */
    method NotifySubscribers(el: NodeId, ghost S: seq<LinkId>, ghost ns: seq<NodeId>)
      requires SchedOk(sched) && el < |wiring.subs| && wiring.subs[el] == First(S)
      requires Threaded(S, wiring.subPtrs) && |ns| == |S| && AllBelow(ns, |sched.flags|)
      requires forall i :: 0 <= i < |S| ==> S[i] < |wiring.sub| && wiring.sub[S[i]] == ns[i]
      modifies this`sched
      ensures sched == NotifyAll(old(sched), ns)
    {
      ghost var s0 := sched;
      var link := wiring.subs[el];
      ghost var i := 0;
      while link.Some?
        invariant 0 <= i <= |S| && link == if i < |S| then Some(S[i]) else None
        invariant SchedOk(sched) && |sched.flags| == |s0.flags| && AllBelow(ns[i..], |sched.flags|)
        invariant NotifyAll(sched, ns[i..]) == NotifyAll(s0, ns)
        decreases |S| - i
      {
        assert ns[i..][1..] == ns[i + 1..];
        ThreadedNext(S, wiring.subPtrs, i);
        NotifyOne(wiring.sub[link.value]);
        link := wiring.subPtrs.next[link.value];
        i := i + 1;
      }
      assert ns[i..] == [];
    }

    /** One turn of that loop (src/index.ts:129-133): a Check subscriber
        becomes Dirty as well, and the subscriber is enqueued. */
    method NotifyOne(o: NodeId)
      requires SchedOk(sched) && o < |sched.flags|
      modifies this`sched
      ensures sched == NotifyStep(old(sched), o)
    {
      var flags := sched.flags[o];
      if flags & CHECK != 0 {
        sched := sched.(flags := sched.flags[o := flags | DIRTY]);
      } else {
        assert sched.flags[o := Escalate(flags)] == sched.flags;
      }
      InsertIntoHeap(o);
    }

    // -------------------------------------------------------------------
    // the evaluator: read -> updateIfNecessary -> recompute -> fn -> read
    //
    // These calls recurse through user code, so each takes a budget `gas`
    // of nested calls and loop turns; a result ok == false means the
    // budget ran out, standing for a run that does not come back.  Every
    // one keeps the invariant and the context, raises heights and
    // maxHeightInHeap only, and only ever adds links.

    /** `el.fn()` (src/index.ts:115), the fn seen as a decision tree: each
        Read node reads its dependency through read(), and the Return leaf
        computes the result from the values read.  `seen` holds the values
        read before f was reached; vals are the values this call reads. */
    method RunFn(f: Fn, seen: seq<Value>, gas: nat)
      returns (v: Value, ok: bool, ghost vals: seq<Value>, ghost path: seq<NodeId>, ghost at: seq<nat>)
      requires Valid() && FnBelow(f, |fns|)
      modifies this`value, this`wiring, this`lists, this`sched, this`markedHeap, this`context, this`trace
      ensures Valid() && context == old(context)
      ensures Grows(old(sched), sched) && |wiring.dep| >= old(|wiring.dep|)
      ensures Logs(fns, old(trace), old(value), trace, value)
      ensures ok ==> Go(f, seen, vals) == Some(v)
      ensures path == ReadsOf(f, vals) && ReadsCurrent(old(|trace|), trace, value, path, at, vals)
      ensures ok && context.Some? && QuietFn(fns, f, old(sched), stabilizeHeight, context.value) ==>
                QuietRun(fns, f, context.value, old(Now()), path, vals, Now())
      decreases gas, 1
    {
      vals, path, at := [], [], [];
      LogsSame(fns, trace, value);
      if gas == 0 {
        return Undefined, false, vals, path, at;
      }
      match f
      case Return(g) =>
        v, ok := g(seen), true;
        if context.Some? {
          QuietRunReturn(fns, f, context.value, Now());
        }
      case Read(_, _, _, _) =>
        v, ok, vals, path, at := RunRead(f, seen, gas);
    }

    /** One Read step of a fn (src/index.ts:115): d is read through read(),
        and the branch the test picks runs on the value read. */
    method RunRead(f: Fn, seen: seq<Value>, gas: nat)
      returns (v: Value, ok: bool, ghost vals: seq<Value>, ghost path: seq<NodeId>, ghost at: seq<nat>)
      requires Valid() && FnBelow(f, |fns|) && f.Read? && gas > 0
      modifies this`value, this`wiring, this`lists, this`sched, this`markedHeap, this`context, this`trace
      ensures Valid() && context == old(context)
      ensures Grows(old(sched), sched) && |wiring.dep| >= old(|wiring.dep|)
      ensures Logs(fns, old(trace), old(value), trace, value)
      ensures ok ==> Go(f, seen, vals) == Some(v)
      ensures path == ReadsOf(f, vals) && ReadsCurrent(old(|trace|), trace, value, path, at, vals)
      ensures ok && context.Some? && QuietFn(fns, f, old(sched), stabilizeHeight, context.value) ==>
                QuietRun(fns, f, context.value, old(Now()), path, vals, Now())
      decreases gas, 0
    {
      ghost var o0 := Now();
      var x, readOk := ReadStepOf(f.dep, gas - 1);
      if !readOk {
        return Undefined, false, [], [], [];
      }
      ghost var sched1, t1, v1, o1 := sched, trace, value, Now();
      ghost var rest, restPath, restAt;
      v, ok, rest, restPath, restAt := RunFn(if f.test(x) then f.onTrue else f.onFalse, seen + [x], gas - 1);
      GrowsTrans(old(sched), sched1, sched);
      LogsTrans(fns, old(trace), old(value), t1, v1, trace, value);
      ReadsCons(fns, old(|trace|), t1, v1, trace, value, f.dep, x, restPath, restAt, rest);
      vals, path, at := [x] + rest, [f.dep] + restPath, [|t1|] + restAt;
      assert vals[0] == x && vals[1..] == rest;
      if ok && context.Some? && QuietFn(fns, f, o0.sched, stabilizeHeight, context.value) {
        ReadThenBranch(fns, f, context.value, stabilizeHeight, o0, x, o1, restPath, rest, Now());
      }
    }

    /** The read of a Read step (src/index.ts:115), with the part of read's
        contract a fn's run relies on: the frame, the value read, and the
        quiet case. */
    method ReadStepOf(el: NodeId, gas: nat) returns (v: Value, ok: bool)
      requires Valid() && el < |fns|
      modifies this`value, this`wiring, this`lists, this`sched, this`markedHeap, this`context, this`trace
      ensures Valid() && context == old(context)
      ensures Grows(old(sched), sched) && |wiring.dep| >= old(|wiring.dep|)
      ensures Logs(fns, old(trace), old(value), trace, value) && v == value[el]
      ensures ok && context.Some? && QuietRead(fns, old(sched), stabilizeHeight, el, context.value) ==>
                ReadStep(fns, el, context.value, old(Now()), v, Now())
      decreases gas, 3
    {
      v, ok := Read(el, gas);
    }

    /** recompute(el) (src/index.ts:109-136): el becomes the context, leaves
        its bucket, forgets its confirmed links and its flags, runs its fn,
        prunes the links the run did not confirm, restores the context and
        settles the new value.  When it completes, el's value is what its
        fn returns on the values it read, and every dependency link el
        keeps was confirmed by this run. */
    method Recompute(el: NodeId, gas: nat)
      returns (ok: bool, ghost vals: seq<Value>, ghost path: seq<NodeId>, ghost at: seq<nat>)
      requires Valid() && el < |fns| && fns[el].Some?
      modifies this`value, this`wiring, this`lists, this`sched, this`markedHeap, this`context, this`trace
      ensures Valid() && context == old(context)
      ensures Grows(old(sched), sched) && |wiring.dep| >= old(|wiring.dep|)
      ensures Logs(fns, old(trace), old(value), trace, value)
      ensures ok ==> Run(fns[el].value, vals) == Some(value[el])
      ensures path == ReadsOf(fns[el].value, vals) && ReadsCurrent(old(|trace|), trace, value, path, at, vals)
      ensures ok ==> |trace| > old(|trace|) && trace[|trace| - 1] == el
      ensures ok ==> lists.confirmed[el] == |lists.depList[el]|
      ensures ok && QuietFn(fns, fns[el].value, StartSched(old(sched), el), stabilizeHeight, el) ==>
                QuietStep(fns, old(Now()), el, stabilizeHeight) == Some(Now())
      decreases gas, 1
    {
      if gas == 0 {
        LogsSame(fns, trace, value);
        return false, [], [], [];
      }
      ghost var o0 := Now();
      var oldcontext := context;
      RecomputeStart(el);
      ghost var sched1 := sched;
      ok, vals, path, at := RecomputeRun(el, gas, oldcontext, o0);
      GrowsTrans(old(sched), sched1, sched);
    }

    /** recompute(el) after its start (src/index.ts:115-135): runs el's fn;
        when the run completes, prunes, restores the context to oldcontext
        and settles the value, and when it runs out of gas only restores
        the context. */
    method RecomputeRun(el: NodeId, gas: nat, oldcontext: Option<NodeId>, ghost o0: Outcome)
      returns (ok: bool, ghost vals: seq<Value>, ghost path: seq<NodeId>, ghost at: seq<nat>)
      requires Valid() && el < |fns| && fns[el].Some? && gas > 0
      requires oldcontext.Some? ==> oldcontext.value < |fns| && fns[oldcontext.value].Some?
      requires Sized3(fns, o0, el) && Now() == Started(fns, o0, el)
      modifies this`value, this`wiring, this`lists, this`sched, this`markedHeap, this`context, this`trace
      ensures Valid() && context == oldcontext
      ensures Grows(old(sched), sched) && |wiring.dep| >= old(|wiring.dep|)
      ensures Logs(fns, old(trace), old(value), trace, value)
      ensures ok ==> Run(fns[el].value, vals) == Some(value[el])
      ensures path == ReadsOf(fns[el].value, vals) && ReadsCurrent(old(|trace|), trace, value, path, at, vals)
      ensures ok ==> |trace| > old(|trace|) && trace[|trace| - 1] == el
      ensures ok ==> lists.confirmed[el] == |lists.depList[el]|
      ensures ok && old(context) == Some(el) && QuietFn(fns, fns[el].value, StartSched(o0.sched, el), stabilizeHeight, el) ==>
                QuietStep(fns, o0, el, stabilizeHeight) == Some(Now())
      decreases gas, 0
    {
      ghost var o1 := Now();
      var v, runOk;
      v, runOk, vals, path, at := RunFn(fns[el].value, [], gas - 1);
      if !runOk {
        ContextKeepsGood(fns, value, wiring, lists, sched, context, oldcontext);
        context := oldcontext;
        return false, vals, path, at;
      }
      ghost var sched1, t1, v1, o2 := sched, trace, value, Now();
      RecomputeFinish(el, v, oldcontext);
      if old(context) == Some(el) {
        QuietFinishTie(fns, el, stabilizeHeight, o1, path, vals, o2, v, Now());
        QuietStepIs(fns, o0, el, stabilizeHeight, o1, Now());
      }
      GrowsTrans(old(sched), sched1, sched);
      LogsSettle(fns, t1, v1, el, v);
      LogsTrans(fns, old(trace), old(value), t1, v1, trace, value);
      ReadsStayCurrent(fns, old(|trace|), t1, v1, trace, value, path, at, vals);
      ok := true;
    }

    /** The start of recompute (src/index.ts:110-114): el becomes the
        context, is deleted from its bucket, forgets its confirmed links
        (depsTail = null) and has its flags cleared. */
    method RecomputeStart(el: NodeId)
      requires Valid() && el < |fns| && fns[el].Some?
      modifies this`wiring, this`lists, this`sched, this`context
      ensures Valid() && context == Some(el)
      ensures var s := Scheduler.DeleteFromHeap(old(sched), el); sched == s.(flags := s.flags[el := NONE])
      ensures EdgesView() == EdgeStore.Restart(old(EdgesView()), el)
      ensures Grows(old(sched), sched) && wiring.dep == old(wiring.dep)
      ensures Sized3(fns, old(Now()), el) && Now() == Started(fns, old(Now()), el)
    {
      ghost var o0 := Now();
      ContextKeepsGood(fns, value, wiring, lists, sched, context, Some(el));
      context := Some(el);
      DeleteKeepsGood(fns, value, wiring, lists, sched, context, el);
      DeleteFromHeap(el);
      RestartKeepsGood(fns, value, wiring, lists, sched, context, el);
      wiring := wiring.(depsTail := wiring.depsTail[el := None]);
      lists := lists.(confirmed := lists.confirmed[el := 0]);
      LevelsKeepGood(fns, value, wiring, lists, sched, context, sched.flags[el := NONE], sched.height);
      sched := sched.(flags := sched.flags[el := NONE]);
      StartedIs(fns, o0, el, EdgesView(), sched, Now());
    }

    /** The end of recompute after the run (src/index.ts:116-135): the
        unconfirmed links are pruned, the context is restored and the value
        v is settled; el is left with only the links the run confirmed. */
    method RecomputeFinish(el: NodeId, v: Value, oldcontext: Option<NodeId>)
      requires Valid() && el < |fns|
      requires oldcontext.Some? ==> oldcontext.value < |fns| && fns[oldcontext.value].Some?
      modifies this`value, this`wiring, this`lists, this`sched, this`context, this`trace
      ensures Valid() && context == oldcontext && value == old(value)[el := v] && trace == old(trace) + [el]
      ensures Grows(old(sched), sched) && wiring.dep == old(wiring.dep)
      ensures EdgesView() == PruneAll(old(EdgesView()), el)
      ensures lists.confirmed[el] == |lists.depList[el]|
      ensures Now() == Settled(fns, old(Now()), el, v)
    {
      ghost var e := EdgesView();
      Prune(el);
      PruneAllEffect(e, el);
      assert lists.confirmed[el] == |lists.depList[el]|;
      ContextKeepsGood(fns, value, wiring, lists, sched, context, oldcontext);
      context := oldcontext;
      Settle(el, v);
      trace := trace + [el];
    }

    /** updateIfNecessary(el) (src/index.ts:138-156): a Check node first
        brings its computed dependencies up to date, until it turns Dirty; a
        Dirty node is recomputed; then its flags are cleared (Pushed
        included).  A node neither Check nor Dirty only has its flags
        cleared. */
    method UpdateIfNecessary(el: NodeId, gas: nat) returns (ok: bool, ghost recomputed: bool, ghost decided: Flags)
      requires Valid() && el < |fns| && fns[el].Some?
      modifies this`value, this`wiring, this`lists, this`sched, this`markedHeap, this`context, this`trace
      ensures Valid() && context == old(context)
      ensures Grows(old(sched), sched) && |wiring.dep| >= old(|wiring.dep|)
      ensures Logs(fns, old(trace), old(value), trace, value)
      ensures ok ==> sched.flags[el] == NONE
      ensures old(sched.flags[el]) & CHECK == 0 ==> decided == old(sched.flags[el])
      ensures ok ==> (recomputed <==> decided & DIRTY != 0)
      ensures recomputed ==> |trace| > old(|trace|) && trace[|trace| - 1] == el
      ensures !Marked(old(sched.flags[el])) ==>
                && ok && !recomputed && value == old(value) && trace == old(trace)
                && wiring == old(wiring) && lists == old(lists)
                && markedHeap == old(markedHeap) && sched == old(sched).(flags := old(sched.flags)[el := NONE])
      decreases gas, 1
    {
      recomputed, decided := false, sched.flags[el];
      var depsOk := CheckDeps(el, gas);
      if !depsOk {
        return false, recomputed, decided;
      }
      decided := sched.flags[el];
      ghost var sched1, t1, v1 := sched, trace, value;
      ok, recomputed := RecomputeIfDirty(el, gas);
      GrowsTrans(old(sched), sched1, sched);
      LogsTrans(fns, old(trace), old(value), t1, v1, trace, value);
    }

    /** The start of updateIfNecessary (src/index.ts:139-149): a Check node
        walks its dependency list with UpdateDeps, of which only the frame
        is stated; any other node is left as it is. */
    method CheckDeps(el: NodeId, gas: nat) returns (ok: bool)
      requires Valid() && el < |fns| && fns[el].Some?
      modifies this`value, this`wiring, this`lists, this`sched, this`markedHeap, this`context, this`trace
      ensures Valid() && context == old(context)
      ensures Grows(old(sched), sched) && |wiring.dep| >= old(|wiring.dep|)
      ensures Logs(fns, old(trace), old(value), trace, value)
      ensures old(sched.flags[el]) & CHECK == 0 ==>
                && ok && value == old(value) && trace == old(trace) && wiring == old(wiring)
                && lists == old(lists) && markedHeap == old(markedHeap) && sched == old(sched)
      decreases gas, 0
    {
      LogsSame(fns, trace, value);
      ok := true;
      if sched.flags[el] & CHECK != 0 {
        if gas == 0 {
          return false;
        }
        ok := UpdateDeps(el, gas - 1);
      }
    }

    /** The end of updateIfNecessary (src/index.ts:150-155): a Dirty node
        is recomputed, then its flags are cleared. */
    method RecomputeIfDirty(el: NodeId, gas: nat) returns (ok: bool, ghost recomputed: bool)
      requires Valid() && el < |fns| && fns[el].Some?
      modifies this`value, this`wiring, this`lists, this`sched, this`markedHeap, this`context, this`trace
      ensures Valid() && context == old(context)
      ensures Grows(old(sched), sched) && |wiring.dep| >= old(|wiring.dep|)
      ensures Logs(fns, old(trace), old(value), trace, value)
      ensures ok ==> sched.flags[el] == NONE
      ensures ok ==> (recomputed <==> old(sched.flags[el]) & DIRTY != 0)
      ensures recomputed ==> |trace| > old(|trace|) && trace[|trace| - 1] == el
      ensures old(sched.flags[el]) & DIRTY == 0 ==>
                && ok && !recomputed && value == old(value) && trace == old(trace)
                && wiring == old(wiring) && lists == old(lists)
                && markedHeap == old(markedHeap) && sched == old(sched).(flags := old(sched.flags)[el := NONE])
      decreases gas, 0
    {
      LogsSame(fns, trace, value);
      recomputed := false;
      if sched.flags[el] & DIRTY != 0 {
        if gas == 0 {
          return false, recomputed;
        }
        var recOk, _, _, _ := Recompute(el, gas - 1);
        if !recOk {
          return false, recomputed;
        }
        recomputed := true;
      }
      ghost var sched1 := sched;
      ClearFlags(el);
      GrowsTrans(old(sched), sched1, sched);
      ok := true;
    }

    /** `el.flags = ReactiveFlags.None` (src/index.ts:155). */
    method ClearFlags(el: NodeId)
      requires Valid() && el < |fns|
      modifies this`sched
      ensures Valid() && Grows(old(sched), sched)
      ensures sched == old(sched).(flags := old(sched.flags)[el := NONE])
    {
      LevelsKeepGood(fns, value, wiring, lists, sched, context, sched.flags[el := NONE], sched.height);
      sched := sched.(flags := sched.flags[el := NONE]);
    }

    /** The loop of updateIfNecessary over el's dependency list
        (src/index.ts:140-148): from `deps` along nextDep, each computed
        dependency is brought up to date, and the walk stops early once el
        is Dirty. */
    method UpdateDeps(el: NodeId, gas: nat) returns (ok: bool)
      requires Valid() && el < |fns|
      modifies this`value, this`wiring, this`lists, this`sched, this`markedHeap, this`context, this`trace
      ensures Valid() && context == old(context)
      ensures Grows(old(sched), sched) && |wiring.dep| >= old(|wiring.dep|)
      ensures Logs(fns, old(trace), old(value), trace, value)
      decreases gas, 2
    {
      LogsSame(fns, trace, value);
      CursorBounds(fns, value, wiring, lists, sched, context, el, 0);
      var d: Option<LinkId> := wiring.deps[el];
      var steps: nat := 0;
      while d.Some?
        invariant Valid() && context == old(context)
        invariant Grows(old(sched), sched) && |wiring.dep| >= old(|wiring.dep|)
        invariant Logs(fns, old(trace), old(value), trace, value)
        invariant d.Some? ==> d.value < |wiring.dep|
        invariant steps <= gas
        decreases gas - steps
      {
        if steps == gas {
          return false;
        }
        CursorBounds(fns, value, wiring, lists, sched, context, el, d.value);
        var dep := wiring.dep[d.value];
        if fns[dep].Some? {
          ghost var sched1, t1, v1 := sched, trace, value;
          var depOk, _, _ := UpdateIfNecessary(dep, gas);
          GrowsTrans(old(sched), sched1, sched);
          LogsTrans(fns, old(trace), old(value), t1, v1, trace, value);
          if !depOk {
            return false;
          }
        }
        if sched.flags[el] & DIRTY != 0 {
          break;
        }
        CursorBounds(fns, value, wiring, lists, sched, context, el, d.value);
        d := wiring.depPtrs.next[d.value];
        steps := steps + 1;
      }
      ok := true;
    }

    /** read(el) (src/index.ts:253-271).  Outside a computation it only
        returns el's value.  Inside one (context c) it links el to c; for a
        computed el it lifts c above el, and when el is at or above the
        height being stabilized, or marked, it marks the heap and brings el
        up to date first.  It returns el's value at the end. */
    method Read(el: NodeId, gas: nat) returns (v: Value, ok: bool)
      requires Valid() && el < |fns|
      modifies this`value, this`wiring, this`lists, this`sched, this`markedHeap, this`context, this`trace
      ensures Valid() && context == old(context)
      ensures Grows(old(sched), sched) && |wiring.dep| >= old(|wiring.dep|)
      ensures Logs(fns, old(trace), old(value), trace, value) && v == value[el]
      ensures context.None? ==>
                ok && value == old(value) && trace == old(trace) && wiring == old(wiring) && lists == old(lists)
                && sched == old(sched) && markedHeap == old(markedHeap)
      ensures context.Some? && fns[el].None? ==>
                && ok && value == old(value) && trace == old(trace) && sched == old(sched) && markedHeap == old(markedHeap)
                && EdgesView() == EdgeStore.Link(old(EdgesView()), el, context.value)
      ensures context.Some? && fns[el].Some? ==> sched.height[context.value] > old(sched.height[el])
      ensures context.Some? && fns[el].Some? && ok &&
              (Raise(old(sched), el, context.value).height[el] >= stabilizeHeight || Marked(old(sched.flags[el]))) ==>
                sched.flags[el] == NONE
      ensures context.Some? && fns[el].Some? &&
              Raise(old(sched), el, context.value).height[el] < stabilizeHeight && !Marked(old(sched.flags[el])) ==>
                && ok && value == old(value) && trace == old(trace) && markedHeap == old(markedHeap)
                && sched == Raise(old(sched), el, context.value)
                && EdgesView() == EdgeStore.Link(old(EdgesView()), el, context.value)
      ensures ok && context.Some? && QuietRead(fns, old(sched), stabilizeHeight, el, context.value) ==>
                ReadStep(fns, el, context.value, old(Now()), v, Now())
      decreases gas, 2
    {
      LogsSame(fns, trace, value);
      if context.None? {
        return value[el], true;
      }
      LinkContext(el);
      ok := true;
      if fns[el].Some? {
        ok := ReadComputed(el, gas);
      }
      v := value[el];
    }

    /** read(el) of a computed el inside a computation, after the link
        (src/index.ts:257-268): the context is lifted above el, and when el
        is at or above the height being stabilized, or marked, the heap is
        marked and el brought up to date. */
    method ReadComputed(el: NodeId, gas: nat) returns (ok: bool)
      requires Valid() && el < |fns| && fns[el].Some? && context.Some?
      modifies this`value, this`wiring, this`lists, this`sched, this`markedHeap, this`context, this`trace
      ensures Valid() && context == old(context)
      ensures Grows(old(sched), sched) && |wiring.dep| >= old(|wiring.dep|)
      ensures Logs(fns, old(trace), old(value), trace, value)
      ensures sched.height[context.value] > old(sched.height[el])
      ensures ok && (Raise(old(sched), el, context.value).height[el] >= stabilizeHeight || Marked(old(sched.flags[el]))) ==>
                sched.flags[el] == NONE
      ensures Raise(old(sched), el, context.value).height[el] < stabilizeHeight && !Marked(old(sched.flags[el])) ==>
                && ok && value == old(value) && trace == old(trace) && markedHeap == old(markedHeap)
                && sched == Raise(old(sched), el, context.value) && wiring == old(wiring) && lists == old(lists)
      ensures ok && HeapIdle(old(sched)) && old(sched.flags[el]) == NONE ==>
                && value == old(value) && trace == old(trace)
                && sched == Raise(old(sched), el, context.value) && wiring == old(wiring) && lists == old(lists)
      decreases gas, 1
    {
      LogsSame(fns, trace, value);
      RaiseContext(el);
      if sched.height[el] >= stabilizeHeight || sched.flags[el] & (DIRTY | CHECK) != 0 {
        ghost var sched1 := sched;
        ok := Refresh(el, gas);
        GrowsTrans(old(sched), sched1, sched);
        if sched1.flags[el] == NONE {
          assert sched1.flags[el := NONE] == sched1.flags;
        }
      } else {
        ok := true;
      }
    }

    /** `link(el, context)` in read (src/index.ts:255). */
    method LinkContext(el: NodeId)
      requires Valid() && el < |fns| && context.Some?
      modifies this`wiring, this`lists
      ensures Valid() && EdgesView() == EdgeStore.Link(old(EdgesView()), el, context.value)
      ensures |wiring.dep| >= old(|wiring.dep|)
    {
      ghost var w0, l0 := wiring, lists;
      Link(el, context.value);
      LinkKeepsGood(fns, value, w0, l0, sched, context, el, wiring, lists);
      LinkFrame(Join(w0, l0), el, context.value);
    }

    /** The height update in read (src/index.ts:258-260). */
    method RaiseContext(el: NodeId)
      requires Valid() && el < |fns| && context.Some?
      modifies this`sched
      ensures Valid() && sched == Raise(old(sched), el, context.value)
      ensures Grows(old(sched), sched)
    {
      var c := context.value;
      if sched.height[el] >= sched.height[c] {
        LevelsKeepGood(fns, value, wiring, lists, sched, context, sched.flags, sched.height[c := sched.height[el] + 1]);
        sched := sched.(height := sched.height[c := sched.height[el] + 1]);
      }
    }

    /** markHeap() then updateIfNecessary(el) in read (src/index.ts:261-267). */
    method Refresh(el: NodeId, gas: nat) returns (ok: bool)
      requires Valid() && el < |fns| && fns[el].Some?
      modifies this`value, this`wiring, this`lists, this`sched, this`markedHeap, this`context, this`trace
      ensures Valid() && context == old(context)
      ensures Grows(old(sched), sched) && |wiring.dep| >= old(|wiring.dep|)
      ensures Logs(fns, old(trace), old(value), trace, value)
      ensures ok ==> sched.flags[el] == NONE
      ensures ok && HeapIdle(old(sched)) && !Marked(old(sched.flags[el])) ==>
                && value == old(value) && trace == old(trace) && wiring == old(wiring) && lists == old(lists)
                && sched == old(sched).(flags := old(sched.flags)[el := NONE])
      decreases gas, 0
    {
      LogsSame(fns, trace, value);
      var markOk := MarkHeap(gas, []);
      if !markOk || gas == 0 {
        return false;
      }
      ghost var sched1 := sched;
      var updOk, _, _ := UpdateIfNecessary(el, gas - 1);
      ok := updOk;
      GrowsTrans(old(sched), sched1, sched);
    }

    /** stabilize() (src/index.ts:313-323): height by height from 0 up to
        maxHeightInHeap (which the recomputations may raise), recompute the
        head of the bucket until the bucket is empty.  When it completes,
        stabilizeHeight is one past maxHeightInHeap and no bucket from
        maxHeightInHeap up holds a node.  A run that recomputes plan[h]
        nodes at height h, each without nested evaluation, ends as
        QuietStabilize says. */
    method Stabilize(gas: nat, ghost plan: seq<nat>) returns (ok: bool)
      requires Valid()
      modifies this`value, this`wiring, this`lists, this`sched, this`markedHeap, this`context, this`stabilizeHeight, this`trace
      ensures Valid() && context == old(context)
      ensures Grows(old(sched), sched) && |wiring.dep| >= old(|wiring.dep|)
      ensures Logs(fns, old(trace), old(value), trace, value)
      ensures ok ==> stabilizeHeight == sched.maxHeight + 1
      ensures ok ==> forall h :: h >= sched.maxHeight ==> At(sched.heap, h) == None
      ensures ok && QuietStabilize(fns, old(Now()), 0, plan).Some? ==> Now() == QuietStabilize(fns, old(Now()), 0, plan).value
    {
      LogsSame(fns, trace, value);
      ghost var goal, rest := QuietStabilize(fns, Now(), 0, plan), plan;
      var steps: nat := 0;
      stabilizeHeight := 0;
      while stabilizeHeight <= sched.maxHeight
        invariant Valid() && context == old(context)
        invariant Grows(old(sched), sched) && |wiring.dep| >= old(|wiring.dep|)
        invariant Logs(fns, old(trace), old(value), trace, value)
        invariant stabilizeHeight <= sched.maxHeight + 1 && steps <= gas
        invariant stabilizeHeight > 0 ==> At(sched.heap, stabilizeHeight - 1) == None
        invariant goal.Some? ==> QuietStabilize(fns, Now(), stabilizeHeight, rest) == goal
        decreases gas - steps
      {
        if steps == gas {
          return false;
        }
        steps := steps + 1;
        ghost var sched1, t1, v1 := sched, trace, value;
        var drained;
        drained, steps, rest := DrainLevel(gas, steps, goal, rest);
        GrowsTrans(old(sched), sched1, sched);
        LogsTrans(fns, old(trace), old(value), t1, v1, trace, value);
        if !drained {
          return false;
        }
      }
      EmptyFromMax(sched, |fns|, Computeds(fns));
      if goal.Some? {
        StabilizeEnd(fns, Now(), stabilizeHeight, rest);
      }
      ok := true;
    }

    /** One turn of the outer loop of stabilize (src/index.ts:318-322): the
        bucket at stabilizeHeight is drained and stabilizeHeight moves to
        the next height.  When the turn follows a quiet plan, QuietStabilize
        is left with the rest of the plan from the next height. */
    method DrainLevel(gas: nat, steps0: nat, ghost goal: Option<Outcome>, ghost plan: seq<nat>)
      returns (ok: bool, steps: nat, ghost rest: seq<nat>)
      requires Valid() && stabilizeHeight <= sched.maxHeight && steps0 <= gas
      modifies this`value, this`wiring, this`lists, this`sched, this`markedHeap, this`context, this`stabilizeHeight, this`trace
      ensures Valid() && context == old(context)
      ensures Grows(old(sched), sched) && |wiring.dep| >= old(|wiring.dep|)
      ensures Logs(fns, old(trace), old(value), trace, value)
      ensures steps0 <= steps <= gas && stabilizeHeight <= sched.maxHeight + 1
      ensures ok ==> stabilizeHeight == old(stabilizeHeight) + 1 && At(sched.heap, old(stabilizeHeight)) == None
      ensures !ok ==> stabilizeHeight == old(stabilizeHeight)
      ensures ok && goal.Some? && QuietStabilize(fns, old(Now()), old(stabilizeHeight), plan) == goal ==>
                QuietStabilize(fns, Now(), old(stabilizeHeight) + 1, rest) == goal
    {
      ghost var o, h := Now(), stabilizeHeight;
      ok, steps := DrainBucket(gas, steps0, if plan != [] then plan[0] else 0);
      rest := if plan != [] then plan[1..] else [];
      if ok && goal.Some? && QuietStabilize(fns, o, h, plan) == goal {
        LevelTie(fns, o, h, plan, Now());
      }
      if ok {
        stabilizeHeight := stabilizeHeight + 1;
      }
    }

    /** The inner loop of stabilize (src/index.ts:319-321): while the bucket
        at stabilizeHeight holds a node, its head is recomputed; each
        recompute takes one of the `gas` steps.  When it completes the
        bucket is empty, and a run of k recomputes without nested evaluation
        ends as QuietDrain says. */
    method DrainBucket(gas: nat, steps0: nat, ghost k: nat) returns (ok: bool, steps: nat)
      requires Valid() && stabilizeHeight <= sched.maxHeight && steps0 <= gas
      modifies this`value, this`wiring, this`lists, this`sched, this`markedHeap, this`context, this`trace
      ensures Valid() && context == old(context)
      ensures Grows(old(sched), sched) && |wiring.dep| >= old(|wiring.dep|)
      ensures Logs(fns, old(trace), old(value), trace, value)
      ensures steps0 <= steps <= gas && stabilizeHeight <= sched.maxHeight
      ensures ok ==> At(sched.heap, stabilizeHeight) == None
      ensures ok && QuietDrain(fns, old(Now()), stabilizeHeight, k).Some? ==>
                Now() == QuietDrain(fns, old(Now()), stabilizeHeight, k).value
    {
      LogsSame(fns, trace, value);
      ghost var goal, left := QuietDrain(fns, Now(), stabilizeHeight, k), k;
      steps := steps0;
      while At(sched.heap, stabilizeHeight).Some?
        invariant Valid() && context == old(context)
        invariant Grows(old(sched), sched) && |wiring.dep| >= old(|wiring.dep|)
        invariant Logs(fns, old(trace), old(value), trace, value)
        invariant stabilizeHeight <= sched.maxHeight && steps0 <= steps <= gas
        invariant goal.Some? ==> QuietDrain(fns, Now(), stabilizeHeight, left) == goal
        decreases gas - steps
      {
        if steps == gas {
          return false, steps;
        }
        ghost var sched1, t1, v1 := sched, trace, value;
        var recOk;
        recOk, left := RecomputeHead(gas, goal, left);
        GrowsTrans(old(sched), sched1, sched);
        LogsTrans(fns, old(trace), old(value), t1, v1, trace, value);
        if !recOk {
          return false, steps;
        }
        steps := steps + 1;
      }
      if goal.Some? {
        DrainEnd(fns, Now(), stabilizeHeight, left);
      }
      ok := true;
    }

    /** One turn of that loop (src/index.ts:320): the head of the bucket at
        stabilizeHeight is recomputed.  When the turn is the first of k
        quiet recomputes, QuietDrain is left with the other k - 1. */
    method RecomputeHead(gas: nat, ghost goal: Option<Outcome>, ghost k: nat) returns (ok: bool, ghost k': nat)
      requires Valid() && stabilizeHeight <= sched.maxHeight && At(sched.heap, stabilizeHeight).Some?
      modifies this`value, this`wiring, this`lists, this`sched, this`markedHeap, this`context, this`trace
      ensures Valid() && context == old(context)
      ensures Grows(old(sched), sched) && |wiring.dep| >= old(|wiring.dep|)
      ensures Logs(fns, old(trace), old(value), trace, value)
      ensures stabilizeHeight <= sched.maxHeight
      ensures ok && goal.Some? && QuietDrain(fns, old(Now()), stabilizeHeight, k) == goal ==>
                QuietDrain(fns, Now(), stabilizeHeight, k') == goal
    {
      HeadIsComputed(fns, value, wiring, lists, sched, context, stabilizeHeight);
      var el := At(sched.heap, stabilizeHeight).value;
      if QuietDrain(fns, Now(), stabilizeHeight, k).Some? {
        DrainTurn(fns, Now(), stabilizeHeight, k, el);
      }
      var recOk, _, _, _ := Recompute(el, gas);
      ok, k' := recOk, if k > 0 then k - 1 else 0;
    }
  }
}
