/** The Solid-style baseline of test/bench/queue.ts as one object: the
    node records live in one sequence indexed by node id (a signal is a
    node without `fn`), their adjacency arrays in a Graph, and the module
    globals `Listener`, `Owner`, `Updates`, `Effects` and `ExecCount` are
    fields; each function of the source that changes them is a method. */
module Solid {
  import opened Common
  import opened SolidGraph
  import EngineState
  import opened SolidState

  /** Node x was cleaned: no sources, clean, no owned computations. */
  ghost predicate Cleared(g: Graph, ns: seq<Node>, x: NodeId)
    requires x < |g.sources| && x < |ns|
  {
    g.sources[x] == [] && ns[x].state == 0 && ns[x].owned.None?
  }

  /** Node x was left alone or cleaned: it only lost its sources, its
      state and its owned list. */
  ghost predicate Wiped(g0: Graph, ns0: seq<Node>, g1: Graph, ns1: seq<Node>, x: NodeId)
    requires x < |g0.sources| && x < |ns0| && x < |g1.sources| && x < |ns1|
  {
    && (g1.sources[x] == g0.sources[x] || g1.sources[x] == [])
    && (ns1[x] == ns0[x] || ns1[x] == ns0[x].(state := 0, owned := None))
  }

  /** Every node was left alone or cleaned. */
  ghost predicate WipedAll(g0: Graph, ns0: seq<Node>, g1: Graph, ns1: seq<Node>)
  {
    && |ns1| == |ns0| && |g0.sources| == |ns0| && |g1.sources| == |ns0|
    && forall x :: 0 <= x < |ns0| ==> Wiped(g0, ns0, g1, ns1, x)
  }

  lemma WipedTrans(g0: Graph, ns0: seq<Node>, g1: Graph, ns1: seq<Node>, g2: Graph, ns2: seq<Node>)
    requires WipedAll(g0, ns0, g1, ns1) && WipedAll(g1, ns1, g2, ns2)
    ensures WipedAll(g0, ns0, g2, ns2)
  {
    forall x | 0 <= x < |ns0| ensures Wiped(g0, ns0, g2, ns2, x) {
      assert Wiped(g0, ns0, g1, ns1, x) && Wiped(g1, ns1, g2, ns2, x);
    }
  }

  /** A cleaned node stays cleaned. */
  lemma ClearedStay(g0: Graph, ns0: seq<Node>, g1: Graph, ns1: seq<Node>, xs: seq<NodeId>)
    requires WipedAll(g0, ns0, g1, ns1)
    requires forall j :: 0 <= j < |xs| ==> xs[j] < |ns0| && Cleared(g0, ns0, xs[j])
    ensures forall j :: 0 <= j < |xs| ==> Cleared(g1, ns1, xs[j])
  {
    forall j | 0 <= j < |xs| ensures Cleared(g1, ns1, xs[j]) {
      assert Wiped(g0, ns0, g1, ns1, xs[j]);
    }
  }

  lemma WipedSameKind(g0: Graph, ns0: seq<Node>, g1: Graph, ns1: seq<Node>)
    requires WipedAll(g0, ns0, g1, ns1)
    ensures SameKind(ns0, ns1) && forall x :: 0 <= x < |ns0| ==> ns1[x].value == ns0[x].value
  {
    forall x | 0 <= x < |ns0|
      ensures ns1[x].fn == ns0[x].fn && ns1[x].pure == ns0[x].pure
      ensures ns1[x].comparator == ns0[x].comparator && ns1[x].owner == ns0[x].owner
      ensures ns1[x].value == ns0[x].value
    {
      assert Wiped(g0, ns0, g1, ns1, x);
    }
  }

  class Runtime {
    var nodes: seq<Node>
    var graph: Graph
    var listener: Option<NodeId>
    var currentOwner: Option<NodeId>
    var updates: Option<seq<NodeId>>
    var effects: Option<seq<NodeId>>
    var execCount: nat
    // the computations whose value was committed so far, in order
    ghost var writes: seq<NodeId>

    ghost predicate Valid()
      reads this
    {
      Good(nodes, graph, listener, currentOwner, updates, effects)
    }

    ghost function Globals(): Env
      reads this
    {
      Env(listener, currentOwner, updates, effects, writes)
    }

    /** The module's initial globals: no node, no Listener, no Owner, no
        batch (test/bench/queue.ts:24-28). */
    constructor ()
      ensures Valid() && nodes == [] && listener.None? && currentOwner.None? && updates.None? && effects.None? && execCount == 0
      ensures writes == []
    {
      nodes := [];
      graph := Empty(0);
      listener, currentOwner, updates, effects, execCount := None, None, None, None, 0;
      writes := [];
    }

    /** createSignal (test/bench/queue.ts:84-95): a node with a value, no
        observers and the comparator of its options. */
    method CreateSignal(v: Value, equals: Option<Equals>) returns (n: NodeId)
      requires Valid()
      modifies this`nodes, this`graph
      ensures Valid() && n == old(|nodes|)
      ensures nodes == old(nodes) + [NewSignal(v, equals)] && graph == AddNode(old(graph))
    {
      n := |nodes|;
      AddKeepsGood(nodes, graph, listener, currentOwner, updates, effects, NewSignal(v, equals));
      nodes := nodes + [NewSignal(v, equals)];
      graph := AddNode(graph);
    }

    /** createComputation (test/bench/queue.ts:211-239): a node with fn,
        initial value and state, owned by the current Owner, whose owned
        list gains it. */
    method CreateComputation(f: Fn, init: Value, isPure: bool, st: nat) returns (c: NodeId)
      requires Valid() && EngineState.FnBelow(f, |nodes| + 1)
      modifies this`nodes, this`graph
      ensures Valid() && c == old(|nodes|) && graph == AddNode(old(graph))
      ensures nodes == Adopt(old(nodes) + [NewComputation(f, init, isPure, st, currentOwner)], currentOwner, c)
    {
      c := |nodes|;
      var n := NewComputation(f, init, isPure, st, currentOwner);
      CreateKeepsGood(nodes, graph, listener, currentOwner, updates, effects, n);
      nodes, graph := Adopt(nodes + [n], currentOwner, c), AddNode(graph);
    }

    /** The tracking half of readSignal (test/bench/queue.ts:146-154), under
        Listener c. */
    method Track(c: NodeId, n: NodeId)
      requires Valid() && listener == Some(c) && n < |nodes|
      modifies this`graph
      ensures Valid() && graph == SolidGraph.Track(old(graph), c, n)
    {
      TrackKeepsGood(nodes, graph, listener, currentOwner, updates, effects, c, n);
      var sSlot := |graph.observers[n]|;
      graph := graph.(sources := graph.sources[c := graph.sources[c] + [n]]);
      graph := graph.(sourceSlots := graph.sourceSlots[c := graph.sourceSlots[c] + [sSlot]]);
      graph := graph.(observers := graph.observers[n := graph.observers[n] + [c]]);
      graph := graph.(observerSlots := graph.observerSlots[n := graph.observerSlots[n] + [|graph.sources[c]| - 1]]);
    }

    /** One turn of cleanNode's source loop (test/bench/queue.ts:335-346). */
    method PopSource(node: NodeId)
      requires Valid() && node < |nodes| && |graph.sources[node]| > 0
      modifies this`graph
      ensures Valid() && graph == SolidGraph.PopSource(old(graph), |nodes|, node)
      ensures graph.sources == old(graph.sources)[node := old(graph.sources[node][..|graph.sources[node]| - 1])]
    {
      ghost var g0 := graph;
      PopKeepsGood(nodes, graph, listener, currentOwner, updates, effects, node);
      PopMovedSlot(graph, |nodes|, node);
      var k := |graph.sources[node]| - 1;
      var source: NodeId := graph.sources[node][k];
      var index: nat := graph.sourceSlots[node][k];
      graph := graph.(sources := graph.sources[node := graph.sources[node][..k]]);
      graph := graph.(sourceSlots := graph.sourceSlots[node := graph.sourceSlots[node][..k]]);
      var obs := graph.observers[source];
      if |obs| > 0 {
        var last := |obs| - 1;
        var n: NodeId := obs[last];
        var s: nat := graph.observerSlots[source][last];
        graph := graph.(observers := graph.observers[source := obs[..last]]);
        graph := graph.(observerSlots := graph.observerSlots[source := graph.observerSlots[source][..last]]);
        if index < last {
          var slots: seq<nat> := graph.sourceSlots[n][s := index];
          graph := graph.(sourceSlots := graph.sourceSlots[n := slots]);
          var moved: seq<NodeId> := graph.observers[source][index := n];
          graph := graph.(observers := graph.observers[source := moved]);
          var movedSlots: seq<nat> := graph.observerSlots[source][index := s];
          graph := graph.(observerSlots := graph.observerSlots[source := movedSlots]);
        }
      }
      assert graph == SolidGraph.PopSource(g0, |nodes|, node);
    }

    /** The source loop of cleanNode (test/bench/queue.ts:332-348): every
        source entry of the node goes, and with it the node's entry in that
        source's observers. */
    method CleanSources(node: NodeId)
      requires Valid() && node < |nodes|
      modifies this`graph
      ensures Valid() && graph.sources == old(graph.sources)[node := []]
      ensures forall s :: 0 <= s < |nodes| ==> node !in graph.observers[s]
    {
      if nodes[node].fn.Some? {
        ghost var s0 := graph.sources;
        assert s0[node][..|s0[node]|] == s0[node];
        while |graph.sources[node]| > 0
          invariant Valid() && graph.sources == s0[node := s0[node][..|graph.sources[node]|]]
          decreases |graph.sources[node]|
        {
          ghost var k := |graph.sources[node]| - 1;
          PopSource(node);
          assert s0[node][..k + 1][..k] == s0[node][..k];
        }
        assert s0[node := s0[node][..0]] == s0[node := []];
      }
      Unobserving(graph, |nodes|, node);
    }

    /** cleanNode (test/bench/queue.ts:330-359): the node's sources are
        removed, each computation it owns is cleaned in turn and the owned
        list dropped, and the node becomes clean.  Only the node and later
        nodes (its owned tree) are touched, and a node only ever loses its
        sources, state or owned list. */
    method CleanNode(node: NodeId)
      requires Valid() && node < |nodes|
      modifies this`graph, this`nodes
      ensures Valid() && |nodes| == old(|nodes|) && |graph.sources| == |nodes| && Cleared(graph, nodes, node)
      ensures forall s :: 0 <= s < |nodes| ==> node !in graph.observers[s]
      ensures old(nodes[node].owned).Some? ==>
                forall i :: 0 <= i < |old(nodes[node].owned.value)| ==> Cleared(graph, nodes, old(nodes[node].owned.value[i]))
      ensures forall x :: 0 <= x < node ==> nodes[x] == old(nodes[x]) && graph.sources[x] == old(graph.sources[x])
      ensures WipedAll(old(graph), old(nodes), graph, nodes)
      ensures old(nodes[node].owned).None? ==>
                nodes == old(nodes)[node := old(nodes[node]).(state := 0, owned := None)]
                && graph.sources == old(graph.sources)[node := []]
      decreases |nodes| - node, 1
    {
      ghost var g0, ns0 := graph, nodes;
      CleanSources(node);
      ghost var g1 := graph;
      assert WipedAll(g0, ns0, g1, ns0);
      if nodes[node].owned.Some? {
        CleanOwned(node);
        WipedTrans(g0, ns0, g1, ns0, graph, nodes);
      }
      ghost var g2, ns2 := graph, nodes;
      Reset(node);
      assert WipedAll(g2, ns2, graph, nodes) by {
        assert nodes[node] == ns0[node].(state := 0, owned := None);
        assert forall x :: 0 <= x < |ns2| && x != node ==> nodes[x] == ns2[x];
      }
      WipedTrans(g0, ns0, g2, ns2, graph, nodes);
      Unobserving(graph, |nodes|, node);
    }

    /** The end of cleanNode (test/bench/queue.ts:351, 357): the owned list
        is dropped and the node becomes clean. */
    method Reset(node: NodeId)
      requires Valid() && node < |nodes|
      modifies this`nodes
      ensures Valid() && nodes == old(nodes)[node := old(nodes[node]).(state := 0, owned := None)]
    {
      if nodes[node].owned.Some? {
        DisownKeepsGood(nodes, graph, listener, currentOwner, updates, effects, node);
        nodes := nodes[node := nodes[node].(owned := None)];
      }
      ShapeKeepsGood(nodes, graph, listener, currentOwner, updates, effects, SetState(nodes, node, 0));
      nodes := SetState(nodes, node, 0);
    }

    /** The owned loop of cleanNode (test/bench/queue.ts:349-350): each
        computation the node owns is cleaned in turn; the node itself and
        all earlier nodes are not touched. */
    method CleanOwned(node: NodeId)
      requires Valid() && node < |nodes| && nodes[node].owned.Some?
      modifies this`graph, this`nodes
      ensures Valid() && |nodes| == old(|nodes|) && |graph.sources| == |nodes| && nodes[node] == old(nodes[node])
      ensures forall i :: 0 <= i < |nodes[node].owned.value| ==> Cleared(graph, nodes, nodes[node].owned.value[i])
      ensures forall x :: 0 <= x <= node ==> nodes[x] == old(nodes[x]) && graph.sources[x] == old(graph.sources[x])
      ensures WipedAll(old(graph), old(nodes), graph, nodes)
      decreases |nodes| - node, 0
    {
      var cs := nodes[node].owned.value;
      var i := 0;
      while i < |cs|
        invariant Valid() && i <= |cs| && |nodes| == old(|nodes|)
        invariant forall x :: 0 <= x <= node ==> nodes[x] == old(nodes[x]) && graph.sources[x] == old(graph.sources[x])
        invariant forall j :: 0 <= j < i ==> Cleared(graph, nodes, cs[j])
        invariant WipedAll(old(graph), old(nodes), graph, nodes)
      {
        ghost var g1, ns1 := graph, nodes;
        assert node < cs[i] < |nodes|;
        CleanNode(cs[i]);
        WipedTrans(old(graph), old(nodes), g1, ns1, graph, nodes);
        ClearedStay(g1, ns1, graph, nodes, cs[..i]);
        assert forall j :: 0 <= j < i ==> cs[..i][j] == cs[j];
        i := i + 1;
      }
    }

    /** markDownstream (test/bench/queue.ts:317-328): every clean observer
        becomes Pending and is queued, pure ones on Updates and the others
        on Effects, and marking continues from it.  Only clean nodes
        change, each is queued once, and afterwards every observer of the
        node, and everything downstream of a node marked here, is unclean. */
    method MarkDownstream(node: NodeId)
      requires Valid() && node < |nodes| && updates.Some?
      modifies this`nodes, this`updates, this`effects
      ensures Valid() && updates.Some? && effects.Some?
      ensures MarkPass(graph, old(nodes), nodes, old(updates.value), updates.value, old(effects.value), effects.value)
      ensures AllMarked(graph.observers[node], nodes)
      decreases CountClean(nodes), 2
    {
      var os := graph.observers[node];
      var i := 0;
      ghost var ns0, u0, e0 := nodes, updates.value, effects.value;
      MarkPassNone(graph, nodes, updates.value, effects.value);
      while i < |os|
        invariant Valid() && updates.Some? && effects.Some? && i <= |os|
        invariant MarkPass(graph, ns0, nodes, u0, updates.value, e0, effects.value)
        invariant AllMarked(os[..i], nodes)
      {
        var o := os[i];
        ghost var ns1, u1, e1 := nodes, updates.value, effects.value;
        RisesOnlyStates(ns0, nodes);
        CountCleanMono(ns0, nodes);
        MarkTurn(o);
        MarkPassTrans(graph, ns0, ns1, nodes, u0, u1, updates.value, e0, e1, effects.value);
        RisesOnlyStates(ns1, nodes);
        AllMarkedMono(os[..i], ns1, nodes);
        AllMarkedSnoc(os, i, nodes);
        i := i + 1;
      }
      assert os[..|os|] == os;
    }

    /** One turn of markDownstream's loop (test/bench/queue.ts:320-326):
        a clean observer o is marked, anything else is left alone. */
    method MarkTurn(o: NodeId)
      requires Valid() && o < |nodes| && updates.Some?
      modifies this`nodes, this`updates, this`effects
      ensures Valid() && updates.Some? && effects.Some? && nodes[o].state != 0
      ensures MarkPass(graph, old(nodes), nodes, old(updates.value), updates.value, old(effects.value), effects.value)
      decreases CountClean(nodes), 1
    {
      if nodes[o].state == 0 {
        MarkOne(o);
      } else {
        MarkPassNone(graph, nodes, updates.value, effects.value);
      }
    }

    /** The turn of markDownstream's loop for a clean observer o
        (test/bench/queue.ts:322-325). */
    method MarkOne(o: NodeId)
      requires Valid() && o < |nodes| && nodes[o].state == 0 && updates.Some?
      modifies this`nodes, this`updates, this`effects
      ensures Valid() && updates.Some? && effects.Some? && nodes[o].state != 0
      ensures MarkPass(graph, old(nodes), nodes, old(updates.value), updates.value, old(effects.value), effects.value)
      decreases CountClean(nodes), 0
    {
      ghost var a, ua, ea := nodes, updates.value, effects.value;
      CountCleanMark(nodes, o, PENDING);
      ShapeKeepsGood(nodes, graph, listener, currentOwner, updates, effects, SetState(nodes, o, PENDING));
      nodes := SetState(nodes, o, PENDING);
      if nodes[o].pure {
        PushQueue(updates, |nodes|, o);
        GlobalsKeepGood(nodes, graph, listener, currentOwner, updates, effects, listener, currentOwner, Some(updates.value + [o]), effects);
        updates := Some(updates.value + [o]);
      } else {
        PushQueue(effects, |nodes|, o);
        GlobalsKeepGood(nodes, graph, listener, currentOwner, updates, effects, listener, currentOwner, updates, Some(effects.value + [o]));
        effects := Some(effects.value + [o]);
      }
      MarkDownstream(o);
      MarkPassOne(graph, a, nodes, ua, updates.value, ea, effects.value, o);
    }

    /** The marking pass writeSignal runs inside runUpdates
        (test/bench/queue.ts:168-177): every observer of the node becomes
        Stale; one that was clean is first queued by kind and marked
        downstream of. */
    method MarkObservers(node: NodeId)
      requires Valid() && node < |nodes| && updates.Some?
      modifies this`nodes, this`updates, this`effects
      ensures Valid() && updates.Some? && effects.Some?
      ensures StalePass(graph, graph.observers[node], old(nodes), nodes, old(updates.value), updates.value, old(effects.value), effects.value)
    {
      var os := graph.observers[node];
      var i := 0;
      ghost var ns0, u0, e0 := nodes, updates.value, effects.value;
      StalePassNone(graph, nodes, updates.value, effects.value);
      while i < |os|
        invariant Valid() && updates.Some? && effects.Some? && i <= |os|
        invariant StalePass(graph, os[..i], ns0, nodes, u0, updates.value, e0, effects.value)
      {
        ghost var ns1, u1, e1 := nodes, updates.value, effects.value;
        StaleTurn(os[i]);
        StalePassTrans(graph, os[..i], [os[i]], ns0, ns1, nodes, u0, u1, updates.value, e0, e1, effects.value);
        assert os[..i + 1] == os[..i] + [os[i]];
        i := i + 1;
      }
      assert os[..|os|] == os;
    }

    /** One turn of writeSignal's loop (test/bench/queue.ts:170-176). */
    method StaleTurn(o: NodeId)
      requires Valid() && o < |nodes| && updates.Some?
      modifies this`nodes, this`updates, this`effects
      ensures Valid() && updates.Some? && effects.Some?
      ensures StalePass(graph, [o], old(nodes), nodes, old(updates.value), updates.value, old(effects.value), effects.value)
    {
      ghost var a, ua, ea := nodes, updates.value, effects.value;
      if nodes[o].state == 0 {
        if nodes[o].pure {
          PushQueue(updates, |nodes|, o);
          GlobalsKeepGood(nodes, graph, listener, currentOwner, updates, effects, listener, currentOwner, Some(updates.value + [o]), effects);
          updates := Some(updates.value + [o]);
        } else {
          PushQueue(effects, |nodes|, o);
          GlobalsKeepGood(nodes, graph, listener, currentOwner, updates, effects, listener, currentOwner, updates, Some(effects.value + [o]));
          effects := Some(effects.value + [o]);
        }
        MarkDownstream(o);
        StaleTurnClean(graph, a, nodes, ua, updates.value, ea, effects.value, o);
      } else {
        StaleTurnUnclean(graph, a, ua, ea, o);
      }
      ShapeKeepsGood(nodes, graph, listener, currentOwner, updates, effects, SetState(nodes, o, STALE));
      nodes := SetState(nodes, o, STALE);
    }

    /** readSignal (test/bench/queue.ts:137-156): an unclean computation is
        first brought up to date with Updates set aside (updateComputation
        when Stale, lookUpstream otherwise); then, under a Listener, the
        read is tracked on both sides; the node's value is returned.  A
        clean node or a signal is only tracked. */
    method ReadSignal(n: NodeId, gas: nat) returns (v: Value, ok: bool)
      requires Valid() && n < |nodes|
      modifies this`nodes, this`graph, this`listener, this`currentOwner, this`updates, this`effects, this`execCount, this`writes
      ensures Valid() && Kept(old(nodes), old(Globals()), nodes, Globals())
      ensures v == nodes[n].value
      ensures old(nodes[n].state) == 0 || old(nodes[n].fn).None? ==>
                && ok && nodes == old(nodes) && Globals() == old(Globals()) && execCount == old(execCount)
                && graph == (if listener.Some? then SolidGraph.Track(old(graph), listener.value, n) else old(graph))
      decreases gas, 1
    {
      ok := true;
      if nodes[n].state != 0 && nodes[n].fn.Some? {
        if gas == 0 {
          return nodes[n].value, false;
        }
        ok := UpdateAside(n, gas);
      }
      if listener.Some? {
        Track(listener.value, n);
      }
      v := nodes[n].value;
    }

    /** The update half of readSignal (test/bench/queue.ts:138-145): with
        Updates set aside, a Stale computation is updated and a Pending one
        looked upstream of. */
    method UpdateAside(n: NodeId, gas: nat) returns (ok: bool)
      requires Valid() && n < |nodes| && nodes[n].fn.Some? && gas > 0
      modifies this`nodes, this`graph, this`listener, this`currentOwner, this`updates, this`effects, this`execCount, this`writes
      ensures Valid() && Kept(old(nodes), old(Globals()), nodes, Globals())
      decreases gas, 0
    {
      var saved := updates;
      GlobalsKeepGood(nodes, graph, listener, currentOwner, updates, effects, listener, currentOwner, None, effects);
      updates := None;
      if nodes[n].state == STALE {
        ok := UpdateComputation(n, gas - 1);
      } else {
        ok := LookUpstream(n, gas - 1);
      }
      GlobalsKeepGood(nodes, graph, listener, currentOwner, updates, effects, listener, currentOwner, saved, effects);
      updates := saved;
      KeptAside(old(nodes), old(Globals()), nodes, Globals());
    }

    /** A computation's fn run from its decision tree, each read a
        readSignal: the values read, in order, lead fn to its result; path
        lists the nodes read, and each value read is what its node held
        when read, at log position at[i] (see ReadsCurrent). */
    method RunFn(f: Fn, seen: seq<Value>, gas: nat)
      returns (v: Value, ok: bool, ghost vals: seq<Value>, ghost path: seq<NodeId>, ghost at: seq<nat>)
      requires Valid() && EngineState.FnBelow(f, |nodes|)
      modifies this`nodes, this`graph, this`listener, this`currentOwner, this`updates, this`effects, this`execCount, this`writes
      ensures Valid() && Kept(old(nodes), old(Globals()), nodes, Globals())
      ensures ok ==> EngineState.Go(f, seen, vals) == Some(v)
      ensures path == EngineState.ReadsOf(f, vals) && ReadsCurrent(old(|writes|), writes, nodes, path, at, vals)
      decreases gas, 3, f
    {
      match f
      case Return(result) =>
        v, ok, vals, path, at := result(seen), true, [], [], [];
      case Read(dep, test, onTrue, onFalse) =>
        var x;
        ghost var ns0, e0 := nodes, Globals();
        x, ok := ReadSignal(dep, gas);
        ghost var ns1, e1 := nodes, Globals();
        vals, path, at := [x], [dep], [|writes|];
        if !ok {
          return x, false, vals, path, at;
        }
        ghost var rest, restPath, restAt;
        v, ok, rest, restPath, restAt := RunFn(if test(x) then onTrue else onFalse, seen + [x], gas);
        KeptTrans(ns0, e0, ns1, e1, nodes, Globals());
        ReadsCons(old(|writes|), ns1, e1, nodes, Globals(), dep, x, restPath, restAt, rest);
        vals, path, at := [x] + rest, [dep] + restPath, [|e1.writes|] + restAt;
        assert vals[0] == x && vals[1..] == rest;
    }

    /** updateComputation (test/bench/queue.ts:188-198): a computation is
        cleaned and run with itself as Listener and Owner, at the current
        ExecCount; then Listener and Owner are restored.  A signal is left
        alone. */
    method UpdateComputation(node: NodeId, gas: nat) returns (ok: bool)
      requires Valid() && node < |nodes|
      modifies this`nodes, this`graph, this`listener, this`currentOwner, this`updates, this`effects, this`execCount, this`writes
      ensures Valid() && Kept(old(nodes), old(Globals()), nodes, Globals())
      ensures old(nodes[node].fn).None? ==>
                ok && nodes == old(nodes) && graph == old(graph) && Globals() == old(Globals()) && execCount == old(execCount)
      decreases gas, 0
    {
      if nodes[node].fn.None? {
        return true;
      }
      if gas == 0 {
        return false;
      }
      ghost var ns0, g0, e0 := nodes, graph, Globals();
      CleanNode(node);
      WipedSameKind(g0, ns0, graph, nodes);
      var owner, prevListener, time := currentOwner, listener, execCount;
      GlobalsKeepGood(nodes, graph, listener, currentOwner, updates, effects, Some(node), Some(node), updates, effects);
      listener, currentOwner := Some(node), Some(node);
      ghost var ns1, e1 := nodes, Globals();
      ok := RunComputation(node, time, gas - 1);
      GlobalsKeepGood(nodes, graph, listener, currentOwner, updates, effects, prevListener, owner, updates, effects);
      listener, currentOwner := prevListener, owner;
      KeptInside(ns0, e0, ns1, nodes, Globals(), Some(node), Some(node));
    }

    /** runComputation (test/bench/queue.ts:200-209): the fn is run, and
        its result committed. */
    method RunComputation(node: NodeId, time: nat, gas: nat) returns (ok: bool)
      requires Valid() && node < |nodes| && nodes[node].fn.Some?
      modifies this`nodes, this`graph, this`listener, this`currentOwner, this`updates, this`effects, this`execCount, this`writes
      ensures Valid() && Kept(old(nodes), old(Globals()), nodes, Globals())
      decreases gas, 9
    {
      ghost var ns0, e0 := nodes, Globals();
      var v;
      ghost var vals, path, at;
      v, ok, vals, path, at := RunFn(nodes[node].fn.value, [], gas);
      if !ok {
        return;
      }
      ghost var ns1, e1 := nodes, Globals();
      ok := Commit(node, v, time, gas);
      KeptTrans(ns0, e0, ns1, e1, nodes, Globals());
    }

    /** The commit of runComputation (test/bench/queue.ts:203-208): unless
        the node was already updated after `time`, the new value is
        written (through writeSignal once the node has run before, so its
        observers are marked), updatedAt becomes `time`, and the node is
        logged. */
    method Commit(node: NodeId, v: Value, time: nat, gas: nat) returns (ok: bool)
      requires Valid() && node < |nodes| && nodes[node].fn.Some?
      modifies this`nodes, this`graph, this`listener, this`currentOwner, this`updates, this`effects, this`execCount, this`writes
      ensures Valid() && Kept(old(nodes), old(Globals()), nodes, Globals())
      ensures old(nodes[node].updatedAt).Some? && old(nodes[node].updatedAt.value) > time ==>
                ok && nodes == old(nodes) && graph == old(graph) && Globals() == old(Globals()) && execCount == old(execCount)
      ensures old(nodes[node].updatedAt).None? || old(nodes[node].updatedAt.value) <= time ==>
                nodes[node].updatedAt == Some(time)
      ensures old(nodes[node].updatedAt).None? ==>
                && ok && nodes == old(nodes)[node := old(nodes[node]).(value := v, updatedAt := Some(time))]
                && graph == old(graph) && Globals() == old(Globals()).(writes := old(writes) + [node])
                && execCount == old(execCount)
      decreases gas, 8
    {
      var at := nodes[node].updatedAt;
      ok := true;
      if at.None? || at.value <= time {
        if at.Some? {
          var r;
          r, ok := WriteSignal(node, v, gas);
          ghost var ns1, e1 := nodes, Globals();
          KeptCommit(old(nodes), old(Globals()), ns1, e1, node, nodes[node].(updatedAt := Some(time)));
          Put(node, nodes[node].(updatedAt := Some(time)));
          writes := writes + [node];
          return;
        }
        assert old(nodes)[node := old(nodes)[node].(value := nodes[node].value)] == nodes;
        LoggedStill(nodes, nodes, writes);
        KeptCommit(old(nodes), old(Globals()), nodes, Globals(), node, nodes[node].(value := v, updatedAt := Some(time)));
        Put(node, nodes[node].(value := v, updatedAt := Some(time)));
        writes := writes + [node];
      }
    }

    /** One node replaced by another with the same fn, owner and owned
        list. */
    method Put(node: NodeId, n: Node)
      requires Valid() && node < |nodes|
      requires n.fn == nodes[node].fn && n.owner == nodes[node].owner && n.owned == nodes[node].owned
      modifies this`nodes
      ensures Valid() && nodes == old(nodes)[node := n]
    {
      ShapeKeepsGood(nodes, graph, listener, currentOwner, updates, effects, nodes[node := n]);
      nodes := nodes[node := n];
    }

    /** writeSignal (test/bench/queue.ts:158-186): a value its comparator
        finds equal to the current one changes nothing; otherwise it is
        stored, and if the node has observers they are marked in a
        runUpdates batch.  The argument is returned.  Apart from the node
        itself, only the computations logged changed value, and a signal
        ends holding the value written. */
    method WriteSignal(node: NodeId, v: Value, gas: nat) returns (r: Value, ok: bool)
      requires Valid() && node < |nodes|
      modifies this`nodes, this`graph, this`listener, this`currentOwner, this`updates, this`effects, this`execCount, this`writes
      ensures Valid() && r == v && |nodes| == old(|nodes|)
      ensures Kept(old(nodes)[node := old(nodes[node]).(value := nodes[node].value)], old(Globals()), nodes, Globals())
      ensures old(nodes[node].fn).None? && !(old(nodes[node].comparator).Some? && Same(old(nodes[node].comparator.value), old(nodes[node].value), v)) ==>
                nodes[node].value == v
      ensures old(nodes[node].comparator).Some? && Same(old(nodes[node].comparator.value), old(nodes[node].value), v) ==>
                ok && nodes == old(nodes) && graph == old(graph) && Globals() == old(Globals()) && execCount == old(execCount)
      ensures !(old(nodes[node].comparator).Some? && Same(old(nodes[node].comparator.value), old(nodes[node].value), v)) &&
              old(graph.observers[node]) == [] ==>
                && ok && nodes == old(nodes)[node := old(nodes[node]).(value := v)]
                && graph == old(graph) && Globals() == old(Globals()) && execCount == old(execCount)
      ensures !(old(nodes[node].comparator).Some? && Same(old(nodes[node].comparator.value), old(nodes[node].value), v)) &&
              old(updates).Some? ==>
                && ok && graph == old(graph) && updates.Some? && effects.Some?
                && StalePass(graph, graph.observers[node], old(nodes)[node := old(nodes[node]).(value := v)], nodes,
                             old(updates.value), updates.value, old(effects.value), effects.value)
      decreases gas, 7
    {
      r, ok := v, true;
      var cmp := nodes[node].comparator;
      if cmp.Some? && Same(cmp.value, nodes[node].value, v) {
        assert old(nodes)[node := old(nodes[node]).(value := nodes[node].value)] == nodes;
        LoggedStill(nodes, nodes, writes);
        return;
      }
      ShapeKeepsGood(nodes, graph, listener, currentOwner, updates, effects, nodes[node := nodes[node].(value := v)]);
      nodes := nodes[node := nodes[node].(value := v)];
      ghost var ns1 := nodes;
      LoggedStill(ns1, ns1, writes);
      if |graph.observers[node]| > 0 {
        ok := RunUpdates(MarkFrom(node), gas);
      }
      KeptWrite(old(nodes), old(Globals()), ns1, nodes, Globals(), node, v);
    }

    /** runUpdates without its exception handling (test/bench/queue.ts:266-286):
        inside a batch the job just runs; otherwise a batch is opened
        (Updates, and Effects unless they exist already, start empty, and
        ExecCount is bumped), the job runs, completeUpdates drains the
        queues, and the batch is closed. */
    method RunUpdates(job: Job, gas: nat) returns (ok: bool)
      requires Valid() && JobOk(job, |nodes|)
      modifies this`nodes, this`graph, this`listener, this`currentOwner, this`updates, this`effects, this`execCount, this`writes
      ensures Valid() && Kept(old(nodes), old(Globals()), nodes, Globals())
      ensures old(updates).Some? && job.MarkFrom? ==>
                && ok && graph == old(graph) && updates.Some? && effects.Some? && execCount == old(execCount)
                && StalePass(graph, graph.observers[job.node], old(nodes), nodes, old(updates.value), updates.value,
                             old(effects.value), effects.value)
      decreases gas, 6
    {
      if updates.Some? {
        ok := RunJob(job, gas);
      } else {
        ok := RunBatch(job, gas);
      }
    }

    /** runUpdates outside a batch (test/bench/queue.ts:268-285): the batch
        is opened, the job runs, completeUpdates drains the queues, and the
        batch is closed. */
    method RunBatch(job: Job, gas: nat) returns (ok: bool)
      requires Valid() && JobOk(job, |nodes|) && updates.None?
      modifies this`nodes, this`graph, this`listener, this`currentOwner, this`updates, this`effects, this`execCount, this`writes
      ensures Valid() && Kept(old(nodes), old(Globals()), nodes, Globals())
      decreases gas, 5
    {
      var wait := effects.Some?;
      var effects' := if wait then effects else Some([]);
      GlobalsKeepGood(nodes, graph, listener, currentOwner, updates, effects, listener, currentOwner, Some([]), effects');
      updates, effects := Some([]), effects';
      execCount := execCount + 1;
      ghost var ns1, e1 := nodes, Globals();
      ok := RunJob(job, gas);
      ghost var ns2, e2 := nodes, Globals();
      if ok {
        ok := CompleteUpdates(wait, gas);
        SameKindTrans(ns1, ns2, nodes);
        LoggedTrans(old(nodes), old(writes), ns2, e2.writes, nodes, writes);
        assert wait ==> Extends(e1.effects, effects) by {
          if wait {
            ExtendsTrans(e1.effects, e2.effects, effects);
          }
        }
      }
      var effectsOut := if wait then effects else None;
      GlobalsKeepGood(nodes, graph, listener, currentOwner, updates, effects, listener, currentOwner, None, effectsOut);
      updates, effects := None, effectsOut;
    }

    /** The function runUpdates is given: writeSignal's marking pass, or a
        run of the effects queue (runEffects is runQueue,
        test/bench/queue.ts:6, 296). */
    method RunJob(job: Job, gas: nat) returns (ok: bool)
      requires Valid() && JobOk(job, |nodes|) && updates.Some?
      modifies this`nodes, this`graph, this`listener, this`currentOwner, this`updates, this`effects, this`execCount, this`writes
      ensures Valid() && Kept(old(nodes), old(Globals()), nodes, Globals()) && updates.Some? && effects.Some?
      ensures job.MarkFrom? ==>
                && ok && graph == old(graph) && execCount == old(execCount)
                && StalePass(graph, graph.observers[job.node], old(nodes), nodes, old(updates.value), updates.value,
                             old(effects.value), effects.value)
      decreases gas, 4
    {
      match job
      case MarkFrom(n) =>
        MarkObservers(n);
        ok := true;
      case RunList(q) =>
        ok := RunQueue(q, gas);
    }

    /** completeUpdates (test/bench/queue.ts:288-297): the Updates queue is
        run and dropped; unless the batch is nested in one that owns the
        Effects queue, that queue is taken and, if not empty, run in a
        batch of its own. */
    method CompleteUpdates(wait: bool, gas: nat) returns (ok: bool)
      requires Valid() && updates.Some?
      modifies this`nodes, this`graph, this`listener, this`currentOwner, this`updates, this`effects, this`execCount, this`writes
      ensures Valid() && SameKind(old(nodes), nodes) && listener == old(listener) && currentOwner == old(currentOwner)
      ensures updates.None? && (wait ==> Extends(old(effects), effects)) && (!wait ==> effects.None?)
      ensures Logged(old(nodes), old(writes), nodes, writes)
      decreases gas, 4
    {
      ok := RunQueueLive(gas);
      ghost var ns1, w1 := nodes, writes;
      GlobalsKeepGood(nodes, graph, listener, currentOwner, updates, effects, listener, currentOwner, None, effects);
      updates := None;
      if wait {
        return;
      }
      var e := effects;
      GlobalsKeepGood(nodes, graph, listener, currentOwner, updates, effects, listener, currentOwner, None, None);
      effects := None;
      if ok && e.Some? && |e.value| > 0 {
        if gas == 0 {
          return false;
        }
        ok := RunUpdates(RunList(e.value), gas - 1);
        LoggedTrans(old(nodes), old(writes), ns1, w1, nodes, writes);
      }
    }

    /** runQueue(Updates) as completeUpdates calls it
        (test/bench/queue.ts:290, 299-301): the loop reads the live queue,
        which the computations it runs may extend. */
    method RunQueueLive(gas: nat) returns (ok: bool)
      requires Valid() && updates.Some?
      modifies this`nodes, this`graph, this`listener, this`currentOwner, this`updates, this`effects, this`execCount, this`writes
      ensures Valid() && Kept(old(nodes), old(Globals()), nodes, Globals()) && updates.Some?
      decreases gas, 3
    {
      var i, fuel := 0, gas;
      ok := true;
      while i < |updates.value|
        invariant Valid() && updates.Some? && Kept(old(nodes), old(Globals()), nodes, Globals())
        decreases fuel
      {
        if fuel == 0 {
          return false;
        }
        ghost var ns1, e1 := nodes, Globals();
        ok := RunTop(updates.value[i], gas);
        KeptTrans(old(nodes), old(Globals()), ns1, e1, nodes, Globals());
        if !ok {
          return;
        }
        i, fuel := i + 1, fuel - 1;
      }
    }

    /** runQueue on a queue taken out of the globals
        (test/bench/queue.ts:299-301). */
    method RunQueue(q: seq<NodeId>, gas: nat) returns (ok: bool)
      requires Valid() && forall i :: 0 <= i < |q| ==> q[i] < |nodes|
      modifies this`nodes, this`graph, this`listener, this`currentOwner, this`updates, this`effects, this`execCount, this`writes
      ensures Valid() && Kept(old(nodes), old(Globals()), nodes, Globals())
      decreases gas, 3
    {
      ok := true;
      for i := 0 to |q|
        invariant Valid() && |nodes| == old(|nodes|) && Kept(old(nodes), old(Globals()), nodes, Globals())
      {
        ghost var ns1, e1 := nodes, Globals();
        ok := RunTop(q[i], gas);
        KeptTrans(old(nodes), old(Globals()), ns1, e1, nodes, Globals());
        if !ok {
          return;
        }
      }
    }

    /** runTop (test/bench/queue.ts:241-264): a clean node is left alone
        and a Pending one looked upstream of; for a Stale one, the chain of
        its owners not yet updated in this ExecCount is collected (those
        not clean), and from the outermost inwards each Stale one is
        updated and each Pending one looked upstream of, with Updates set
        aside. */
    method RunTop(node: NodeId, gas: nat) returns (ok: bool)
      requires Valid() && node < |nodes|
      modifies this`nodes, this`graph, this`listener, this`currentOwner, this`updates, this`effects, this`execCount, this`writes
      ensures Valid() && Kept(old(nodes), old(Globals()), nodes, Globals())
      ensures old(nodes[node].state) == 0 ==>
                ok && nodes == old(nodes) && graph == old(graph) && Globals() == old(Globals()) && execCount == old(execCount)
      decreases gas, 2
    {
      if nodes[node].state == 0 {
        return true;
      }
      if nodes[node].state == PENDING {
        ok := LookUpstream(node, gas);
        return;
      }
      var ancestors := Ancestors(node);
      var i := |ancestors|;
      ok := true;
      while i > 0
        invariant Valid() && i <= |ancestors| && Kept(old(nodes), old(Globals()), nodes, Globals())
        invariant forall j :: 0 <= j < |ancestors| ==> ancestors[j] < old(|nodes|)
      {
        i := i - 1;
        ghost var ns1, e1 := nodes, Globals();
        ok := Refresh(ancestors[i], gas);
        KeptTrans(old(nodes), old(Globals()), ns1, e1, nodes, Globals());
        if !ok {
          return;
        }
      }
    }

    /** The first loop of runTop (test/bench/queue.ts:246-251): node
        itself, then, walking the owner chain outwards while the owner has
        not been updated in this ExecCount (updatedAt unset, zero or
        smaller), each owner that is not clean: node followed by Upward,
        which SolidState.UpwardExact characterises. */
    method Ancestors(node: NodeId) returns (ancestors: seq<NodeId>)
      requires Valid() && node < |nodes|
      ensures ancestors == [node] + Upward(nodes, nodes[node].owner, execCount)
      ensures forall j :: 0 <= j < |ancestors| ==> ancestors[j] < |nodes|
      ensures forall j :: 0 < j < |ancestors| ==>
                OpenChain(nodes, node, ancestors[j], execCount) && nodes[ancestors[j]].state != 0
      ensures forall j :: 0 < j < |ancestors| ==> ancestors[j] < ancestors[j - 1]
    {
      ancestors := [node];
      var current: Option<NodeId> := nodes[node].owner;
      while current.Some? && Unsettled(nodes[current.value], execCount)
        invariant current.Some? ==> current.value < |nodes|
        invariant ancestors + Upward(nodes, current, execCount) == [node] + Upward(nodes, nodes[node].owner, execCount)
        decreases if current.Some? then current.value + 1 else 0
      {
        var c := current.value;
        if nodes[c].state != 0 {
          ancestors := ancestors + [c];
        }
        current := nodes[c].owner;
      }
      UpwardIndexed(nodes, node, execCount, ancestors);
    }

    /** The second loop's body in runTop (test/bench/queue.ts:253-262): a
        Stale node is updated, and a Pending one looked upstream of with
        Updates set aside. */
    method Refresh(a: NodeId, gas: nat) returns (ok: bool)
      requires Valid() && a < |nodes|
      modifies this`nodes, this`graph, this`listener, this`currentOwner, this`updates, this`effects, this`execCount, this`writes
      ensures Valid() && Kept(old(nodes), old(Globals()), nodes, Globals())
      ensures old(nodes[a].state) == 0 ==>
                ok && nodes == old(nodes) && graph == old(graph) && Globals() == old(Globals()) && execCount == old(execCount)
      decreases gas, 1
    {
      ok := true;
      if nodes[a].state == STALE {
        if gas == 0 {
          return false;
        }
        ok := UpdateComputation(a, gas - 1);
      } else if nodes[a].state == PENDING {
        var saved := updates;
        GlobalsKeepGood(nodes, graph, listener, currentOwner, updates, effects, listener, currentOwner, None, effects);
        updates := None;
        ok := LookUpstream(a, gas);
        GlobalsKeepGood(nodes, graph, listener, currentOwner, updates, effects, listener, currentOwner, saved, effects);
        updates := saved;
        KeptAside(old(nodes), old(Globals()), nodes, Globals());
      }
    }

    /** lookUpstream (test/bench/queue.ts:303-315): the node becomes clean
        first; then each computation among its sources (read live) that is
        Stale is run from the top and each that is Pending looked upstream
        of.  When no source needs it, the node only becomes clean. */
    method LookUpstream(node: NodeId, gas: nat) returns (ok: bool)
      requires Valid() && node < |nodes|
      modifies this`nodes, this`graph, this`listener, this`currentOwner, this`updates, this`effects, this`execCount, this`writes
      ensures Valid() && Kept(old(nodes), old(Globals()), nodes, Globals())
      ensures Quiet(SetState(old(nodes), node, 0), old(graph.sources[node])) ==>
                && ok && nodes == SetState(old(nodes), node, 0)
                && graph == old(graph) && Globals() == old(Globals()) && execCount == old(execCount)
      decreases gas, 0
    {
      ShapeKeepsGood(nodes, graph, listener, currentOwner, updates, effects, SetState(nodes, node, 0));
      nodes := SetState(nodes, node, 0);
      ghost var ns1 := nodes;
      assert Kept(old(nodes), old(Globals()), ns1, Globals());
      var i, fuel := 0, gas;
      ok := true;
      while i < |graph.sources[node]|
        invariant Valid() && Kept(old(nodes), old(Globals()), nodes, Globals())
        invariant Quiet(ns1, old(graph.sources[node])) ==>
                    nodes == ns1 && graph == old(graph) && Globals() == old(Globals()) && execCount == old(execCount)
        decreases fuel, |graph.sources[node]| - i
      {
        var source := graph.sources[node][i];
        if nodes[source].fn.Some? && (nodes[source].state == STALE || nodes[source].state == PENDING) {
          if fuel == 0 || gas == 0 {
            return false;
          }
          ghost var ns2, e2 := nodes, Globals();
          if nodes[source].state == STALE {
            ok := RunTop(source, gas - 1);
          } else {
            ok := LookUpstream(source, gas - 1);
          }
          KeptTrans(old(nodes), old(Globals()), ns2, e2, nodes, Globals());
          fuel := fuel - 1;
          if !ok {
            return;
          }
        }
        i := i + 1;
      }
    }

    /** The setter createSignal returns (test/bench/queue.ts:96-101): a
        function argument is first applied to the current value, and the
        result written with writeSignal, which returns it. */
    method SetSignal(n: NodeId, arg: SetArg, gas: nat) returns (r: Value, ok: bool)
      requires Valid() && n < |nodes|
      modifies this`nodes, this`graph, this`listener, this`currentOwner, this`updates, this`effects, this`execCount, this`writes
      ensures Valid() && r == Apply(arg, old(nodes[n].value)) && |nodes| == old(|nodes|)
      ensures Kept(old(nodes)[n := old(nodes[n]).(value := nodes[n].value)], old(Globals()), nodes, Globals())
      ensures old(nodes[n].fn).None? && !(old(nodes[n].comparator).Some? && Same(old(nodes[n].comparator.value), old(nodes[n].value), r)) ==>
                nodes[n].value == r
      ensures old(nodes[n].comparator).Some? && Same(old(nodes[n].comparator.value), old(nodes[n].value), r) ==>
                ok && nodes == old(nodes) && graph == old(graph) && Globals() == old(Globals()) && execCount == old(execCount)
      ensures !(old(nodes[n].comparator).Some? && Same(old(nodes[n].comparator.value), old(nodes[n].value), r)) &&
              old(graph.observers[n]) == [] ==>
                && ok && nodes == old(nodes)[n := old(nodes[n]).(value := r)]
                && graph == old(graph) && Globals() == old(Globals()) && execCount == old(execCount)
    {
      r, ok := WriteSignal(n, Apply(arg, nodes[n].value), gas);
    }

    /** untrack (test/bench/queue.ts:128-135): fn runs with no Listener, so
        its reads subscribe nothing, and Listener is restored after; the
        values read are those of the nodes on path, as RunFn states. */
    method Untrack(f: Fn, gas: nat)
      returns (v: Value, ok: bool, ghost vals: seq<Value>, ghost path: seq<NodeId>, ghost at: seq<nat>)
      requires Valid() && EngineState.FnBelow(f, |nodes|)
      modifies this`nodes, this`graph, this`listener, this`currentOwner, this`updates, this`effects, this`execCount, this`writes
      ensures Valid() && Kept(old(nodes), old(Globals()), nodes, Globals())
      ensures ok ==> EngineState.Run(f, vals) == Some(v)
      ensures path == EngineState.ReadsOf(f, vals) && ReadsCurrent(old(|writes|), writes, nodes, path, at, vals)
    {
      var prev := listener;
      GlobalsKeepGood(nodes, graph, listener, currentOwner, updates, effects, None, currentOwner, updates, effects);
      listener := None;
      ghost var ns1 := nodes;
      v, ok, vals, path, at := RunFn(f, [], gas);
      GlobalsKeepGood(nodes, graph, listener, currentOwner, updates, effects, prev, currentOwner, updates, effects);
      listener := prev;
      KeptInside(old(nodes), old(Globals()), ns1, nodes, Globals(), None, currentOwner);
    }

    /** createComputed (test/bench/queue.ts:103-105): a pure computation,
        created Stale, is run at once. */
    method CreateComputed(f: Fn, init: Value, gas: nat) returns (c: NodeId, ok: bool)
      requires Valid() && EngineState.FnBelow(f, |nodes| + 1)
      modifies this`nodes, this`graph, this`listener, this`currentOwner, this`updates, this`effects, this`execCount, this`writes
      ensures Valid() && c == old(|nodes|) && |nodes| == c + 1
      ensures nodes[c].fn == Some(f) && nodes[c].pure && nodes[c].comparator.None? && nodes[c].owner == old(currentOwner)
      ensures forall x :: 0 <= x < c ==> nodes[x].fn == old(nodes[x].fn)
      ensures listener == old(listener) && currentOwner == old(currentOwner)
    {
      c := CreateComputation(f, init, true, STALE);
      ghost var ns1 := nodes;
      ok := UpdateComputation(c, gas);
      assert SameKind(ns1, nodes);
    }

    /** createMemo (test/bench/queue.ts:107-121): a pure computation,
        created clean, that other computations can observe: its comparator
        is set from the options before it is run once. */
    method CreateMemo(f: Fn, init: Value, equals: Option<Equals>, gas: nat) returns (c: NodeId, ok: bool)
      requires Valid() && EngineState.FnBelow(f, |nodes| + 1)
      modifies this`nodes, this`graph, this`listener, this`currentOwner, this`updates, this`effects, this`execCount, this`writes
      ensures Valid() && c == old(|nodes|) && |nodes| == c + 1
      ensures nodes[c].fn == Some(f) && nodes[c].pure && nodes[c].comparator == equals && nodes[c].owner == old(currentOwner)
      ensures forall x :: 0 <= x < c ==> nodes[x].fn == old(nodes[x].fn)
      ensures listener == old(listener) && currentOwner == old(currentOwner)
    {
      c := CreateComputation(f, init, true, 0);
      ShapeKeepsGood(nodes, graph, listener, currentOwner, updates, effects, nodes[c := nodes[c].(comparator := equals)]);
      nodes := nodes[c := nodes[c].(comparator := equals)];
      ghost var ns1 := nodes;
      ok := UpdateComputation(c, gas);
      assert SameKind(ns1, nodes);
    }
  }
}
