/** The node records and globals of the Solid-style baseline
    (test/bench/queue.ts) seen as values: the states a computation can be
    in, comparators, the invariant of the runtime, and what a marking pass
    may do to the states and the two queues. */
module SolidState {
  import opened Common
  import opened SolidGraph
  import EngineState

  /** A node's value and a computation's fn are those of the engine model. */
  type Value = EngineState.Value
  type Fn = EngineState.Fn

  /** `state` of a computation: 0 is clean (test/bench/queue.ts:7-8). */
  const STALE: nat := 1
  const PENDING: nat := 2

  /** A node's `comparator`: the default `===`, or one supplied as the
      `equals` option (test/bench/queue.ts:1-4, 93). */
  datatype Equals = Strict | Custom(same: (Value, Value) -> bool)

  function Same(cmp: Equals, a: Value, b: Value): bool
  {
    match cmp
    case Strict => a == b
    case Custom(same) => same(a, b)
  }

  /** The argument of a signal's setter: a plain value, or a function of
      the current value (test/bench/queue.ts:97-100). */
  datatype SetArg = Plain(v: Value) | Update(f: Value -> Value)

  /** What the setter writes (test/bench/queue.ts:98-101): a function
      argument is applied to the current value first. */
  function Apply(arg: SetArg, current: Value): (v: Value)
    ensures arg.Plain? ==> v == arg.v
    ensures arg.Update? ==> v == arg.f(current)
  {
    match arg
    case Plain(x) => x
    case Update(f) => f(current)
  }

  /** The job a runUpdates call runs (test/bench/queue.ts:266): the marking
      pass of writeSignal for a node, or a queue of effects. */
  datatype Job = MarkFrom(node: NodeId) | RunList(queue: seq<NodeId>)

  /** A node of the baseline: a signal (no `fn`) or a computation.  The
      fields are those of the Signal and Computation records
      (test/bench/queue.ts:30-54) except the four adjacency arrays, which
      are kept for all nodes together in a Graph.  A signal's `state` and
      `updatedAt` are undefined in the source, i.e. 0 and None here. */
  datatype Node = Node(
    fn: Option<Fn>,
    pure: bool,
    comparator: Option<Equals>,
    value: Value,
    state: nat,
    updatedAt: Option<nat>,
    owner: Option<NodeId>,
    owned: Option<seq<NodeId>>)

  /** The record createSignal builds (test/bench/queue.ts:89-94). */
  function NewSignal(v: Value, equals: Option<Equals>): (n: Node)
    ensures n.fn.None? && n.value == v && n.comparator == equals && n.state == 0 && n.owned.None?
  {
    Node(None, false, equals, v, 0, None, None, None)
  }

  /** The record createComputation builds (test/bench/queue.ts:217-231). */
  function NewComputation(f: Fn, init: Value, isPure: bool, st: nat, owner: Option<NodeId>): (n: Node)
    ensures n.fn == Some(f) && n.value == init && n.pure == isPure && n.state == st
    ensures n.updatedAt.None? && n.owner == owner && n.owned.None? && n.comparator.None?
  {
    Node(Some(f), isPure, None, init, st, None, owner, None)
  }

  /** The owner tree: a computation's owner was created before it, and each
      owned list holds later nodes. */
  ghost predicate OwnersOk(ns: seq<Node>)
  {
    && (forall c :: 0 <= c < |ns| && ns[c].owner.Some? ==> ns[c].owner.value < c)
    && (forall p :: 0 <= p < |ns| && ns[p].owned.Some? ==>
          forall i :: 0 <= i < |ns[p].owned.value| ==> p < ns[p].owned.value[i] < |ns|)
  }

  /** The test of runTop's owner walk (test/bench/queue.ts:247-248): the
      owner has not been updated in this ExecCount. */
  predicate Unsettled(n: Node, exec: nat)
  {
    n.updatedAt.None? || n.updatedAt.value == 0 || n.updatedAt.value < exec
  }

  /** a lies on n's owner chain, one or more owner steps out, and every
      owner from n's own up to a is Unsettled. */
  ghost predicate OpenChain(ns: seq<Node>, n: NodeId, a: NodeId, exec: nat)
    requires OwnersOk(ns) && n < |ns|
    decreases n
  {
    && ns[n].owner.Some?
    && var o := ns[n].owner.value;
       Unsettled(ns[o], exec) && (o == a || OpenChain(ns, o, a, exec))
  }

  /** The owners runTop's walk collects from cur outwards: each Unsettled
      one that is not clean, up to the first settled owner or the root. */
  function Upward(ns: seq<Node>, cur: Option<NodeId>, exec: nat): seq<NodeId>
    requires OwnersOk(ns) && (cur.Some? ==> cur.value < |ns|)
    decreases if cur.Some? then cur.value + 1 else 0
  {
    if cur.None? || !Unsettled(ns[cur.value], exec) then []
    else (if ns[cur.value].state != 0 then [cur.value] else []) + Upward(ns, ns[cur.value].owner, exec)
  }

  /** The walk from n's owner collects exactly the open owners of n that
      are not clean, each older than the one before. */
  lemma {:induction false} UpwardExact(ns: seq<Node>, n: NodeId, exec: nat)
    requires OwnersOk(ns) && n < |ns|
    ensures var U := Upward(ns, ns[n].owner, exec);
            && (forall a: NodeId :: a in U <==> a < |ns| && OpenChain(ns, n, a, exec) && ns[a].state != 0)
            && (forall j :: 0 <= j < |U| ==> U[j] < n)
            && (forall j :: 0 < j < |U| ==> U[j] < U[j - 1])
    decreases n
  {
    var cur := ns[n].owner;
    if cur.Some? && Unsettled(ns[cur.value], exec) {
      var o := cur.value;
      UpwardExact(ns, o, exec);
      var R := Upward(ns, ns[o].owner, exec);
      var U := Upward(ns, cur, exec);
      assert U == (if ns[o].state != 0 then [o] else []) + R;
      forall a: NodeId
        ensures a in U <==> a < |ns| && OpenChain(ns, n, a, exec) && ns[a].state != 0
      {
        assert OpenChain(ns, n, a, exec) <==> (o == a || OpenChain(ns, o, a, exec));
      }
    }
  }

  /** The node followed by Upward of its owner, index by index. */
  lemma UpwardIndexed(ns: seq<Node>, n: NodeId, exec: nat, A: seq<NodeId>)
    requires OwnersOk(ns) && n < |ns| && A == [n] + Upward(ns, ns[n].owner, exec)
    ensures forall j :: 0 <= j < |A| ==> A[j] < |ns|
    ensures forall j :: 0 < j < |A| ==> OpenChain(ns, n, A[j], exec) && ns[A[j]].state != 0
    ensures forall j :: 0 < j < |A| ==> A[j] < A[j - 1]
  {
    UpwardExact(ns, n, exec);
    var U := Upward(ns, ns[n].owner, exec);
    forall j | 0 < j < |A|
      ensures A[j] == U[j - 1] && A[j] in U
    {
    }
  }

  /** Ids held in a queue are nodes. */
  ghost predicate QueueOk(q: Option<seq<NodeId>>, N: nat)
  {
    q.Some? ==> forall i :: 0 <= i < |q.value| ==> q.value[i] < N
  }

  /** Only computations have sources (a signal has no `sources` array). */
  ghost predicate SignalsUnread(ns: seq<Node>, g: Graph)
    requires |g.sources| == |ns|
  {
    forall c :: 0 <= c < |ns| && ns[c].fn.None? ==> g.sources[c] == []
  }

  /** Every fn reads nodes. */
  ghost predicate FnsOk(ns: seq<Node>)
  {
    forall c :: 0 <= c < |ns| && ns[c].fn.Some? ==> EngineState.FnBelow(ns[c].fn.value, |ns|)
  }

  /** The Listener is a computation, the Owner a node, queued ids are
      nodes, and within a batch both queues exist. */
  ghost predicate GlobalsOk(ns: seq<Node>, listener: Option<NodeId>, currentOwner: Option<NodeId>,
                            updates: Option<seq<NodeId>>, effects: Option<seq<NodeId>>)
  {
    && (listener.Some? ==> listener.value < |ns| && ns[listener.value].fn.Some?)
    && (currentOwner.Some? ==> currentOwner.value < |ns|)
    && QueueOk(updates, |ns|) && QueueOk(effects, |ns|)
    && (updates.Some? ==> effects.Some?)
  }

  /** The invariant of the runtime: the slots cross-reference, only
      computations have sources, a fn reads nodes, the owner tree is
      ordered by creation, the Listener is a computation, and within a
      batch both queues exist. */
  ghost predicate Good(ns: seq<Node>, g: Graph, listener: Option<NodeId>, currentOwner: Option<NodeId>,
                       updates: Option<seq<NodeId>>, effects: Option<seq<NodeId>>)
  {
    && SlotsOk(g, |ns|) && SignalsUnread(ns, g) && FnsOk(ns) && OwnersOk(ns)
    && GlobalsOk(ns, listener, currentOwner, updates, effects)
  }

  /** The owned list of the Owner p gains the new computation c
      (test/bench/queue.ts:232-237); without an Owner nothing changes. */
  function Adopt(ns: seq<Node>, p: Option<NodeId>, c: NodeId): (r: seq<Node>)
    requires p.Some? ==> p.value < |ns|
    ensures |r| == |ns|
    ensures p.Some? ==> r[p.value].owned.Some? && c in r[p.value].owned.value
    ensures p.Some? ==> r[p.value] == ns[p.value].(owned := r[p.value].owned)
    ensures forall x :: 0 <= x < |ns| && (p.None? || x != p.value) ==> r[x] == ns[x]
  {
    if p.None? then ns
    else
      var o := ns[p.value];
      ns[p.value := o.(owned := Some(if o.owned.None? then [c] else o.owned.value + [c]))]
  }

  /** Appending a node without edges or owned list, owned by an earlier
      node, keeps the invariant. */
  lemma AddKeepsGood(ns: seq<Node>, g: Graph, listener: Option<NodeId>, currentOwner: Option<NodeId>,
                     updates: Option<seq<NodeId>>, effects: Option<seq<NodeId>>, n: Node)
    requires Good(ns, g, listener, currentOwner, updates, effects)
    requires n.fn.Some? ==> EngineState.FnBelow(n.fn.value, |ns| + 1)
    requires n.owner.Some? ==> n.owner.value < |ns|
    requires n.owned.None?
    ensures Good(ns + [n], AddNode(g), listener, currentOwner, updates, effects)
  {
    AddNodeKeepsSlots(g, |ns|);
    AddKeepsFns(ns, n);
    AddKeepsUnread(ns, g, n);
    AddKeepsOwners(ns, n);
    AddKeepsGlobals(ns, listener, currentOwner, updates, effects, n);
  }

  lemma AddKeepsFns(ns: seq<Node>, n: Node)
    requires FnsOk(ns) && (n.fn.Some? ==> EngineState.FnBelow(n.fn.value, |ns| + 1))
    ensures FnsOk(ns + [n])
  {
    var N := |ns|;
    var ns' := ns + [n];
    forall m | 0 <= m < N + 1 && ns'[m].fn.Some? ensures EngineState.FnBelow(ns'[m].fn.value, N + 1) {
      if m < N {
        EngineState.FnBelowGrows(ns[m].fn.value, N, N + 1);
      }
    }
  }

  lemma AddKeepsUnread(ns: seq<Node>, g: Graph, n: Node)
    requires |g.sources| == |ns| && SignalsUnread(ns, g)
    ensures |AddNode(g).sources| == |ns + [n]| && SignalsUnread(ns + [n], AddNode(g))
  {
    var ns' := ns + [n];
    forall c | 0 <= c < |ns'| && ns'[c].fn.None? ensures AddNode(g).sources[c] == [] {
      if c < |ns| {
        assert ns'[c] == ns[c];
      }
    }
  }

  lemma AddKeepsOwners(ns: seq<Node>, n: Node)
    requires OwnersOk(ns) && (n.owner.Some? ==> n.owner.value < |ns|) && n.owned.None?
    ensures OwnersOk(ns + [n])
  {
    var ns' := ns + [n];
    forall p | 0 <= p < |ns'| && ns'[p].owned.Some?
      ensures forall i :: 0 <= i < |ns'[p].owned.value| ==> p < ns'[p].owned.value[i] < |ns'|
    {
      assert ns'[p] == ns[p];
    }
    assert forall c :: 0 <= c < |ns'| && ns'[c].owner.Some? ==> ns'[c].owner.value < c;
  }

  lemma AddKeepsGlobals(ns: seq<Node>, listener: Option<NodeId>, currentOwner: Option<NodeId>,
                        updates: Option<seq<NodeId>>, effects: Option<seq<NodeId>>, n: Node)
    requires GlobalsOk(ns, listener, currentOwner, updates, effects)
    ensures GlobalsOk(ns + [n], listener, currentOwner, updates, effects)
  {
    if listener.Some? {
      assert (ns + [n])[listener.value] == ns[listener.value];
    }
    GrowQueue(updates, |ns|);
    GrowQueue(effects, |ns|);
  }

  /** Adopting the last node c into the owned list of an earlier node
      keeps the invariant. */
  lemma AdoptKeepsGood(ns: seq<Node>, g: Graph, listener: Option<NodeId>, currentOwner: Option<NodeId>,
                       updates: Option<seq<NodeId>>, effects: Option<seq<NodeId>>, p: Option<NodeId>)
    requires Good(ns, g, listener, currentOwner, updates, effects)
    requires |ns| > 0 && (p.Some? ==> p.value < |ns| - 1)
    ensures Good(Adopt(ns, p, |ns| - 1), g, listener, currentOwner, updates, effects)
  {
    var r := Adopt(ns, p, |ns| - 1);
    AdoptKeepsOwners(ns, p);
    ShapeKeepsFns(ns, r);
    ShapeKeepsUnread(ns, g, r);
    ShapeKeepsGlobals(ns, listener, currentOwner, updates, effects, r);
  }

  lemma AdoptKeepsOwners(ns: seq<Node>, p: Option<NodeId>)
    requires OwnersOk(ns) && |ns| > 0 && (p.Some? ==> p.value < |ns| - 1)
    ensures OwnersOk(Adopt(ns, p, |ns| - 1))
  {
    var r := Adopt(ns, p, |ns| - 1);
    if p.Some? {
      var q := p.value;
      forall x | 0 <= x < |r| && r[x].owned.Some?
        ensures forall i :: 0 <= i < |r[x].owned.value| ==> x < r[x].owned.value[i] < |r|
      {
        if x == q {
          var cs := r[q].owned.value;
          forall i | 0 <= i < |cs| ensures q < cs[i] < |r| {
            if ns[q].owned.Some? && i < |ns[q].owned.value| {
              assert cs[i] == ns[q].owned.value[i];
            }
          }
        }
      }
      assert forall c :: 0 <= c < |r| && r[c].owner.Some? ==> r[c].owner.value < c;
    }
  }

  /** Appending a computation owned by the current Owner, and adopting
      it, keeps the invariant. */
  lemma CreateKeepsGood(ns: seq<Node>, g: Graph, listener: Option<NodeId>, currentOwner: Option<NodeId>,
                        updates: Option<seq<NodeId>>, effects: Option<seq<NodeId>>, n: Node)
    requires Good(ns, g, listener, currentOwner, updates, effects)
    requires n.fn.Some? ==> EngineState.FnBelow(n.fn.value, |ns| + 1)
    requires n.owner == currentOwner && n.owned.None?
    ensures Good(Adopt(ns + [n], currentOwner, |ns|), AddNode(g), listener, currentOwner, updates, effects)
  {
    var ns1, g1 := ns + [n], AddNode(g);
    AddKeepsGood(ns, g, listener, currentOwner, updates, effects, n);
    assert |ns1| - 1 == |ns|;
    AdoptKeepsGood(ns1, g1, listener, currentOwner, updates, effects, currentOwner);
  }

  /** Nodes that keep their fn: only other fields changed. */
  ghost predicate SameFns(ns0: seq<Node>, ns1: seq<Node>)
  {
    |ns1| == |ns0| && forall x :: 0 <= x < |ns0| ==> ns1[x].fn == ns0[x].fn
  }

  /** Nodes that keep what they are (fn, pure flag, comparator and owner):
      only values, states, timestamps and owned lists changed. */
  ghost predicate SameKind(ns0: seq<Node>, ns1: seq<Node>)
  {
    && |ns1| == |ns0|
    && forall x :: 0 <= x < |ns0| ==>
         && ns1[x].fn == ns0[x].fn && ns1[x].pure == ns0[x].pure
         && ns1[x].comparator == ns0[x].comparator && ns1[x].owner == ns0[x].owner
  }

  lemma ShapeKeepsFns(ns: seq<Node>, ns': seq<Node>)
    requires FnsOk(ns) && SameFns(ns, ns')
    ensures FnsOk(ns')
  {
    forall x | 0 <= x < |ns'| && ns'[x].fn.Some? ensures EngineState.FnBelow(ns'[x].fn.value, |ns'|) {
      assert ns'[x].fn == ns[x].fn;
    }
  }

  lemma ShapeKeepsUnread(ns: seq<Node>, g: Graph, ns': seq<Node>)
    requires |g.sources| == |ns| && SignalsUnread(ns, g) && SameFns(ns, ns')
    ensures SignalsUnread(ns', g)
  {
    forall x | 0 <= x < |ns'| && ns'[x].fn.None? ensures g.sources[x] == [] {
      assert ns'[x].fn == ns[x].fn;
    }
  }

  lemma ShapeKeepsGlobals(ns: seq<Node>, listener: Option<NodeId>, currentOwner: Option<NodeId>,
                          updates: Option<seq<NodeId>>, effects: Option<seq<NodeId>>, ns': seq<Node>)
    requires GlobalsOk(ns, listener, currentOwner, updates, effects) && SameFns(ns, ns')
    ensures GlobalsOk(ns', listener, currentOwner, updates, effects)
  {
    if listener.Some? {
      assert ns'[listener.value].fn == ns[listener.value].fn;
    }
  }

  lemma PushQueue(q: Option<seq<NodeId>>, N: nat, o: NodeId)
    requires QueueOk(q, N) && q.Some? && o < N
    ensures QueueOk(Some(q.value + [o]), N)
  {
    assert forall i :: 0 <= i < |q.value| ==> (q.value + [o])[i] == q.value[i];
  }

  lemma GrowQueue(q: Option<seq<NodeId>>, N: nat)
    requires QueueOk(q, N)
    ensures QueueOk(q, N + 1)
  {
  }

  /** Nodes that keep their fn, owner and owned list: only their value,
      state, comparator or updatedAt changed. */
  ghost predicate SameShape(ns0: seq<Node>, ns1: seq<Node>)
  {
    |ns1| == |ns0| && forall x :: 0 <= x < |ns0| ==>
      ns1[x].fn == ns0[x].fn && ns1[x].owner == ns0[x].owner && ns1[x].owned == ns0[x].owned
  }

  /** Changing values, states, comparators or times keeps the invariant. */
  lemma ShapeKeepsGood(ns: seq<Node>, g: Graph, listener: Option<NodeId>, currentOwner: Option<NodeId>,
                       updates: Option<seq<NodeId>>, effects: Option<seq<NodeId>>, ns': seq<Node>)
    requires Good(ns, g, listener, currentOwner, updates, effects) && SameShape(ns, ns')
    ensures Good(ns', g, listener, currentOwner, updates, effects)
  {
    ShapeKeepsFns(ns, ns');
    ShapeKeepsUnread(ns, g, ns');
    ShapeKeepsGlobals(ns, listener, currentOwner, updates, effects, ns');
    assert OwnersOk(ns') by {
      forall p | 0 <= p < |ns'| && ns'[p].owned.Some?
        ensures forall i :: 0 <= i < |ns'[p].owned.value| ==> p < ns'[p].owned.value[i] < |ns'|
      {
        assert ns'[p].owned == ns[p].owned;
      }
      assert forall c :: 0 <= c < |ns'| && ns'[c].owner.Some? ==> ns'[c].owner.value < c;
    }
  }

  /** Changing the globals keeps the invariant when they are well formed. */
  lemma GlobalsKeepGood(ns: seq<Node>, g: Graph, listener: Option<NodeId>, currentOwner: Option<NodeId>,
                        updates: Option<seq<NodeId>>, effects: Option<seq<NodeId>>,
                        listener': Option<NodeId>, currentOwner': Option<NodeId>,
                        updates': Option<seq<NodeId>>, effects': Option<seq<NodeId>>)
    requires Good(ns, g, listener, currentOwner, updates, effects)
    requires GlobalsOk(ns, listener', currentOwner', updates', effects')
    ensures Good(ns, g, listener', currentOwner', updates', effects')
  {
  }

  /** readSignal's tracking keeps the invariant. */
  lemma TrackKeepsGood(ns: seq<Node>, g: Graph, listener: Option<NodeId>, currentOwner: Option<NodeId>,
                       updates: Option<seq<NodeId>>, effects: Option<seq<NodeId>>, c: NodeId, n: NodeId)
    requires Good(ns, g, listener, currentOwner, updates, effects)
    requires listener == Some(c) && n < |ns|
    ensures c < |ns| && n < |ns| && |g.observers| == |ns| && |g.sources| == |ns|
    ensures Good(ns, Track(g, c, n), listener, currentOwner, updates, effects)
  {
    TrackKeepsSlots(g, |ns|, c, n);
  }

  /** One turn of cleanNode's loop keeps the invariant. */
  lemma PopKeepsGood(ns: seq<Node>, g: Graph, listener: Option<NodeId>, currentOwner: Option<NodeId>,
                     updates: Option<seq<NodeId>>, effects: Option<seq<NodeId>>, node: NodeId)
    requires Good(ns, g, listener, currentOwner, updates, effects)
    requires node < |ns| && |g.sources[node]| > 0
    ensures Good(ns, PopSource(g, |ns|, node), listener, currentOwner, updates, effects)
  {
    PopSourceKeepsSlots(g, |ns|, node);
  }

  /** Dropping an owned list keeps the invariant. */
  lemma DisownKeepsGood(ns: seq<Node>, g: Graph, listener: Option<NodeId>, currentOwner: Option<NodeId>,
                        updates: Option<seq<NodeId>>, effects: Option<seq<NodeId>>, node: NodeId)
    requires Good(ns, g, listener, currentOwner, updates, effects) && node < |ns|
    ensures Good(ns[node := ns[node].(owned := None)], g, listener, currentOwner, updates, effects)
  {
    var r := ns[node := ns[node].(owned := None)];
    ShapeKeepsFns(ns, r);
    ShapeKeepsUnread(ns, g, r);
    ShapeKeepsGlobals(ns, listener, currentOwner, updates, effects, r);
    assert OwnersOk(r) by {
      forall p | 0 <= p < |r| && r[p].owned.Some?
        ensures forall i :: 0 <= i < |r[p].owned.value| ==> p < r[p].owned.value[i] < |r|
      {
        assert r[p].owned == ns[p].owned;
      }
      assert forall c :: 0 <= c < |r| && r[c].owner.Some? ==> r[c].owner.value < c;
    }
  }

  /** A queue that existed still exists and has only grown, and one that
      did not still does not. */
  ghost predicate Extends(q0: Option<seq<NodeId>>, q1: Option<seq<NodeId>>)
  {
    (q0.None? ==> q1.None?) && (q0.Some? ==> q1.Some? && q0.value <= q1.value)
  }

  lemma ExtendsTrans(a: Option<seq<NodeId>>, b: Option<seq<NodeId>>, c: Option<seq<NodeId>>)
    requires Extends(a, b) && Extends(b, c)
    ensures Extends(a, c)
  {
  }

  /** Node o with its state set to v. */
  function SetState(ns: seq<Node>, o: NodeId, v: nat): (r: seq<Node>)
    requires o < |ns|
    ensures |r| == |ns| && r[o].state == v
    ensures forall x :: 0 <= x < |ns| ==> r[x] == ns[x].(state := r[x].state)
    ensures forall x :: 0 <= x < |ns| && x != o ==> r[x] == ns[x]
  {
    ns[o := ns[o].(state := v)]
  }

  /** The number of clean nodes; a marking pass only lowers it. */
  function CountClean(ns: seq<Node>): (r: nat)
    ensures r <= |ns|
  {
    if ns == [] then 0 else CountClean(ns[..|ns| - 1]) + (if ns[|ns| - 1].state == 0 then 1 else 0)
  }

  /** A node that is not clean stays not clean. */
  ghost predicate Mono(ns0: seq<Node>, ns1: seq<Node>)
  {
    |ns1| == |ns0| && forall x :: 0 <= x < |ns0| && ns0[x].state != 0 ==> ns1[x].state != 0
  }

  /** Only states changed. */
  ghost predicate OnlyStates(ns0: seq<Node>, ns1: seq<Node>)
  {
    |ns1| == |ns0| && forall x :: 0 <= x < |ns0| ==> ns1[x] == ns0[x].(state := ns1[x].state)
  }

  /** Making nodes unclean never raises the count of clean nodes. */
  lemma {:induction false} CountCleanMono(ns0: seq<Node>, ns1: seq<Node>)
    requires Mono(ns0, ns1)
    ensures CountClean(ns1) <= CountClean(ns0)
    decreases |ns0|
  {
    if ns0 != [] {
      var n := |ns0| - 1;
      assert Mono(ns0[..n], ns1[..n]) by {
        forall x | 0 <= x < n && ns0[..n][x].state != 0 ensures ns1[..n][x].state != 0 {
          assert ns0[x].state != 0;
        }
      }
      CountCleanMono(ns0[..n], ns1[..n]);
    }
  }

  /** Marking a clean node lowers the count of clean nodes by one. */
  lemma {:induction false} CountCleanMark(ns: seq<Node>, o: NodeId, v: nat)
    requires o < |ns| && ns[o].state == 0 && v != 0
    ensures CountClean(SetState(ns, o, v)) == CountClean(ns) - 1
    decreases |ns|
  {
    var n := |ns| - 1;
    var ns' := SetState(ns, o, v);
    assert ns'[..n] == if o == n then ns[..n] else SetState(ns[..n], o, v);
    if o < n {
      CountCleanMark(ns[..n], o, v);
    }
  }

  /** Marking in nodes: only clean nodes change, and they become Pending
      (markDownstream, test/bench/queue.ts:321-322). */
  ghost predicate Rises(ns0: seq<Node>, ns1: seq<Node>)
  {
    |ns1| == |ns0| && forall x :: 0 <= x < |ns0| ==>
      ns1[x] == ns0[x] || (ns0[x].state == 0 && ns1[x] == ns0[x].(state := PENDING))
  }

  lemma RisesTrans(a: seq<Node>, b: seq<Node>, c: seq<Node>)
    requires Rises(a, b) && Rises(b, c)
    ensures Rises(a, c) && Mono(a, c)
  {
  }

  /** The entries a pass appended to a queue. */
  function Added(q0: seq<NodeId>, q1: seq<NodeId>): seq<NodeId>
    requires q0 <= q1
  {
    q1[|q0|..]
  }

  /** What a marking pass appends to the queues (test/bench/queue.ts:171-174,
      321-324): exactly the nodes that were clean and no longer are, the
      pure ones to Updates and the others to Effects. */
  ghost predicate Enqueued(ns0: seq<Node>, ns1: seq<Node>,
                           u0: seq<NodeId>, u1: seq<NodeId>, e0: seq<NodeId>, e1: seq<NodeId>)
  {
    && |ns1| == |ns0| && u0 <= u1 && e0 <= e1
    && (forall i :: |u0| <= i < |u1| ==> u1[i] < |ns0| && ns0[u1[i]].pure && ns0[u1[i]].state == 0 && ns1[u1[i]].state != 0)
    && (forall i :: |e0| <= i < |e1| ==> e1[i] < |ns0| && !ns0[e1[i]].pure && ns0[e1[i]].state == 0 && ns1[e1[i]].state != 0)
    && (forall x :: 0 <= x < |ns0| && ns0[x].state == 0 && ns1[x].state != 0 ==> x in Added(u0, u1) || x in Added(e0, e1))
  }

  /** No node was queued twice by the pass. */
  ghost predicate Once(u0: seq<NodeId>, u1: seq<NodeId>, e0: seq<NodeId>, e1: seq<NodeId>)
    requires u0 <= u1 && e0 <= e1
  {
    Distinct(Added(u0, u1)) && Distinct(Added(e0, e1))
  }

  /** A pass that changes nothing. */
  lemma EnqueuedNone(ns: seq<Node>, u: seq<NodeId>, e: seq<NodeId>)
    ensures Enqueued(ns, ns, u, u, e, e) && Once(u, u, e, e)
  {
    assert Added(u, u) == [] && Added(e, e) == [];
  }

  /** Marking one clean node and queueing it where its kind says. */
  lemma EnqueueOne(ns: seq<Node>, u: seq<NodeId>, e: seq<NodeId>, o: NodeId, v: nat)
    requires o < |ns| && ns[o].state == 0 && v != 0
    ensures var u' := if ns[o].pure then u + [o] else u;
            var e' := if ns[o].pure then e else e + [o];
            Enqueued(ns, SetState(ns, o, v), u, u', e, e') && Once(u, u', e, e')
  {
    var u' := if ns[o].pure then u + [o] else u;
    var e' := if ns[o].pure then e else e + [o];
    assert Added(u, u') == (if ns[o].pure then [o] else []);
    assert Added(e, e') == (if ns[o].pure then [] else [o]);
  }

  /** Two passes in a row are one pass, and each queues its nodes once. */
  lemma EnqueuedTrans(a: seq<Node>, b: seq<Node>, c: seq<Node>,
                      ua: seq<NodeId>, ub: seq<NodeId>, uc: seq<NodeId>,
                      ea: seq<NodeId>, eb: seq<NodeId>, ec: seq<NodeId>)
    requires Enqueued(a, b, ua, ub, ea, eb) && Enqueued(b, c, ub, uc, eb, ec)
    requires Mono(a, b) && Mono(b, c) && OnlyStates(a, b)
    ensures Enqueued(a, c, ua, uc, ea, ec)
    ensures Once(ua, ub, ea, eb) && Once(ub, uc, eb, ec) ==> Once(ua, uc, ea, ec)
  {
    assert Added(ua, uc) == Added(ua, ub) + Added(ub, uc);
    assert Added(ea, ec) == Added(ea, eb) + Added(eb, ec);
    forall x | 0 <= x < |a| && a[x].state == 0 && c[x].state != 0
      ensures x in Added(ua, uc) || x in Added(ea, ec)
    {
      if b[x].state != 0 {
        assert x in Added(ua, ub) || x in Added(ea, eb);
      } else {
        assert x in Added(ub, uc) || x in Added(eb, ec);
      }
    }
    forall i | |ub| <= i < |uc| ensures a[uc[i]].pure {
      assert b[uc[i]] == a[uc[i]].(state := b[uc[i]].state);
    }
    forall i | |eb| <= i < |ec| ensures !a[ec[i]].pure {
      assert b[ec[i]] == a[ec[i]].(state := b[ec[i]].state);
    }
    if Once(ua, ub, ea, eb) && Once(ub, uc, eb, ec) {
      AppendDistinct(Added(ua, ub), Added(ub, uc), b);
      AppendDistinct(Added(ea, eb), Added(eb, ec), b);
    }
  }

  /** The entries of the first pass were unclean after it and those of the
      second clean before it, so no entry is in both. */
  lemma AppendDistinct(p: seq<NodeId>, q: seq<NodeId>, b: seq<Node>)
    requires Distinct(p) && Distinct(q)
    requires forall i :: 0 <= i < |p| ==> p[i] < |b| && b[p[i]].state != 0
    requires forall i :: 0 <= i < |q| ==> q[i] < |b| && b[q[i]].state == 0
    ensures Distinct(p + q)
  {
    var r := p + q;
    forall i, j | 0 <= i < j < |r| ensures r[i] != r[j] {
      if j < |p| {
        assert r[i] == p[i] && r[j] == p[j];
      } else if i >= |p| {
        assert r[i] == q[i - |p|] && r[j] == q[j - |p|];
      } else {
        assert r[i] == p[i] && r[j] == q[j - |p|];
      }
    }
  }

  /** One turn of writeSignal's loop on a clean observer o
      (test/bench/queue.ts:171-176): o is queued, marking downstream of it
      runs with o still clean, and then o becomes Stale. */
  lemma StaleClean(a: seq<Node>, c: seq<Node>,
                   ua: seq<NodeId>, uc: seq<NodeId>, ea: seq<NodeId>, ec: seq<NodeId>, o: NodeId)
    requires o < |a| && a[o].state == 0
    requires var ub := if a[o].pure then ua + [o] else ua;
             var eb := if a[o].pure then ea else ea + [o];
             Enqueued(a, c, ub, uc, eb, ec)
    requires Mono(a, c)
    ensures Enqueued(a, SetState(c, o, STALE), ua, uc, ea, ec) && Mono(a, SetState(c, o, STALE))
  {
    StaleCleanUpdates(a, c, ua, uc, ea, ec, o);
    StaleCleanEffects(a, c, ua, uc, ea, ec, o);
    StaleCleanCover(a, c, ua, uc, ea, ec, o);
  }

  lemma StaleCleanUpdates(a: seq<Node>, c: seq<Node>,
                          ua: seq<NodeId>, uc: seq<NodeId>, ea: seq<NodeId>, ec: seq<NodeId>, o: NodeId)
    requires o < |a| && a[o].state == 0
    requires var ub := if a[o].pure then ua + [o] else ua;
             var eb := if a[o].pure then ea else ea + [o];
             Enqueued(a, c, ub, uc, eb, ec)
    requires Mono(a, c)
    ensures ua <= uc
    ensures forall i :: |ua| <= i < |uc| ==>
              uc[i] < |a| && a[uc[i]].pure && a[uc[i]].state == 0 && SetState(c, o, STALE)[uc[i]].state != 0
  {
    var ub := if a[o].pure then ua + [o] else ua;
    var c' := SetState(c, o, STALE);
    forall i | |ua| <= i < |uc| ensures uc[i] < |a| && a[uc[i]].pure && a[uc[i]].state == 0 && c'[uc[i]].state != 0 {
      if i < |ub| {
        assert uc[i] == ub[i] == o;
      } else {
        assert c[uc[i]].state != 0;
      }
    }
  }

  lemma StaleCleanEffects(a: seq<Node>, c: seq<Node>,
                          ua: seq<NodeId>, uc: seq<NodeId>, ea: seq<NodeId>, ec: seq<NodeId>, o: NodeId)
    requires o < |a| && a[o].state == 0
    requires var ub := if a[o].pure then ua + [o] else ua;
             var eb := if a[o].pure then ea else ea + [o];
             Enqueued(a, c, ub, uc, eb, ec)
    requires Mono(a, c)
    ensures ea <= ec
    ensures forall i :: |ea| <= i < |ec| ==>
              ec[i] < |a| && !a[ec[i]].pure && a[ec[i]].state == 0 && SetState(c, o, STALE)[ec[i]].state != 0
  {
    var eb := if a[o].pure then ea else ea + [o];
    var c' := SetState(c, o, STALE);
    forall i | |ea| <= i < |ec| ensures ec[i] < |a| && !a[ec[i]].pure && a[ec[i]].state == 0 && c'[ec[i]].state != 0 {
      if i < |eb| {
        assert ec[i] == eb[i] == o;
      } else {
        assert c[ec[i]].state != 0;
      }
    }
  }

  lemma StaleCleanCover(a: seq<Node>, c: seq<Node>,
                        ua: seq<NodeId>, uc: seq<NodeId>, ea: seq<NodeId>, ec: seq<NodeId>, o: NodeId)
    requires o < |a| && a[o].state == 0
    requires var ub := if a[o].pure then ua + [o] else ua;
             var eb := if a[o].pure then ea else ea + [o];
             Enqueued(a, c, ub, uc, eb, ec)
    requires Mono(a, c)
    ensures ua <= uc && ea <= ec
    ensures forall x :: 0 <= x < |a| && a[x].state == 0 && SetState(c, o, STALE)[x].state != 0 ==>
              x in Added(ua, uc) || x in Added(ea, ec)
  {
    var ub := if a[o].pure then ua + [o] else ua;
    var eb := if a[o].pure then ea else ea + [o];
    var c' := SetState(c, o, STALE);
    forall x | 0 <= x < |a| && a[x].state == 0 && c'[x].state != 0
      ensures x in Added(ua, uc) || x in Added(ea, ec)
    {
      if x == o {
        if a[o].pure {
          assert Added(ua, uc)[0] == o;
        } else {
          assert Added(ea, ec)[0] == o;
        }
      } else {
        assert c[x].state != 0;
        AddedSplit(ua, ub, uc);
        AddedSplit(ea, eb, ec);
      }
    }
  }

  /** What two passes add is what the first added followed by what the
      second added. */
  lemma AddedSplit(a: seq<NodeId>, b: seq<NodeId>, c: seq<NodeId>)
    requires a <= b <= c
    ensures Added(a, c) == Added(a, b) + Added(b, c)
  {
  }

  /** One turn of writeSignal's loop on an observer that is not clean: it
      becomes Stale and nothing is queued. */
  lemma StaleUnclean(a: seq<Node>, ua: seq<NodeId>, ea: seq<NodeId>, o: NodeId,
                     ns0: seq<Node>, u0: seq<NodeId>, e0: seq<NodeId>)
    requires o < |a| && a[o].state != 0
    requires Enqueued(ns0, a, u0, ua, e0, ea) && Mono(ns0, a)
    ensures Enqueued(ns0, SetState(a, o, STALE), u0, ua, e0, ea) && Mono(ns0, SetState(a, o, STALE))
  {
  }

  /** Every listed node is not clean. */
  ghost predicate AllMarked(os: seq<NodeId>, ns: seq<Node>)
  {
    forall j :: 0 <= j < |os| ==> os[j] < |ns| && ns[os[j]].state != 0
  }

  lemma AllMarkedSnoc(os: seq<NodeId>, i: nat, ns: seq<Node>)
    requires i < |os| && AllMarked(os[..i], ns) && os[i] < |ns| && ns[os[i]].state != 0
    ensures AllMarked(os[..i + 1], ns)
  {
    assert os[..i + 1] == os[..i] + [os[i]];
  }

  lemma AllMarkedMono(os: seq<NodeId>, a: seq<Node>, b: seq<Node>)
    requires AllMarked(os, a) && Mono(a, b)
    ensures AllMarked(os, b)
  {
  }

  /** Every node the pass made unclean has all its observers unclean: the
      marking reached everything downstream of it. */
  ghost predicate Closed(g: Graph, ns0: seq<Node>, ns1: seq<Node>)
  {
    forall x :: 0 <= x < |ns0| && x < |ns1| && ns0[x].state == 0 && ns1[x].state != 0 ==>
      x < |g.observers| && AllMarked(g.observers[x], ns1)
  }

  /** The effect of one markDownstream call (test/bench/queue.ts:317-328):
      only clean nodes changed, each to Pending; exactly they were queued,
      each once, by kind; and everything downstream of them is unclean. */
  ghost predicate MarkPass(g: Graph, ns0: seq<Node>, ns1: seq<Node>,
                           u0: seq<NodeId>, u1: seq<NodeId>, e0: seq<NodeId>, e1: seq<NodeId>)
  {
    && Rises(ns0, ns1) && Enqueued(ns0, ns1, u0, u1, e0, e1) && Once(u0, u1, e0, e1)
    && Closed(g, ns0, ns1)
  }

  lemma RisesOnlyStates(a: seq<Node>, b: seq<Node>)
    requires Rises(a, b)
    ensures Mono(a, b) && OnlyStates(a, b)
  {
  }

  lemma MarkPassNone(g: Graph, ns: seq<Node>, u: seq<NodeId>, e: seq<NodeId>)
    ensures MarkPass(g, ns, ns, u, u, e, e)
  {
    EnqueuedNone(ns, u, e);
  }

  lemma MarkPassTrans(g: Graph, a: seq<Node>, b: seq<Node>, c: seq<Node>,
                      ua: seq<NodeId>, ub: seq<NodeId>, uc: seq<NodeId>,
                      ea: seq<NodeId>, eb: seq<NodeId>, ec: seq<NodeId>)
    requires MarkPass(g, a, b, ua, ub, ea, eb) && MarkPass(g, b, c, ub, uc, eb, ec)
    ensures MarkPass(g, a, c, ua, uc, ea, ec)
  {
    RisesOnlyStates(a, b);
    RisesOnlyStates(b, c);
    RisesTrans(a, b, c);
    EnqueuedTrans(a, b, c, ua, ub, uc, ea, eb, ec);
    forall x | 0 <= x < |a| && x < |c| && a[x].state == 0 && c[x].state != 0
      ensures x < |g.observers| && AllMarked(g.observers[x], c)
    {
      if b[x].state != 0 {
        AllMarkedMono(g.observers[x], b, c);
      }
    }
  }

  /** One turn of markDownstream's loop on a clean observer o
      (test/bench/queue.ts:321-325): o becomes Pending and is queued, and
      the recursive pass from o marks everything downstream of o. */
  lemma MarkPassOne(g: Graph, a: seq<Node>, c: seq<Node>,
                    ua: seq<NodeId>, uc: seq<NodeId>, ea: seq<NodeId>, ec: seq<NodeId>, o: NodeId)
    requires o < |a| && a[o].state == 0 && o < |g.observers|
    requires var ub := if a[o].pure then ua + [o] else ua;
             var eb := if a[o].pure then ea else ea + [o];
             MarkPass(g, SetState(a, o, PENDING), c, ub, uc, eb, ec)
    requires AllMarked(g.observers[o], c)
    ensures MarkPass(g, a, c, ua, uc, ea, ec) && c[o].state != 0
  {
    var b := SetState(a, o, PENDING);
    var ub := if a[o].pure then ua + [o] else ua;
    var eb := if a[o].pure then ea else ea + [o];
    EnqueueOne(a, ua, ea, o, PENDING);
    assert Rises(a, b);
    RisesOnlyStates(a, b);
    RisesOnlyStates(b, c);
    RisesTrans(a, b, c);
    EnqueuedTrans(a, b, c, ua, ub, uc, ea, eb, ec);
    forall x | 0 <= x < |a| && x < |c| && a[x].state == 0 && c[x].state != 0
      ensures x < |g.observers| && AllMarked(g.observers[x], c)
    {
      if x != o {
        assert b[x] == a[x];
      }
    }
  }

  /** Every listed node is Stale. */
  ghost predicate AllStale(os: seq<NodeId>, ns: seq<Node>)
  {
    forall j :: 0 <= j < |os| ==> os[j] < |ns| && ns[os[j]].state == STALE
  }

  /** The effect of writeSignal's loop over the observers os of the
      written node (test/bench/queue.ts:169-177): only states changed; each
      observer is Stale; any other node that changed was clean and is now
      Pending; exactly the nodes that were clean and are no longer are
      queued by kind; and everything downstream of them is unclean. */
  ghost predicate StalePass(g: Graph, os: seq<NodeId>, ns0: seq<Node>, ns1: seq<Node>,
                            u0: seq<NodeId>, u1: seq<NodeId>, e0: seq<NodeId>, e1: seq<NodeId>)
  {
    && OnlyStates(ns0, ns1) && Mono(ns0, ns1)
    && Enqueued(ns0, ns1, u0, u1, e0, e1)
    && (forall x :: 0 <= x < |ns0| ==>
          ns1[x].state == ns0[x].state || x in os || (ns0[x].state == 0 && ns1[x].state == PENDING))
    && AllStale(os, ns1)
    && Closed(g, ns0, ns1)
  }

  lemma StalePassNone(g: Graph, ns: seq<Node>, u: seq<NodeId>, e: seq<NodeId>)
    ensures StalePass(g, [], ns, ns, u, u, e, e)
  {
    EnqueuedNone(ns, u, e);
  }

  lemma StalePassTrans(g: Graph, os1: seq<NodeId>, os2: seq<NodeId>, a: seq<Node>, b: seq<Node>, c: seq<Node>,
                       ua: seq<NodeId>, ub: seq<NodeId>, uc: seq<NodeId>,
                       ea: seq<NodeId>, eb: seq<NodeId>, ec: seq<NodeId>)
    requires StalePass(g, os1, a, b, ua, ub, ea, eb) && StalePass(g, os2, b, c, ub, uc, eb, ec)
    ensures StalePass(g, os1 + os2, a, c, ua, uc, ea, ec)
  {
    EnqueuedTrans(a, b, c, ua, ub, uc, ea, eb, ec);
    StalePassTransStates(os1, os2, a, b, c);
    forall x | 0 <= x < |a| && x < |c| && a[x].state == 0 && c[x].state != 0
      ensures x < |g.observers| && AllMarked(g.observers[x], c)
    {
      if b[x].state != 0 {
        AllMarkedMono(g.observers[x], b, c);
      }
    }
  }

  lemma StalePassTransStates(os1: seq<NodeId>, os2: seq<NodeId>, a: seq<Node>, b: seq<Node>, c: seq<Node>)
    requires OnlyStates(a, b) && Mono(a, b) && OnlyStates(b, c) && Mono(b, c)
    requires forall x :: 0 <= x < |a| ==> b[x].state == a[x].state || x in os1 || (a[x].state == 0 && b[x].state == PENDING)
    requires forall x :: 0 <= x < |b| ==> c[x].state == b[x].state || x in os2 || (b[x].state == 0 && c[x].state == PENDING)
    requires AllStale(os1, b) && AllStale(os2, c)
    ensures OnlyStates(a, c) && Mono(a, c) && AllStale(os1 + os2, c)
    ensures forall x :: 0 <= x < |a| ==> c[x].state == a[x].state || x in os1 + os2 || (a[x].state == 0 && c[x].state == PENDING)
  {
    forall x | 0 <= x < |a| ensures c[x] == a[x].(state := c[x].state) {
      assert b[x] == a[x].(state := b[x].state) && c[x] == b[x].(state := c[x].state);
    }
    forall j | 0 <= j < |os1 + os2| ensures (os1 + os2)[j] < |c| && c[(os1 + os2)[j]].state == STALE {
      if j < |os1| {
        var x := os1[j];
        assert (os1 + os2)[j] == x && b[x].state == STALE;
      } else {
        assert (os1 + os2)[j] == os2[j - |os1|];
      }
    }
    forall x | 0 <= x < |a| ensures c[x].state == a[x].state || x in os1 + os2 || (a[x].state == 0 && c[x].state == PENDING) {
      if x in os1 || x in os2 {
        assert x in os1 + os2;
      }
    }
  }

  /** One turn of writeSignal's loop on an observer o that was clean: it
      was queued, marking ran from it, and it became Stale. */
  lemma StaleTurnClean(g: Graph, a: seq<Node>, c: seq<Node>,
                       ua: seq<NodeId>, uc: seq<NodeId>, ea: seq<NodeId>, ec: seq<NodeId>, o: NodeId)
    requires o < |a| && a[o].state == 0 && o < |g.observers|
    requires var ub := if a[o].pure then ua + [o] else ua;
             var eb := if a[o].pure then ea else ea + [o];
             MarkPass(g, a, c, ub, uc, eb, ec)
    requires AllMarked(g.observers[o], c)
    ensures StalePass(g, [o], a, SetState(c, o, STALE), ua, uc, ea, ec)
  {
    var ub := if a[o].pure then ua + [o] else ua;
    var eb := if a[o].pure then ea else ea + [o];
    var c' := SetState(c, o, STALE);
    RisesOnlyStates(a, c);
    StaleClean(a, c, ua, uc, ea, ec, o);
    forall x | 0 <= x < |a| ensures c'[x] == a[x].(state := c'[x].state) {
      assert c[x] == a[x].(state := c[x].state);
    }
    forall x | 0 <= x < |a| && x < |c'| && a[x].state == 0 && c'[x].state != 0
      ensures x < |g.observers| && AllMarked(g.observers[x], c')
    {
      if x == o {
        AllMarkedMono(g.observers[o], c, c');
      } else {
        AllMarkedMono(g.observers[x], c, c');
      }
    }
  }

  /** One turn of writeSignal's loop on an observer o that was not clean:
      it only became Stale. */
  lemma StaleTurnUnclean(g: Graph, a: seq<Node>, u: seq<NodeId>, e: seq<NodeId>, o: NodeId)
    requires o < |a| && a[o].state != 0
    ensures StalePass(g, [o], a, SetState(a, o, STALE), u, u, e, e)
  {
    EnqueuedNone(a, u, e);
    StaleUnclean(a, u, e, o, a, u, e);
  }

  /** The module globals Listener, Owner, Updates and Effects, and the log
      of the computations whose value was committed so far, in order. */
  datatype Env = Env(listener: Option<NodeId>, currentOwner: Option<NodeId>,
                     updates: Option<seq<NodeId>>, effects: Option<seq<NodeId>>, writes: seq<NodeId>)

  /** From log w0 to log w1: only computations were logged, and a node
      not logged kept its value, so every signal kept its value. */
  ghost predicate Logged(ns0: seq<Node>, w0: seq<NodeId>, ns1: seq<Node>, w1: seq<NodeId>)
  {
    && |w0| <= |w1| && w1[..|w0|] == w0 && |ns1| == |ns0|
    && (forall i :: |w0| <= i < |w1| ==> w1[i] < |ns0| && ns0[w1[i]].fn.Some?)
    && (forall n :: 0 <= n < |ns0| && n !in w1[|w0|..] ==> ns1[n].value == ns0[n].value)
  }

  /** Nothing logged and no value changed. */
  lemma LoggedStill(ns0: seq<Node>, ns1: seq<Node>, w: seq<NodeId>)
    requires |ns1| == |ns0| && forall n :: 0 <= n < |ns0| ==> ns1[n].value == ns0[n].value
    ensures Logged(ns0, w, ns1, w)
  {
    assert w[..|w|] == w;
  }

  lemma {:induction false} LoggedTrans(ns0: seq<Node>, w0: seq<NodeId>, ns1: seq<Node>, w1: seq<NodeId>,
                                       ns2: seq<Node>, w2: seq<NodeId>)
    requires Logged(ns0, w0, ns1, w1) && Logged(ns1, w1, ns2, w2) && SameFns(ns0, ns1)
    ensures Logged(ns0, w0, ns2, w2)
  {
    assert w2[..|w1|][..|w0|] == w2[..|w0|];
    assert w2[|w0|..] == w1[|w0|..] + w2[|w1|..] by {
      assert w2 == w1 + w2[|w1|..];
    }
    forall i | |w0| <= i < |w2| ensures w2[i] < |ns0| && ns0[w2[i]].fn.Some? {
      if i >= |w1| {
        assert ns1[w2[i]].fn == ns0[w2[i]].fn;
      } else {
        assert w2[i] == w1[i];
      }
    }
  }

  /** What every evaluating call leaves as it found it: no node gains or
      loses its fn, Listener and Owner are restored, each queue that
      existed has only grown while one that did not still does not, and
      only the computations it logged changed value. */
  ghost predicate Kept(ns0: seq<Node>, e0: Env, ns1: seq<Node>, e1: Env)
  {
    && SameKind(ns0, ns1) && e1.listener == e0.listener && e1.currentOwner == e0.currentOwner
    && Extends(e0.updates, e1.updates) && Extends(e0.effects, e1.effects)
    && Logged(ns0, e0.writes, ns1, e1.writes)
  }

  lemma KeptTrans(ns0: seq<Node>, e0: Env, ns1: seq<Node>, e1: Env, ns2: seq<Node>, e2: Env)
    requires Kept(ns0, e0, ns1, e1) && Kept(ns1, e1, ns2, e2)
    ensures Kept(ns0, e0, ns2, e2)
  {
    ExtendsTrans(e0.updates, e1.updates, e2.updates);
    ExtendsTrans(e0.effects, e1.effects, e2.effects);
    LoggedTrans(ns0, e0.writes, ns1, e1.writes, ns2, e2.writes);
  }

  /** Updates set aside (None) around a call and then restored. */
  lemma KeptAside(ns0: seq<Node>, e0: Env, ns1: seq<Node>, e1: Env)
    requires Kept(ns0, e0.(updates := None), ns1, e1.(updates := None))
    ensures Kept(ns0, e0, ns1, e1.(updates := e0.updates))
  {
  }

  /** Listener and Owner set for a call and then restored. */
  lemma KeptInside(ns0: seq<Node>, e0: Env, ns1: seq<Node>, ns2: seq<Node>, e2: Env,
                   l: Option<NodeId>, co: Option<NodeId>)
    requires SameKind(ns0, ns1) && forall n :: 0 <= n < |ns0| ==> ns1[n].value == ns0[n].value
    requires Kept(ns1, e0.(listener := l, currentOwner := co), ns2, e2.(listener := l, currentOwner := co))
    requires e2.listener == e0.listener && e2.currentOwner == e0.currentOwner
    ensures Kept(ns0, e0, ns2, e2)
  {
    LoggedStill(ns0, ns1, e0.writes);
    LoggedTrans(ns0, e0.writes, ns1, e0.writes, ns2, e2.writes);
  }

  /** A computation x whose value was stored (and then possibly changed
      again by the call that followed, from ns0 to ns1) is logged: then
      only logged nodes changed value, n2 replacing x's record with the
      same kind. */
  lemma KeptCommit(ns0: seq<Node>, e0: Env, ns1: seq<Node>, e1: Env, x: NodeId, n2: Node)
    requires x < |ns0| && x < |ns1| && ns0[x].fn.Some? && Kept(ns0[x := ns0[x].(value := ns1[x].value)], e0, ns1, e1)
    requires n2.fn == ns1[x].fn && n2.pure == ns1[x].pure && n2.comparator == ns1[x].comparator && n2.owner == ns1[x].owner
    ensures Kept(ns0, e0, ns1[x := n2], e1.(writes := e1.writes + [x]))
  {
    var w0, w1 := e0.writes, e1.writes;
    var w2 := w1 + [x];
    assert w2[..|w0|] == w0 by {
      assert w2[..|w1|] == w1;
    }
    assert w2[|w0|..] == w1[|w0|..] + [x];
  }

  /** v stored into x (ns0 to ns1), then a Kept call (ns1 to ns2): seen
      from the state where x already held the value it ends with, the
      whole is Kept, and a signal x still holds v. */
  lemma KeptWrite(ns0: seq<Node>, e0: Env, ns1: seq<Node>, ns2: seq<Node>, e2: Env, x: NodeId, v: Value)
    requires x < |ns0| && ns1 == ns0[x := ns0[x].(value := v)] && Kept(ns1, e0, ns2, e2)
    ensures Kept(ns0[x := ns0[x].(value := ns2[x].value)], e0, ns2, e2)
    ensures ns0[x].fn.None? ==> ns2[x].value == v
  {
    assert ns1[x := ns1[x].(value := ns2[x].value)] == ns0[x := ns0[x].(value := ns2[x].value)];
    if ns0[x].fn.None? {
      assert x !in e2.writes[|e0.writes|..];
    }
  }

  /** Each vals[i] is what node path[i] held when it was read, at log
      position at[i] (not before n0): it is the node's value in ns unless
      the node was logged since. */
  ghost predicate ReadsCurrent(n0: nat, w: seq<NodeId>, ns: seq<Node>, path: seq<NodeId>, at: seq<nat>, vals: seq<Value>)
  {
    && |path| == |vals| && |at| == |vals|
    && forall i :: 0 <= i < |vals| ==>
         n0 <= at[i] <= |w| && path[i] < |ns| && (path[i] !in w[at[i]..] ==> vals[i] == ns[path[i]].value)
  }

  /** Later calls keep what was read current. */
  lemma ReadsStayCurrent(n0: nat, ns: seq<Node>, e: Env, ns': seq<Node>, e': Env,
                         path: seq<NodeId>, at: seq<nat>, vals: seq<Value>)
    requires ReadsCurrent(n0, e.writes, ns, path, at, vals) && Kept(ns, e, ns', e')
    ensures ReadsCurrent(n0, e'.writes, ns', path, at, vals)
  {
    var t, t' := e.writes, e'.writes;
    forall i | 0 <= i < |vals| && path[i] !in t'[at[i]..]
      ensures vals[i] == ns'[path[i]].value
    {
      assert t'[at[i]..] == t[at[i]..] + t'[|t|..] by {
        assert t' == t + t'[|t|..];
      }
    }
  }

  /** A read of node d returning x, followed by reads that are current,
      gives reads that are current. */
  lemma ReadsCons(n0: nat, ns1: seq<Node>, e1: Env, ns2: seq<Node>, e2: Env,
                  d: NodeId, x: Value, path: seq<NodeId>, at: seq<nat>, vals: seq<Value>)
    requires n0 <= |e1.writes| && d < |ns1| && x == ns1[d].value && Kept(ns1, e1, ns2, e2)
    requires ReadsCurrent(|e1.writes|, e2.writes, ns2, path, at, vals)
    ensures ReadsCurrent(n0, e2.writes, ns2, [d] + path, [|e1.writes|] + at, [x] + vals)
  {
    var P, A, V := [d] + path, [|e1.writes|] + at, [x] + vals;
    forall i | 0 <= i < |V|
      ensures n0 <= A[i] <= |e2.writes| && P[i] < |ns2| && (P[i] !in e2.writes[A[i]..] ==> V[i] == ns2[P[i]].value)
    {
      if i > 0 {
        assert P[i] == path[i - 1] && A[i] == at[i - 1] && V[i] == vals[i - 1];
      }
    }
  }

  /** A signal read during a Kept call still holds the value read: the
      call logged computations only. */
  lemma SignalReads(ns0: seq<Node>, e0: Env, ns1: seq<Node>, e1: Env,
                    path: seq<NodeId>, at: seq<nat>, vals: seq<Value>, i: nat)
    requires Kept(ns0, e0, ns1, e1) && ReadsCurrent(|e0.writes|, e1.writes, ns1, path, at, vals)
    requires i < |vals| && ns1[path[i]].fn.None?
    ensures vals[i] == ns1[path[i]].value
  {
  }

  lemma SameKindTrans(ns0: seq<Node>, ns1: seq<Node>, ns2: seq<Node>)
    requires SameKind(ns0, ns1) && SameKind(ns1, ns2)
    ensures SameKind(ns0, ns2)
  {
  }

  /** A job's ids are nodes. */
  ghost predicate JobOk(job: Job, N: nat)
  {
    match job
    case MarkFrom(n) => n < N
    case RunList(q) => forall i :: 0 <= i < |q| ==> q[i] < N
  }

  /** None of the listed sources needs bringing up to date: each is a
      signal or neither Stale nor Pending (test/bench/queue.ts:308-313). */
  ghost predicate Quiet(ns: seq<Node>, srcs: seq<NodeId>)
  {
    forall k :: 0 <= k < |srcs| ==>
      srcs[k] < |ns| && (ns[srcs[k]].fn.None? || (ns[srcs[k]].state != STALE && ns[srcs[k]].state != PENDING))
  }
}
