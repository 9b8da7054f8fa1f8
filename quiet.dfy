/** Recomputes that start no nested evaluation, as functions on the engine's
    state.  A read inside a recompute (src/index.ts:253-271) is quiet when it
    reads a signal, or an unflagged computed that is either below the height
    being stabilized or read while every bucket up to maxHeightInHeap is
    empty: then `markHeap` finds nothing to mark and `updateIfNecessary`
    finds nothing to do, so the read only links and lifts the reader.  A
    recompute all of whose reads are quiet changes the state as QuietStep
    says, and a `stabilize` made only of such recomputes ends as
    QuietStabilize says; Reactive.Engine proves its methods against these
    functions. */
module Quiet {
  import opened Common
  import opened EdgeStore
  import opened Scheduler
  import opened Marking
  import opened EngineState

  /** The fields a quiet recompute changes: values, the edge store, the
      scheduler and the recompute log. */
  datatype Outcome = Outcome(value: seq<Value>, edges: Edges, sched: Sched, trace: seq<NodeId>)

  function WiringOf(e: Edges): Wiring
  {
    Wiring(e.deps, e.depsTail, e.subs, e.subsTail, e.dep, e.sub, e.depPtrs, e.subPtrs)
  }

  function ListsOf(e: Edges): Lists
  {
    Lists(e.depList, e.subList, e.confirmed)
  }

  /** No bucket from 0 to maxHeightInHeap holds a node. */
  ghost predicate HeapIdle(s: Sched)
  {
    forall h :: 0 <= h <= s.maxHeight ==> At(s.heap, h) == None
  }

  /** A read of d by the computation c is quiet: d is a signal, or a
      computed other than c with no flags that is below height sh or read
      while the heap is idle. */
  ghost predicate QuietRead(fns: seq<Option<Fn>>, s: Sched, sh: nat, d: NodeId, c: NodeId)
  {
    && d < |fns|
    && (fns[d].Some? ==>
          && d < |s.flags| && d < |s.height| && d != c && s.flags[d] == NONE
          && (s.height[d] < sh || HeapIdle(s)))
  }

  /** Every read in the decision tree f, on every branch, is quiet. */
  ghost predicate QuietFn(fns: seq<Option<Fn>>, f: Fn, s: Sched, sh: nat, c: NodeId)
    decreases f
  {
    match f
    case Return(_) => true
    case Read(d, _, x, y) => QuietRead(fns, s, sh, d, c) && QuietFn(fns, x, s, sh, c) && QuietFn(fns, y, s, sh, c)
  }

  /** Lifting the reader c keeps every read of f quiet: only c's height
      moves, and c is never read. */
  lemma {:induction false} QuietFnRaise(fns: seq<Option<Fn>>, f: Fn, s: Sched, sh: nat, c: NodeId, d: NodeId)
    requires SchedOk(s) && d < |s.flags| && c < |s.flags| && QuietFn(fns, f, s, sh, c)
    ensures QuietFn(fns, f, Raise(s, d, c), sh, c)
    decreases f
  {
    match f
    case Return(_) =>
    case Read(_, _, x, y) =>
      QuietFnRaise(fns, x, s, sh, c, d);
      QuietFnRaise(fns, y, s, sh, c, d);
  }

  /** The nodes f reads when every read returns the value held in `value`. */
  function Walk(f: Fn, value: seq<Value>): (p: seq<NodeId>)
    requires FnBelow(f, |value|)
    ensures forall i :: 0 <= i < |p| ==> p[i] < |value|
    decreases f
  {
    match f
    case Return(_) => []
    case Read(d, t, x, y) => [d] + Walk(if t(value[d]) then x else y, value)
  }

  /** The values held by the nodes p. */
  function ValuesAt(value: seq<Value>, p: seq<NodeId>): (vs: seq<Value>)
    requires forall i :: 0 <= i < |p| ==> p[i] < |value|
    ensures |vs| == |p| && forall i :: 0 <= i < |p| ==> vs[i] == value[p[i]]
  {
    seq(|p|, i requires 0 <= i < |p| => value[p[i]])
  }

  /** The height update of read(d) in c: only a computed d lifts c. */
  function ReadRaise(fns: seq<Option<Fn>>, s: Sched, d: NodeId, c: NodeId): (r: Sched)
    requires SchedOk(s) && d < |s.flags| && c < |s.flags| && d < |fns|
    ensures SchedOk(r) && r == s.(height := r.height) && |r.height| == |s.height|
  {
    if fns[d].Some? then Raise(s, d, c) else s
  }

  /** The height updates of the reads p of c, in order. */
  function RaiseAll(fns: seq<Option<Fn>>, s: Sched, p: seq<NodeId>, c: NodeId): (r: Sched)
    requires SchedOk(s) && c < |s.flags| && forall i :: 0 <= i < |p| ==> p[i] < |s.flags| && p[i] < |fns|
    ensures SchedOk(r) && r == s.(height := r.height) && |r.height| == |s.height|
    decreases |p|
  {
    if p == [] then s else RaiseAll(fns, ReadRaise(fns, s, p[0], c), p[1..], c)
  }

  /** The link(d, c) of each read d of p, in order. */
  ghost function LinkAll(e: Edges, p: seq<NodeId>, c: NodeId): (r: Edges)
    requires EdgesOk(e) && c < |e.depList| && forall i :: 0 <= i < |p| ==> p[i] < |e.depList|
    ensures EdgesOk(r) && |r.depList| == |e.depList|
    ensures forall l :: 0 <= l < |r.sub| ==> (l < |e.sub| && r.sub[l] == e.sub[l]) || r.sub[l] == c
    decreases |p|
  {
    if p == [] then e
    else
      LinkKeepsOk(e, p[0], c);
      LinkFrame(e, p[0], c);
      LinkSubs(e, p[0], c);
      LinkAll(Link(e, p[0], c), p[1..], c)
  }

  /** One more link in front of a run of links. */
  lemma LinkAllCons(e: Edges, d: NodeId, p: seq<NodeId>, c: NodeId)
    requires EdgesOk(e) && c < |e.depList| && d < |e.depList| && forall i :: 0 <= i < |p| ==> p[i] < |e.depList|
    ensures assert DepsOk(e, c) && SubsOk(e, d);
            EdgesOk(Link(e, d, c)) && |Link(e, d, c).depList| == |e.depList| &&
            LinkAll(e, [d] + p, c) == LinkAll(Link(e, d, c), p, c)
  {
    LinkKeepsOk(e, d, c);
    LinkFrame(e, d, c);
    assert ([d] + p)[1..] == p;
  }

  lemma RaiseAllCons(fns: seq<Option<Fn>>, s: Sched, d: NodeId, p: seq<NodeId>, c: NodeId)
    requires SchedOk(s) && c < |s.flags| && d < |s.flags| && d < |fns|
    requires forall i :: 0 <= i < |p| ==> p[i] < |s.flags| && p[i] < |fns|
    ensures RaiseAll(fns, s, [d] + p, c) == RaiseAll(fns, ReadRaise(fns, s, d, c), p, c)
  {
    assert ([d] + p)[1..] == p;
  }

  /** A quiet read of f's dependency leaves quiet the branch its value
      picks. */
  lemma QuietBranch(fns: seq<Option<Fn>>, f: Fn, s0: Sched, sh: nat, c: NodeId, x: Value)
    requires f.Read? && SchedOk(s0) && f.dep < |s0.flags| && f.dep < |fns| && c < |s0.flags|
    requires QuietFn(fns, f, s0, sh, c)
    ensures QuietFn(fns, if f.test(x) then f.onTrue else f.onFalse, ReadRaise(fns, s0, f.dep, c), sh, c)
  {
    if fns[f.dep].Some? {
      QuietFnRaise(fns, if f.test(x) then f.onTrue else f.onFalse, s0, sh, c, f.dep);
    }
  }

  /** The walk of f and the values it reads, one Read node at a time. */
  lemma WalkCons(f: Fn, value: seq<Value>, x: Value, restPath: seq<NodeId>, rest: seq<Value>)
    requires f.Read? && FnBelow(f, |value|) && x == value[f.dep]
    requires restPath == Walk(if f.test(x) then f.onTrue else f.onFalse, value) && rest == ValuesAt(value, restPath)
    ensures [f.dep] + restPath == Walk(f, value) && [x] + rest == ValuesAt(value, [f.dep] + restPath)
  {
    assert [x] + rest == ValuesAt(value, [f.dep] + restPath);
  }

  /** The sizes every quiet function needs, for a run inside c. */
  ghost predicate Sized3(fns: seq<Option<Fn>>, o: Outcome, c: NodeId)
  {
    && |o.value| == |fns| && |o.sched.flags| == |fns| && |o.edges.depList| == |fns| && c < |fns|
    && SchedOk(o.sched) && EdgesOk(o.edges)
  }

  /** A run of f inside the computation c, from o to o', that read the
      nodes p and the values vs: p is f's walk over the values of o, vs the
      values those nodes hold, and the run changed no value, logged no
      recompute, lifted c once per computed read and linked each read. */
  ghost predicate QuietRun(fns: seq<Option<Fn>>, f: Fn, c: NodeId, o: Outcome, p: seq<NodeId>, vs: seq<Value>, o': Outcome)
  {
    && Sized3(fns, o, c) && FnBelow(f, |fns|)
    && p == Walk(f, o.value) && vs == ValuesAt(o.value, p)
    && o'.value == o.value && o'.trace == o.trace
    && o'.sched == RaiseAll(fns, o.sched, p, c) && o'.edges == LinkAll(o.edges, p, c)
  }

  /** A Return leaf reads nothing and changes nothing. */
  lemma QuietRunReturn(fns: seq<Option<Fn>>, f: Fn, c: NodeId, o: Outcome)
    requires Sized3(fns, o, c) && f.Return?
    ensures QuietRun(fns, f, c, o, [], [], o)
  {
  }

  /** A read of d inside the computation c, from o to o1, that returned
      x: x is d's value, and the read changed no value, logged no
      recompute, linked d to c and lifted c above a computed d. */
  ghost predicate ReadStep(fns: seq<Option<Fn>>, d: NodeId, c: NodeId, o: Outcome, x: Value, o1: Outcome)
  {
    && Sized3(fns, o, c) && d < |fns|
    && x == o.value[d] && o1.value == o.value && o1.trace == o.trace
    && o1.sched == ReadRaise(fns, o.sched, d, c)
    && (assert DepsOk(o.edges, c) && SubsOk(o.edges, d); o1.edges == Link(o.edges, d, c))
  }

  /** A quiet read of f's dependency followed by a quiet run of the branch
      its value picks is a quiet run of f. */
  lemma QuietCons(fns: seq<Option<Fn>>, f: Fn, c: NodeId, o: Outcome, x: Value, o1: Outcome,
                  p: seq<NodeId>, vs: seq<Value>, o2: Outcome)
    requires f.Read? && FnBelow(f, |fns|) && ReadStep(fns, f.dep, c, o, x, o1)
    requires QuietRun(fns, if f.test(x) then f.onTrue else f.onFalse, c, o1, p, vs, o2)
    ensures QuietRun(fns, f, c, o, [f.dep] + p, [x] + vs, o2)
  {
    WalkCons(f, o.value, x, p, vs);
    RaiseAllCons(fns, o.sched, f.dep, p, c);
    LinkAllCons(o.edges, f.dep, p, c);
  }

  /** A Read node of a quiet f: when its read is a ReadStep whenever quiet
      and its branch runs quietly whenever quiet, f runs quietly. */
  lemma ReadThenBranch(fns: seq<Option<Fn>>, f: Fn, c: NodeId, sh: nat, o: Outcome, x: Value, o1: Outcome,
                       p: seq<NodeId>, vs: seq<Value>, o2: Outcome)
    requires f.Read? && FnBelow(f, |fns|) && QuietFn(fns, f, o.sched, sh, c)
    requires QuietRead(fns, o.sched, sh, f.dep, c) ==> ReadStep(fns, f.dep, c, o, x, o1)
    requires QuietFn(fns, if f.test(x) then f.onTrue else f.onFalse, o1.sched, sh, c) ==>
               QuietRun(fns, if f.test(x) then f.onTrue else f.onFalse, c, o1, p, vs, o2)
    ensures QuietRun(fns, f, c, o, [f.dep] + p, [x] + vs, o2)
  {
    QuietBranch(fns, f, o.sched, sh, c, x);
    QuietCons(fns, f, c, o, x, o1, p, vs, o2);
  }

  /** The start of recompute(el) on the scheduler (src/index.ts:112-114):
      deleteFromHeap, then flags None. */
  function StartSched(s: Sched, el: NodeId): (r: Sched)
    requires SchedOk(s) && el < |s.flags|
    ensures SchedOk(r) && |r.flags| == |s.flags|
  {
    var d := DeleteFromHeap(s, el);
    d.(flags := d.flags[el := NONE])
  }

  /** The end of recompute(el) (src/index.ts:116-135) from o, after a run
      that returned v: the links the run did not confirm are pruned, v is
      stored, and when it differs from the old value every subscriber is
      notified; the recompute is logged. */
  ghost function Settled(fns: seq<Option<Fn>>, o: Outcome, el: NodeId, v: Value): Outcome
    requires Sized3(fns, o, el)
  {
    PruneAllEffect(o.edges, el);
    var e := PruneAll(o.edges, el);
    var s := if o.value[el] == v then o.sched else NotifyAll(o.sched, Subscribers(e, el));
    Outcome(o.value[el := v], e, s, o.trace + [el])
  }

  /** recompute(el) from o, once el is the context, has left its bucket
      and has forgotten its confirmations, when every read of its fn is
      quiet: the fn reads the nodes of its walk over the values of o
      (linking each and lifting el above each computed) and the result is
      settled.  None when the fn does not return on those values. */
  ghost function QuietFinish(fns: seq<Option<Fn>>, o: Outcome, el: NodeId): Option<Outcome>
    requires Sized3(fns, o, el) && fns[el].Some? && FnBelow(fns[el].value, |fns|)
  {
    var f := fns[el].value;
    var p := Walk(f, o.value);
    var r := Run(f, ValuesAt(o.value, p));
    if r.None? then None
    else Some(Settled(fns, Outcome(o.value, LinkAll(o.edges, p, el), RaiseAll(fns, o.sched, p, el), o.trace), el, r.value))
  }

  /** A run of el's fn that returned v and is a quiet run whenever its
      reads are quiet, followed by the settling of v into o2: whenever the
      reads are quiet, the recompute ends as QuietFinish says. */
  lemma QuietFinishTie(fns: seq<Option<Fn>>, el: NodeId, sh: nat, o: Outcome, p: seq<NodeId>, vs: seq<Value>,
                       o1: Outcome, v: Value, o2: Outcome)
    requires el < |fns| && fns[el].Some? && Run(fns[el].value, vs) == Some(v) && Sized3(fns, o1, el)
    requires QuietFn(fns, fns[el].value, o.sched, sh, el) ==> QuietRun(fns, fns[el].value, el, o, p, vs, o1)
    requires o2 == Settled(fns, o1, el, v)
    ensures QuietFn(fns, fns[el].value, o.sched, sh, el) ==> QuietFinish(fns, o, el) == Some(o2)
  {
    if QuietFn(fns, fns[el].value, o.sched, sh, el) {
      QuietFinishIs(fns, el, o, p, vs, o1, v);
    }
  }

  /** A quiet run of el's fn, when it returns v, ends as QuietFinish says. */
  lemma QuietFinishIs(fns: seq<Option<Fn>>, el: NodeId, o: Outcome, p: seq<NodeId>, vs: seq<Value>, o1: Outcome, v: Value)
    requires el < |fns| && fns[el].Some? && QuietRun(fns, fns[el].value, el, o, p, vs, o1) && Run(fns[el].value, vs) == Some(v)
    ensures QuietFinish(fns, o, el) == Some(Settled(fns, o1, el, v))
  {
  }

  /** The start of recompute(el) on the edge store and the scheduler. */
  ghost function Started(fns: seq<Option<Fn>>, o: Outcome, el: NodeId): (r: Outcome)
    requires Sized3(fns, o, el)
    ensures Sized3(fns, r, el)
  {
    RestartKeepsOk(o.edges, el);
    Outcome(o.value, Restart(o.edges, el), StartSched(o.sched, el), o.trace)
  }

  /** Started, component by component. */
  lemma StartedIs(fns: seq<Option<Fn>>, o: Outcome, el: NodeId, e: Edges, s: Sched, o': Outcome)
    requires Sized3(fns, o, el) && e == Restart(o.edges, el)
    requires s == (var d := DeleteFromHeap(o.sched, el); d.(flags := d.flags[el := NONE]))
    requires o' == Outcome(o.value, e, s, o.trace)
    ensures Started(fns, o, el) == o'
  {
  }

  /** recompute(el) (src/index.ts:109-136) when every read of its fn is
      quiet: el leaves its bucket with its flags cleared and its
      confirmations forgotten, and then ends as QuietFinish says.  None when
      el is a signal or a read is not quiet. */
  ghost function QuietStep(fns: seq<Option<Fn>>, o: Outcome, el: NodeId, sh: nat): Option<Outcome>
  {
    if !(Sized3(fns, o, el) && fns[el].Some? && FnBelow(fns[el].value, |fns|)) then None
    else if !QuietFn(fns, fns[el].value, StartSched(o.sched, el), sh, el) then None
    else QuietFinish(fns, Started(fns, o, el), el)
  }

  /** A recompute whose run after the start ends as QuietFinish says,
      whenever it is quiet, makes a quiet step. */
  lemma QuietStepIs(fns: seq<Option<Fn>>, o: Outcome, el: NodeId, sh: nat, o1: Outcome, o2: Outcome)
    requires Sized3(fns, o, el) && fns[el].Some? && FnBelow(fns[el].value, |fns|) && o1 == Started(fns, o, el)
    requires QuietFn(fns, fns[el].value, o1.sched, sh, el) ==> QuietFinish(fns, o1, el) == Some(o2)
    ensures QuietFn(fns, fns[el].value, StartSched(o.sched, el), sh, el) ==> QuietStep(fns, o, el, sh) == Some(o2)
  {
  }

  /** The inner loop of stabilize at height h (src/index.ts:319-321) when it
      makes exactly k recomputes, all quiet, and then finds the bucket
      empty; None otherwise. */
  ghost function QuietDrain(fns: seq<Option<Fn>>, o: Outcome, h: nat, k: nat): Option<Outcome>
    decreases k
  {
    match At(o.sched.heap, h)
    case None => if k == 0 then Some(o) else None
    case Some(el) =>
      if k == 0 then None
      else
        match QuietStep(fns, o, el, h)
        case None => None
        case Some(o') => QuietDrain(fns, o', h, k - 1)
  }

  /** One turn of the inner loop: a drain that is still to make k quiet
      recomputes and finds el at the head makes a quiet step from el. */
  lemma DrainTurn(fns: seq<Option<Fn>>, o: Outcome, h: nat, k: nat, el: NodeId)
    requires QuietDrain(fns, o, h, k).Some? && At(o.sched.heap, h) == Some(el)
    ensures k > 0 && QuietStep(fns, o, el, h).Some?
    ensures el < |fns| && fns[el].Some? && SchedOk(o.sched) && el < |o.sched.flags|
    ensures QuietFn(fns, fns[el].value, StartSched(o.sched, el), h, el)
    ensures QuietDrain(fns, QuietStep(fns, o, el, h).value, h, k - 1) == QuietDrain(fns, o, h, k)
  {
  }

  /** The inner loop ends on an empty bucket with what is left to do. */
  lemma DrainEnd(fns: seq<Option<Fn>>, o: Outcome, h: nat, k: nat)
    requires QuietDrain(fns, o, h, k).Some? && At(o.sched.heap, h) == None
    ensures QuietDrain(fns, o, h, k) == Some(o)
  {
  }

  /** The outer loop of stabilize from height h (src/index.ts:314-318),
      with plan[i] quiet recomputes at height h + i, up to the last height
      maxHeightInHeap has reached; None when the run differs from the plan. */
  ghost function QuietStabilize(fns: seq<Option<Fn>>, o: Outcome, h: nat, plan: seq<nat>): Option<Outcome>
    decreases |plan|
  {
    if h > o.sched.maxHeight then
      if plan == [] then Some(o) else None
    else if plan == [] then None
    else
      match QuietDrain(fns, o, h, plan[0])
      case None => None
      case Some(o') => QuietStabilize(fns, o', h + 1, plan[1..])
  }

  /** One turn of the outer loop: the drain at height h, then the rest of
      the plan from h + 1. */
  lemma StabilizeTurn(fns: seq<Option<Fn>>, o: Outcome, h: nat, plan: seq<nat>, o': Outcome)
    requires QuietStabilize(fns, o, h, plan).Some? && h <= o.sched.maxHeight
    ensures plan != [] && QuietDrain(fns, o, h, plan[0]).Some?
    ensures QuietDrain(fns, o, h, plan[0]) == Some(o') ==>
              QuietStabilize(fns, o', h + 1, plan[1..]) == QuietStabilize(fns, o, h, plan)
  {
  }

  /** A turn of the outer loop that ends where the drain of the first
      bucket of the plan ends leaves the rest of the plan from h + 1. */
  lemma LevelTie(fns: seq<Option<Fn>>, o: Outcome, h: nat, plan: seq<nat>, o': Outcome)
    requires QuietStabilize(fns, o, h, plan).Some? && h <= o.sched.maxHeight
    requires plan != [] && QuietDrain(fns, o, h, plan[0]).Some? ==> o' == QuietDrain(fns, o, h, plan[0]).value
    ensures QuietStabilize(fns, o', h + 1, plan[1..]) == QuietStabilize(fns, o, h, plan)
  {
    StabilizeTurn(fns, o, h, plan, o');
  }

  /** The outer loop ends past maxHeightInHeap with the whole plan used. */
  lemma StabilizeEnd(fns: seq<Option<Fn>>, o: Outcome, h: nat, plan: seq<nat>)
    requires QuietStabilize(fns, o, h, plan).Some? && h > o.sched.maxHeight
    ensures QuietStabilize(fns, o, h, plan) == Some(o)
  {
  }
}
