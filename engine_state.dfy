/** The node records of src/index.ts seen as values (a node's value and
    its `fn`), and the engine invariant stated on the values of the engine's
    fields, with the lemmas that carry it across each kind of update. */
module EngineState {
  import opened Common
  import opened LinkList
  import opened EdgeStore
  import opened Scheduler
  import opened Marking

  /** The values a node can hold; `undefined` is the initial value of a
      computed (src/index.ts:90). */
  datatype Value = Undefined | Num(n: int)

  /** A computed's `fn`, seen from the engine: a decision tree of reads.
      Read(dep, test, onTrue, onFalse) reads dep and continues with onTrue
      or onFalse according to `test` of the value read; Return computes the
      result from the values read so far, in order. */
  datatype Fn =
    | Return(result: seq<Value> -> Value)
    | Read(dep: NodeId, test: Value -> bool, onTrue: Fn, onFalse: Fn)

  /** Every node fn can read is one of the first N nodes. */
  predicate FnBelow(f: Fn, N: nat)
  {
    match f
    case Return(_) => true
    case Read(d, _, t, e) => d < N && FnBelow(t, N) && FnBelow(e, N)
  }

  lemma {:induction false} FnBelowGrows(f: Fn, N: nat, M: nat)
    requires FnBelow(f, N) && N <= M
    ensures FnBelow(f, M)
  {
    match f
    case Return(_) =>
    case Read(d, _, t, e) =>
      FnBelowGrows(t, N, M);
      FnBelowGrows(e, N, M);
  }

  /** The ids of the computeds. */
  ghost function Computeds(fns: seq<Option<Fn>>): set<NodeId>
  {
    set n | 0 <= n < |fns| && fns[n].Some?
  }

  /** Only computeds subscribe (the `sub` of a link is always the context
      at the time of the read), no fn reads a node that does not exist, and
      the context is a computed. */
  ghost predicate Wired(fns: seq<Option<Fn>>, w: Wiring, context: Option<NodeId>)
  {
    && (forall l :: 0 <= l < |w.sub| && w.sub[l] < |fns| ==> fns[w.sub[l]].Some?)
    && (forall n :: 0 <= n < |fns| && fns[n].Some? ==> FnBelow(fns[n].value, |fns|))
    && (context.Some? ==> context.value < |fns| && fns[context.value].Some?)
  }

  /** The engine invariant, on the values of its fields: one entry per
      node, a consistent edge store, a scheduler whose buckets hold only
      computeds, and the wiring facts above. */
  ghost predicate Good(fns: seq<Option<Fn>>, value: seq<Value>, w: Wiring, l: Lists, s: Sched, context: Option<NodeId>)
  {
    && |value| == |fns| && |l.depList| == |fns|
    && EdgesOk(Join(w, l))
    && Fits(s, |fns|, Computeds(fns))
    && Wired(fns, w, context)
  }

  /** Changes to values and scheduler state that keep Fits keep the
      invariant. */
  lemma GoodSched(fns: seq<Option<Fn>>, value: seq<Value>, w: Wiring, l: Lists, s: Sched, context: Option<NodeId>,
                  value': seq<Value>, s': Sched)
    requires Good(fns, value, w, l, s, context) && |value'| == |fns| && Fits(s', |fns|, Computeds(fns))
    ensures Good(fns, value', w, l, s', context)
  {
  }

  /** What setSignal needs: the subscriber list of el is threaded and names
      computeds, so enqueueing them and storing v keeps the invariant. */
  lemma SetSignalKeepsGood(fns: seq<Option<Fn>>, value: seq<Value>, w: Wiring, l: Lists, s: Sched, context: Option<NodeId>,
                           el: NodeId, v: Value)
    requires Good(fns, value, w, l, s, context) && el < |fns|
    ensures var ns := Subscribers(Join(w, l), el);
            && el < |w.subs| && w.subs[el] == First(l.subList[el]) && Threaded(l.subList[el], w.subPtrs)
            && |ns| == |l.subList[el]| && AllBelow(ns, |s.flags|)
            && (forall i :: 0 <= i < |ns| ==> l.subList[el][i] < |w.sub| && w.sub[l.subList[el][i]] == ns[i])
            && Good(fns, value[el := v], w, l, InsertAll(s, ns), context)
  {
    var e := Join(w, l);
    var ns := Subscribers(e, el);
    assert SubsOk(e, el);
    InsertAllFits(s, |fns|, Computeds(fns), ns);
  }

  // ---------------------------------------------------------------------
  // running a fn

  /** The result of resuming f after the values `seen` have been read,
      when the next reads return `rest`: None when f stops before using all
      of rest or needs more reads than rest holds. */
  function Go(f: Fn, seen: seq<Value>, rest: seq<Value>): (r: Option<Value>)
    decreases f
  {
    match f
    case Return(g) => if rest == [] then Some(g(seen)) else None
    case Read(_, t, a, b) =>
      if rest == [] then None else Go(if t(rest[0]) then a else b, seen + [rest[0]], rest[1..])
  }

  /** `fn()` run from the start, its reads returning vals in order. */
  function Run(f: Fn, vals: seq<Value>): Option<Value>
  {
    Go(f, [], vals)
  }

  /** The values one run of a fn reads are determined by the fn: no run
      that completes is a proper prefix of another that completes, so a
      fn's reads end exactly where its return is reached. */
  lemma {:induction false} GoPrefixFree(f: Fn, seen: seq<Value>, a: seq<Value>, b: seq<Value>)
    requires Go(f, seen, a).Some? && Go(f, seen, a + b).Some?
    ensures b == []
    decreases f
  {
    match f
    case Return(_) =>
      assert a == [] && a + b == b;
    case Read(_, t, x, y) =>
      var next := if t(a[0]) then x else y;
      assert (a + b)[0] == a[0] && (a + b)[1..] == a[1..] + b;
      GoPrefixFree(next, seen + [a[0]], a[1..], b);
  }

  /** A run that completes returns the Return leaf's result on all the
      values read, and each of those values was asked for by a Read node
      (the number of values is the depth of the path taken). */
  lemma {:induction false} GoPath(f: Fn, seen: seq<Value>, rest: seq<Value>)
    requires Go(f, seen, rest).Some?
    ensures |rest| == PathLength(f, rest)
    decreases f
  {
    match f
    case Return(_) =>
    case Read(_, t, x, y) =>
      GoPath(if t(rest[0]) then x else y, seen + [rest[0]], rest[1..]);
  }

  /** The number of Read nodes on the path rest steers f along. */
  function PathLength(f: Fn, rest: seq<Value>): nat
    decreases f
  {
    match f
    case Return(_) => 0
    case Read(_, t, x, y) => if rest == [] then 1 else 1 + PathLength(if t(rest[0]) then x else y, rest[1..])
  }

  /** The nodes a run of f reads, in order, when its reads return vals. */
  function ReadsOf(f: Fn, vals: seq<Value>): seq<NodeId>
    decreases f
  {
    match f
    case Return(_) => []
    case Read(d, t, x, y) => if vals == [] then [] else [d] + ReadsOf(if t(vals[0]) then x else y, vals[1..])
  }

  // ---------------------------------------------------------------------
  // the recompute log

  /** From log t0 and values v0 to log t and values v: the log of
      completed recomputes grew by computeds only, only the nodes it gained
      changed value, and so no signal changed value. */
  ghost predicate Logs(fns: seq<Option<Fn>>, t0: seq<NodeId>, v0: seq<Value>, t: seq<NodeId>, v: seq<Value>)
  {
    && |t0| <= |t| && t[..|t0|] == t0 && |v| == |v0|
    && (forall i :: |t0| <= i < |t| ==> t[i] < |fns| && fns[t[i]].Some?)
    && (forall n :: 0 <= n < |v0| && n !in t[|t0|..] ==> v[n] == v0[n])
    && (forall n :: 0 <= n < |v0| && n < |fns| && fns[n].None? ==> v[n] == v0[n])
  }

  lemma LogsSame(fns: seq<Option<Fn>>, t: seq<NodeId>, v: seq<Value>)
    ensures Logs(fns, t, v, t, v)
  {
    assert t[..|t|] == t;
  }

  lemma LogsTrans(fns: seq<Option<Fn>>, t0: seq<NodeId>, v0: seq<Value>, t1: seq<NodeId>, v1: seq<Value>,
                  t2: seq<NodeId>, v2: seq<Value>)
    requires Logs(fns, t0, v0, t1, v1) && Logs(fns, t1, v1, t2, v2)
    ensures Logs(fns, t0, v0, t2, v2)
  {
    assert t2[..|t0|] == t2[..|t1|][..|t0|];
    assert t2[|t0|..] == t1[|t0|..] + t2[|t1|..] by {
      assert t2 == t1 + t2[|t1|..];
    }
  }

  /** The end of a recompute of the computed el: el is logged and takes
      the value x. */
  lemma LogsSettle(fns: seq<Option<Fn>>, t: seq<NodeId>, v: seq<Value>, el: NodeId, x: Value)
    requires el < |fns| && fns[el].Some? && el < |v|
    ensures Logs(fns, t, v, t + [el], v[el := x])
  {
    assert (t + [el])[..|t|] == t && (t + [el])[|t|..] == [el];
  }

  /** Of the values vals of the nodes path, read when the log had at[i]
      entries (never fewer than n0), each is that node's value in v unless
      the node has been recomputed since it was read. */
  ghost predicate ReadsCurrent(n0: nat, t: seq<NodeId>, v: seq<Value>, path: seq<NodeId>, at: seq<nat>, vals: seq<Value>)
  {
    && |path| == |vals| && |at| == |vals|
    && forall i :: 0 <= i < |vals| ==>
         n0 <= at[i] <= |t| && path[i] < |v| && (path[i] !in t[at[i]..] ==> vals[i] == v[path[i]])
  }

  /** Later recomputes keep what was read current. */
  lemma ReadsStayCurrent(fns: seq<Option<Fn>>, n0: nat, t: seq<NodeId>, v: seq<Value>, t': seq<NodeId>, v': seq<Value>,
                         path: seq<NodeId>, at: seq<nat>, vals: seq<Value>)
    requires ReadsCurrent(n0, t, v, path, at, vals) && Logs(fns, t, v, t', v')
    ensures ReadsCurrent(n0, t', v', path, at, vals)
  {
    forall i | 0 <= i < |vals| && path[i] !in t'[at[i]..]
      ensures vals[i] == v'[path[i]]
    {
      assert t'[at[i]..] == t[at[i]..] + t'[|t|..] by {
        assert t' == t + t'[|t|..];
      }
    }
  }

  /** A read of node d returning x, followed by reads that are current,
      gives reads that are current. */
  lemma ReadsCons(fns: seq<Option<Fn>>, n0: nat, t1: seq<NodeId>, v1: seq<Value>, t2: seq<NodeId>, v2: seq<Value>,
                  d: NodeId, x: Value, path: seq<NodeId>, at: seq<nat>, vals: seq<Value>)
    requires n0 <= |t1| && d < |v1| && x == v1[d] && Logs(fns, t1, v1, t2, v2)
    requires ReadsCurrent(|t1|, t2, v2, path, at, vals)
    ensures ReadsCurrent(n0, t2, v2, [d] + path, [|t1|] + at, [x] + vals)
  {
    var P, A, V := [d] + path, [|t1|] + at, [x] + vals;
    forall i | 0 <= i < |V|
      ensures n0 <= A[i] <= |t2| && P[i] < |v2| && (P[i] !in t2[A[i]..] ==> V[i] == v2[P[i]])
    {
      if i > 0 {
        assert P[i] == path[i - 1] && A[i] == at[i - 1] && V[i] == vals[i - 1];
      }
    }
  }

  // ---------------------------------------------------------------------
  // what the evaluator keeps

  /** Heights never drop and maxHeightInHeap never drops: recompute,
      read and stabilize only ever raise them. */
  ghost predicate Grows(s: Sched, s': Sched)
  {
    && |s'.height| == |s.height| && s.maxHeight <= s'.maxHeight
    && forall k :: 0 <= k < |s.height| ==> s.height[k] <= s'.height[k]
  }

  lemma GrowsTrans(a: Sched, b: Sched, c: Sched)
    requires Grows(a, b) && Grows(b, c)
    ensures Grows(a, c)
  {
  }

  /** A new edge store that is consistent, the same size, and whose links
      name only old subscribers or the context keeps the invariant. */
  lemma EdgesKeepGood(fns: seq<Option<Fn>>, value: seq<Value>, w: Wiring, l: Lists, s: Sched, context: Option<NodeId>,
                      w': Wiring, l': Lists)
    requires Good(fns, value, w, l, s, context)
    requires EdgesOk(Join(w', l')) && |l'.depList| == |fns|
    requires w'.sub == w.sub || (context.Some? && w'.sub == w.sub + [context.value])
    ensures Good(fns, value, w', l', s, context)
  {
    forall k | 0 <= k < |w'.sub| && w'.sub[k] < |fns| ensures fns[w'.sub[k]].Some? {
      if k < |w.sub| {
        assert w'.sub[k] == w.sub[k];
      }
    }
  }

  /** read's link(el, context) keeps the invariant. */
  lemma LinkKeepsGood(fns: seq<Option<Fn>>, value: seq<Value>, w: Wiring, l: Lists, s: Sched, context: Option<NodeId>,
                      d: NodeId, w': Wiring, l': Lists)
    requires Good(fns, value, w, l, s, context) && context.Some? && d < |fns|
    requires EdgesOk(Join(w, l)) && Join(w', l') == Link(Join(w, l), d, context.value)
    ensures Good(fns, value, w', l', s, context)
  {
    var e := Join(w, l);
    assert DepsOk(e, context.value) && SubsOk(e, d);
    LinkKeepsOk(e, d, context.value);
    LinkFrame(e, d, context.value);
    LinkSubs(e, d, context.value);
    EdgesKeepGood(fns, value, w, l, s, context, w', l');
  }

  /** Unlinking the first unconfirmed link of n keeps the invariant. */
  lemma PruneKeepsGood(fns: seq<Option<Fn>>, value: seq<Value>, w: Wiring, l: Lists, s: Sched, context: Option<NodeId>,
                       n: NodeId, w': Wiring, l': Lists)
    requires Good(fns, value, w, l, s, context) && n < |fns| && l.confirmed[n] < |l.depList[n]|
    requires Join(w', l') == PruneNext(Join(w, l), n)
    ensures Good(fns, value, w', l', s, context)
  {
    PruneReady(Join(w, l), n);
    EdgesKeepGood(fns, value, w, l, s, context, w', l');
  }

  /** recompute's `depsTail = null` keeps the invariant. */
  lemma RestartKeepsGood(fns: seq<Option<Fn>>, value: seq<Value>, w: Wiring, l: Lists, s: Sched, context: Option<NodeId>,
                         n: NodeId)
    requires Good(fns, value, w, l, s, context) && n < |fns|
    ensures n < |w.depsTail| && n < |l.confirmed|
    ensures var w', l' := w.(depsTail := w.depsTail[n := None]), l.(confirmed := l.confirmed[n := 0]);
            Join(w', l') == Restart(Join(w, l), n) && Good(fns, value, w', l', s, context)
  {
    RestartKeepsOk(Join(w, l), n);
  }

  /** Any computed may become the context. */
  lemma ContextKeepsGood(fns: seq<Option<Fn>>, value: seq<Value>, w: Wiring, l: Lists, s: Sched, context: Option<NodeId>,
                         c: Option<NodeId>)
    requires Good(fns, value, w, l, s, context)
    requires c.Some? ==> c.value < |fns| && fns[c.value].Some?
    ensures Good(fns, value, w, l, s, c)
  {
  }

  /** recompute's deleteFromHeap(el) keeps the invariant. */
  lemma DeleteKeepsGood(fns: seq<Option<Fn>>, value: seq<Value>, w: Wiring, l: Lists, s: Sched, context: Option<NodeId>,
                        n: NodeId)
    requires Good(fns, value, w, l, s, context) && n < |fns| && fns[n].Some?
    ensures SchedOk(s) && n < |s.flags| && Good(fns, value, w, l, DeleteFromHeap(s, n), context)
  {
    DeleteFits(s, |fns|, Computeds(fns), n);
  }

  /** Writing flags or heights keeps the invariant. */
  lemma LevelsKeepGood(fns: seq<Option<Fn>>, value: seq<Value>, w: Wiring, l: Lists, s: Sched, context: Option<NodeId>,
                       f: seq<Flags>, h: seq<nat>)
    requires Good(fns, value, w, l, s, context) && |f| == |fns| && |h| == |fns|
    ensures Good(fns, value, w, l, s.(flags := f, height := h), context)
  {
    FitsIgnoresLevels(s, |fns|, Computeds(fns), f, h);
  }

  /** What recompute's notification needs, as SetSignalKeepsGood for
      setSignal. */
  lemma NotifyKeepsGood(fns: seq<Option<Fn>>, value: seq<Value>, w: Wiring, l: Lists, s: Sched, context: Option<NodeId>,
                        el: NodeId, v: Value)
    requires Good(fns, value, w, l, s, context) && el < |fns|
    ensures var ns := Subscribers(Join(w, l), el);
            && el < |w.subs| && w.subs[el] == First(l.subList[el]) && Threaded(l.subList[el], w.subPtrs)
            && |ns| == |l.subList[el]| && AllBelow(ns, |s.flags|)
            && (forall i :: 0 <= i < |ns| ==> l.subList[el][i] < |w.sub| && w.sub[l.subList[el][i]] == ns[i])
            && Good(fns, value[el := v], w, l, NotifyAll(s, ns), context)
  {
    var e := Join(w, l);
    var ns := Subscribers(e, el);
    assert SubsOk(e, el);
    NotifyAllFits(s, |fns|, Computeds(fns), ns);
  }

  /** A bucket head is a computed. */
  lemma HeadIsComputed(fns: seq<Option<Fn>>, value: seq<Value>, w: Wiring, l: Lists, s: Sched, context: Option<NodeId>,
                       h: nat)
    requires Good(fns, value, w, l, s, context) && At(s.heap, h).Some?
    ensures At(s.heap, h).value < |fns| && fns[At(s.heap, h).value].Some?
  {
    assert At(s.heap, h).value in Computeds(fns);
  }

  /** The pointers the evaluator follows name existing links: a `deps`
      head, and the `nextDep` of a link; the `dep` of a link is a node. */
  lemma CursorBounds(fns: seq<Option<Fn>>, value: seq<Value>, w: Wiring, l: Lists, s: Sched, context: Option<NodeId>,
                     n: NodeId, y: LinkId)
    requires Good(fns, value, w, l, s, context) && n < |fns|
    ensures n < |w.deps| && (w.deps[n].Some? ==> w.deps[n].value < |w.dep|)
    ensures y < |w.dep| ==> y < |w.depPtrs.next| && w.dep[y] < |fns| &&
                            (w.depPtrs.next[y].Some? ==> w.depPtrs.next[y].value < |w.dep|)
  {
    assert DepsOk(Join(w, l), n);
  }

  /** The invariant of recompute's pruning loop: the engine invariant,
      links neither added nor retargeted, the cursor at the first
      unconfirmed link of n, and the pruning still ending where it would
      have from e0. */
  ghost predicate Pruning(fns: seq<Option<Fn>>, value: seq<Value>, w: Wiring, l: Lists, s: Sched, context: Option<NodeId>,
                          n: NodeId, e0: Edges, cursor: Option<LinkId>)
  {
    && Good(fns, value, w, l, s, context) && n < |fns| && n < |l.confirmed|
    && EdgesOk(e0) && n < |e0.depList| && w.dep == e0.dep && w.sub == e0.sub
    && cursor == Unconfirmed(Join(w, l), n)
    && PruneAll(Join(w, l), n) == PruneAll(e0, n)
  }

  /** The loop starts from `depsTail.nextDep`, or `deps` when depsTail is
      null. */
  lemma PruningStart(fns: seq<Option<Fn>>, value: seq<Value>, w: Wiring, l: Lists, s: Sched, context: Option<NodeId>,
                     n: NodeId)
    requires Good(fns, value, w, l, s, context) && n < |fns|
    ensures n < |w.depsTail| && n < |w.deps|
    ensures w.depsTail[n].Some? ==> w.depsTail[n].value < |w.depPtrs.next|
    ensures Pruning(fns, value, w, l, s, context, n, Join(w, l),
                    if w.depsTail[n].Some? then w.depPtrs.next[w.depsTail[n].value] else w.deps[n])
  {
    UnconfirmedCursor(Join(w, l), n);
  }

  /** The arguments of unlink for the cursor. */
  lemma PruningArgs(fns: seq<Option<Fn>>, value: seq<Value>, w: Wiring, l: Lists, s: Sched, context: Option<NodeId>,
                    n: NodeId, e0: Edges, cursor: Option<LinkId>)
    requires Pruning(fns, value, w, l, s, context, n, e0, cursor) && cursor.Some?
    ensures var x := cursor.value;
            && x < |w.dep| && w.dep[x] < |l.subList| && x in l.subList[w.dep[x]]
            && RemoveArgs(Join(w, l), x, l.confirmed[n], IndexOf(l.subList[w.dep[x]], x))
  {
    PruneTurn(Join(w, l), n);
  }

  /** One turn: unlinking the cursor and moving to its old nextDep keeps
      the loop invariant and shortens what is left to prune. */
  lemma PruningStep(fns: seq<Option<Fn>>, value: seq<Value>, w: Wiring, l: Lists, s: Sched, context: Option<NodeId>,
                    n: NodeId, e0: Edges, cursor: Option<LinkId>, w': Wiring, l': Lists)
    requires Pruning(fns, value, w, l, s, context, n, e0, cursor) && cursor.Some?
    requires cursor.value < |w.dep| && w.dep[cursor.value] < |l.subList| && cursor.value in l.subList[w.dep[cursor.value]]
    requires RemoveArgs(Join(w, l), cursor.value, l.confirmed[n], IndexOf(l.subList[w.dep[cursor.value]], cursor.value))
    requires Join(w', l') == Remove(Join(w, l), cursor.value, l.confirmed[n], IndexOf(l.subList[w.dep[cursor.value]], cursor.value))
    ensures cursor.value < |w.depPtrs.next|
    ensures Pruning(fns, value, w', l', s, context, n, e0, w.depPtrs.next[cursor.value])
    ensures 0 <= |l'.depList[n]| - l'.confirmed[n] < |l.depList[n]| - l.confirmed[n]
  {
    PruneTurn(Join(w, l), n);
    PruneKeepsGood(fns, value, w, l, s, context, n, w', l');
  }

  /** Once the cursor is null nothing is left to prune. */
  lemma PruningEnd(fns: seq<Option<Fn>>, value: seq<Value>, w: Wiring, l: Lists, s: Sched, context: Option<NodeId>,
                   n: NodeId, e0: Edges)
    requires Pruning(fns, value, w, l, s, context, n, e0, None)
    ensures Join(w, l) == PruneAll(e0, n)
  {
    assert DepsOk(Join(w, l), n);
  }
}
