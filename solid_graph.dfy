/** The adjacency of the Solid-style baseline (test/bench/queue.ts): every
    computation keeps the nodes it read in `sources`, and for each of them
    the position it occupies in that source's `observers` (`sourceSlots`);
    every node keeps its readers in `observers`, and for each of them the
    position of the matching entry in the reader's `sources`
    (`observerSlots`).  The four parallel arrays of all nodes are one value
    here, and this module proves that the two operations that change them,
    the push of readSignal and the swap-remove of cleanNode, keep the two
    sides pointing at each other. */
module SolidGraph {
  import opened Common

  type NodeId = nat

  datatype Graph = Graph(
    sources: seq<seq<NodeId>>,
    sourceSlots: seq<seq<nat>>,
    observers: seq<seq<NodeId>>,
    observerSlots: seq<seq<nat>>)

  /** N nodes, each array paired with its slot array, every id a node. */
  ghost predicate Sized(g: Graph, N: nat)
  {
    && |g.sources| == N && |g.sourceSlots| == N && |g.observers| == N && |g.observerSlots| == N
    && (forall c :: 0 <= c < N ==> |g.sources[c]| == |g.sourceSlots[c]|)
    && (forall s :: 0 <= s < N ==> |g.observers[s]| == |g.observerSlots[s]|)
    && (forall c, k :: 0 <= c < N && 0 <= k < |g.sources[c]| ==> g.sources[c][k] < N)
    && (forall s, j :: 0 <= s < N && 0 <= j < |g.observers[s]| ==> g.observers[s][j] < N)
  }

  /** Entry k of c's sources is found, pointing back, at the observer slot
      it records. */
  ghost predicate SourceBack(g: Graph, c: NodeId, k: nat)
    requires c < |g.sources| && c < |g.sourceSlots| && k < |g.sources[c]| && k < |g.sourceSlots[c]|
    requires |g.observers| == |g.observerSlots| && g.sources[c][k] < |g.observers|
  {
    var s := g.sources[c][k];
    var j := g.sourceSlots[c][k];
    j < |g.observers[s]| && j < |g.observerSlots[s]| && g.observers[s][j] == c && g.observerSlots[s][j] == k
  }

  /** Entry j of s's observers is found, pointing back, at the source slot
      it records. */
  ghost predicate ObserverBack(g: Graph, s: NodeId, j: nat)
    requires s < |g.observers| && s < |g.observerSlots| && j < |g.observers[s]| && j < |g.observerSlots[s]|
    requires |g.sources| == |g.sourceSlots| && g.observers[s][j] < |g.sources|
  {
    var o := g.observers[s][j];
    var k := g.observerSlots[s][j];
    k < |g.sources[o]| && k < |g.sourceSlots[o]| && g.sources[o][k] == s && g.sourceSlots[o][k] == j
  }

  /** The slot cross-reference invariant of the baseline: both sides of
      every edge point at each other. */
  ghost predicate SlotsOk(g: Graph, N: nat)
  {
    && Sized(g, N)
    && (forall c, k {:trigger SourceBack(g, c, k)} :: 0 <= c < N && 0 <= k < |g.sources[c]| ==> SourceBack(g, c, k))
    && (forall s, j {:trigger ObserverBack(g, s, j)} :: 0 <= s < N && 0 <= j < |g.observers[s]| ==> ObserverBack(g, s, j))
  }

  /** No node has an edge yet. */
  function Empty(N: nat): (g: Graph)
    ensures SlotsOk(g, N)
  {
    Graph(seq(N, _ => []), seq(N, _ => []), seq(N, _ => []), seq(N, _ => []))
  }

  /** A fresh node without edges is appended. */
  function AddNode(g: Graph): (r: Graph)
  {
    Graph(g.sources + [[]], g.sourceSlots + [[]], g.observers + [[]], g.observerSlots + [[]])
  }

  lemma AddNodeKeepsSlots(g: Graph, N: nat)
    requires SlotsOk(g, N)
    ensures SlotsOk(AddNode(g), N + 1)
    ensures AddNode(g).sources == g.sources + [[]] && AddNode(g).observers == g.observers + [[]]
  {
    var r := AddNode(g);
    forall c, k | 0 <= c < N + 1 && 0 <= k < |r.sources[c]| ensures SourceBack(r, c, k) {
      assert SourceBack(g, c, k);
    }
    forall s, j | 0 <= s < N + 1 && 0 <= j < |r.observers[s]| ensures ObserverBack(r, s, j) {
      assert ObserverBack(g, s, j);
    }
  }

  /** readSignal under a Listener c reading n (test/bench/queue.ts:147-153):
      n is pushed on c's sources with n's current observer count as its
      slot, and c on n's observers with the position of the new source
      entry as its slot. */
  function Track(g: Graph, c: NodeId, n: NodeId): (r: Graph)
    requires c < |g.sources| && c < |g.sourceSlots| && n < |g.observers| && n < |g.observerSlots|
  {
    var slot := |g.observers[n]|;
    var g1 := g.(sources := g.sources[c := g.sources[c] + [n]],
                 sourceSlots := g.sourceSlots[c := g.sourceSlots[c] + [slot]]);
    g1.(observers := g1.observers[n := g1.observers[n] + [c]],
        observerSlots := g1.observerSlots[n := g1.observerSlots[n] + [|g1.sources[c]| - 1]])
  }

  /** Tracking adds exactly one edge, the new entries on the two sides
      point at each other, and the invariant keeps holding. */
  lemma TrackKeepsSlots(g: Graph, N: nat, c: NodeId, n: NodeId)
    requires SlotsOk(g, N) && c < N && n < N
    ensures var r := Track(g, c, n);
            var k := |g.sources[c]|;
            && SlotsOk(r, N)
            && r.sources == g.sources[c := g.sources[c] + [n]]
            && r.observers == g.observers[n := g.observers[n] + [c]]
            && r.sourceSlots[c][k] == |g.observers[n]|
            && r.observers[n][r.sourceSlots[c][k]] == c && r.observerSlots[n][r.sourceSlots[c][k]] == k
  {
    var r := Track(g, c, n);
    var k := |g.sources[c]|;
    var j0 := |g.observers[n]|;
    assert r.sources[c] == g.sources[c] + [n] && r.sourceSlots[c] == g.sourceSlots[c] + [j0];
    assert r.observers[n] == g.observers[n] + [c] && r.observerSlots[n] == g.observerSlots[n] + [k];
    forall x, i | 0 <= x < N && 0 <= i < |r.sources[x]| ensures SourceBack(r, x, i) {
      if x == c && i == k {
      } else {
        assert r.sources[x][i] == g.sources[x][i] && r.sourceSlots[x][i] == g.sourceSlots[x][i];
        assert SourceBack(g, x, i);
        var s := g.sources[x][i];
        var j := g.sourceSlots[x][i];
        assert r.observers[s][j] == g.observers[s][j] && r.observerSlots[s][j] == g.observerSlots[s][j];
      }
    }
    forall s, j | 0 <= s < N && 0 <= j < |r.observers[s]| ensures ObserverBack(r, s, j) {
      if s == n && j == j0 {
      } else {
        assert r.observers[s][j] == g.observers[s][j] && r.observerSlots[s][j] == g.observerSlots[s][j];
        assert ObserverBack(g, s, j);
        var o := g.observers[s][j];
        var i := g.observerSlots[s][j];
        assert r.sources[o][i] == g.sources[o][i] && r.sourceSlots[o][i] == g.sourceSlots[o][i];
      }
    }
  }

  /** Under the invariant the two adjacency directions agree: o observes s
      exactly when s is one of o's sources. */
  lemma {:induction false} ObservesIffSource(g: Graph, N: nat, s: NodeId, o: NodeId)
    requires SlotsOk(g, N) && s < N && o < N
    ensures o in g.observers[s] <==> s in g.sources[o]
  {
    if o in g.observers[s] {
      var j :| 0 <= j < |g.observers[s]| && g.observers[s][j] == o;
      assert ObserverBack(g, s, j);
      assert g.sources[o][g.observerSlots[s][j]] == s;
    }
    if s in g.sources[o] {
      var k :| 0 <= k < |g.sources[o]| && g.sources[o][k] == s;
      assert SourceBack(g, o, k);
      assert g.observers[s][g.sourceSlots[o][k]] == o;
    }
  }

  /** A node without sources observes nothing. */
  lemma Unobserving(g: Graph, N: nat, o: NodeId)
    requires SlotsOk(g, N) && o < N && g.sources[o] == []
    ensures forall s :: 0 <= s < N ==> o !in g.observers[s]
  {
    forall s | 0 <= s < N ensures o !in g.observers[s] {
      ObservesIffSource(g, N, s, o);
    }
  }

  /** One turn of cleanNode's loop (test/bench/queue.ts:334-346): the last
      source entry of `node` is popped, and the last observer of that source
      is popped and, unless it was the entry of `node` itself, moved into
      the vacated observer slot, with its own source slot updated. */
  function PopSource(g: Graph, N: nat, node: NodeId): (r: Graph)
    requires SlotsOk(g, N) && node < N && |g.sources[node]| > 0
  {
    var k := |g.sources[node]| - 1;
    var source := g.sources[node][k];
    var index: nat := g.sourceSlots[node][k];
    var g1 := g.(sources := g.sources[node := g.sources[node][..k]],
                 sourceSlots := g.sourceSlots[node := g.sourceSlots[node][..k]]);
    var obs := g1.observers[source];
    if |obs| == 0 then g1
    else
      var last := |obs| - 1;
      var n: nat := obs[last];
      var s: nat := g1.observerSlots[source][last];
      var g2 := g1.(observers := g1.observers[source := obs[..last]],
                    observerSlots := g1.observerSlots[source := g1.observerSlots[source][..last]]);
      if index < last then
        assert SourceBack(g, node, k);
        PopMovedSlot(g, N, node);
        var slots: seq<nat> := g2.sourceSlots[n][s := index];
        var moved: seq<NodeId> := g2.observers[source][index := n];
        var movedSlots: seq<nat> := g2.observerSlots[source][index := s];
        g2.(sourceSlots := g2.sourceSlots[n := slots],
            observers := g2.observers[source := moved],
            observerSlots := g2.observerSlots[source := movedSlots])
      else g2
  }

  /** The observer moved by a pop still has its source entry after the
      pop (it is not the popped entry of `node`). */
  lemma PopMovedSlot(g: Graph, N: nat, node: NodeId)
    requires SlotsOk(g, N) && node < N && |g.sources[node]| > 0
    ensures var k := |g.sources[node]| - 1;
            var source := g.sources[node][k];
            var index := g.sourceSlots[node][k];
            var last := |g.observers[source]| - 1;
            last >= 0 &&
            (index < last ==>
              var n := g.observers[source][last];
              var s := g.observerSlots[source][last];
              && n < N && s < |g.sources[n]| && g.sources[n][s] == source && g.sourceSlots[n][s] == last
              && (n == node ==> s < k))
  {
    var k := |g.sources[node]| - 1;
    assert SourceBack(g, node, k);
    var source := g.sources[node][k];
    var last := |g.observers[source]| - 1;
    assert ObserverBack(g, source, last);
  }

  /** A pop takes the last source entry off `node`, leaves every other
      node's sources alone, and keeps the invariant. */
  lemma PopSourceKeepsSlots(g: Graph, N: nat, node: NodeId)
    requires SlotsOk(g, N) && node < N && |g.sources[node]| > 0
    ensures SlotsOk(PopSource(g, N, node), N)
    ensures PopSource(g, N, node).sources == g.sources[node := g.sources[node][..|g.sources[node]| - 1]]
  {
    var k := |g.sources[node]| - 1;
    PopMovedSlot(g, N, node);
    var r := PopSource(g, N, node);
    PopSized(g, N, node, r);
    if g.sourceSlots[node][k] < |g.observers[g.sources[node][k]]| - 1 {
      PopMovedSources(g, N, node, r);
      PopMovedObservers(g, N, node, r);
      assert SlotsOk(r, N);
    } else {
      PopLastSources(g, N, node, r);
      PopLastObservers(g, N, node, r);
      assert SlotsOk(r, N);
    }
  }

  /** The pop keeps the sizes and ranges. */
  lemma PopSized(g: Graph, N: nat, node: NodeId, r: Graph)
    requires SlotsOk(g, N) && node < N && |g.sources[node]| > 0 && r == PopSource(g, N, node)
    ensures Sized(r, N) && r.sources == g.sources[node := g.sources[node][..|g.sources[node]| - 1]]
  {
    var k := |g.sources[node]| - 1;
    assert SourceBack(g, node, k);
    PopMovedSlot(g, N, node);
    var source := g.sources[node][k];
    forall c, i | 0 <= c < N && 0 <= i < |r.sources[c]| ensures r.sources[c][i] < N {
      assert r.sources[c][i] == g.sources[c][i];
    }
    forall x, j | 0 <= x < N && 0 <= j < |r.observers[x]| ensures r.observers[x][j] < N {
      if x != source || r.observers[x][j] == g.observers[x][j] {
      } else {
        assert r.observers[x][j] == g.observers[x][|g.observers[x]| - 1];
      }
    }
  }

  /** The source side of the invariant after a pop that moves an observer. */
  lemma PopMovedSources(g: Graph, N: nat, node: NodeId, r: Graph)
    requires SlotsOk(g, N) && node < N && |g.sources[node]| > 0 && r == PopSource(g, N, node)
    requires g.sourceSlots[node][|g.sources[node]| - 1] < |g.observers[g.sources[node][|g.sources[node]| - 1]]| - 1
    ensures Sized(r, N) && forall c, i {:trigger SourceBack(r, c, i)} :: 0 <= c < N && 0 <= i < |r.sources[c]| ==> SourceBack(r, c, i)
  {
    var k := |g.sources[node]| - 1;
    assert SourceBack(g, node, k);
    PopMovedSlot(g, N, node);
    PopSized(g, N, node, r);
    var source := g.sources[node][k];
    var index: nat := g.sourceSlots[node][k];
    var last := |g.observers[source]| - 1;
    var n := g.observers[source][last];
    var s := g.observerSlots[source][last];
    assert r.observers[source] == g.observers[source][..last][index := n];
    assert r.observerSlots[source] == g.observerSlots[source][..last][index := s];
    forall c, i | 0 <= c < N && 0 <= i < |r.sources[c]| ensures SourceBack(r, c, i) {
      assert r.sources[c][i] == g.sources[c][i];
      assert SourceBack(g, c, i);
      var x := g.sources[c][i];
      var j := g.sourceSlots[c][i];
      if c == n && i == s {
        assert r.sourceSlots[c][i] == index;
      } else {
        assert r.sourceSlots[c][i] == j;
        if x == source {
          assert j != last && j != index by {
            assert ObserverBack(g, source, last);
          }
          assert r.observers[x][j] == g.observers[x][j];
        }
      }
    }
  }

  /** The observer side of the invariant after a pop that moves an observer. */
  lemma PopMovedObservers(g: Graph, N: nat, node: NodeId, r: Graph)
    requires SlotsOk(g, N) && node < N && |g.sources[node]| > 0 && r == PopSource(g, N, node)
    requires g.sourceSlots[node][|g.sources[node]| - 1] < |g.observers[g.sources[node][|g.sources[node]| - 1]]| - 1
    ensures Sized(r, N) && forall x, j {:trigger ObserverBack(r, x, j)} :: 0 <= x < N && 0 <= j < |r.observers[x]| ==> ObserverBack(r, x, j)
  {
    var k := |g.sources[node]| - 1;
    assert SourceBack(g, node, k);
    PopMovedSlot(g, N, node);
    PopSized(g, N, node, r);
    var source := g.sources[node][k];
    var index: nat := g.sourceSlots[node][k];
    var last := |g.observers[source]| - 1;
    var n := g.observers[source][last];
    var s := g.observerSlots[source][last];
    assert r.observers[source] == g.observers[source][..last][index := n];
    assert r.observerSlots[source] == g.observerSlots[source][..last][index := s];
    forall x, j | 0 <= x < N && 0 <= j < |r.observers[x]| ensures ObserverBack(r, x, j) {
      if x == source && j == index {
        assert r.observers[x][j] == n && r.observerSlots[x][j] == s;
      } else {
        assert r.observers[x][j] == g.observers[x][j] && r.observerSlots[x][j] == g.observerSlots[x][j];
        assert ObserverBack(g, x, j);
        var o := g.observers[x][j];
        var i := g.observerSlots[x][j];
        assert !(o == node && i == k);
        assert !(o == n && i == s) by {
          assert ObserverBack(g, source, last);
        }
        assert r.sources[o][i] == g.sources[o][i] && r.sourceSlots[o][i] == g.sourceSlots[o][i];
      }
    }
  }

  /** The source side of the invariant after a pop of the node's own entry
      in the last observer slot. */
  lemma PopLastSources(g: Graph, N: nat, node: NodeId, r: Graph)
    requires SlotsOk(g, N) && node < N && |g.sources[node]| > 0 && r == PopSource(g, N, node)
    requires g.sourceSlots[node][|g.sources[node]| - 1] >= |g.observers[g.sources[node][|g.sources[node]| - 1]]| - 1
    ensures Sized(r, N) && forall c, i {:trigger SourceBack(r, c, i)} :: 0 <= c < N && 0 <= i < |r.sources[c]| ==> SourceBack(r, c, i)
  {
    var k := |g.sources[node]| - 1;
    assert SourceBack(g, node, k);
    PopMovedSlot(g, N, node);
    PopSized(g, N, node, r);
    var source := g.sources[node][k];
    var last := |g.observers[source]| - 1;
    assert r.observers[source] == g.observers[source][..last];
    forall c, i | 0 <= c < N && 0 <= i < |r.sources[c]| ensures SourceBack(r, c, i) {
      assert r.sources[c][i] == g.sources[c][i] && r.sourceSlots[c][i] == g.sourceSlots[c][i];
      assert SourceBack(g, c, i);
      var j := g.sourceSlots[c][i];
      if g.sources[c][i] == source {
        assert j != last by {
          assert ObserverBack(g, source, last);
        }
      }
    }
  }

  /** The observer side of the invariant after a pop of the node's own
      entry in the last observer slot. */
  lemma PopLastObservers(g: Graph, N: nat, node: NodeId, r: Graph)
    requires SlotsOk(g, N) && node < N && |g.sources[node]| > 0 && r == PopSource(g, N, node)
    requires g.sourceSlots[node][|g.sources[node]| - 1] >= |g.observers[g.sources[node][|g.sources[node]| - 1]]| - 1
    ensures Sized(r, N) && forall x, j {:trigger ObserverBack(r, x, j)} :: 0 <= x < N && 0 <= j < |r.observers[x]| ==> ObserverBack(r, x, j)
  {
    var k := |g.sources[node]| - 1;
    assert SourceBack(g, node, k);
    PopMovedSlot(g, N, node);
    PopSized(g, N, node, r);
    var source := g.sources[node][k];
    var last := |g.observers[source]| - 1;
    assert r.observers[source] == g.observers[source][..last];
    assert r.observerSlots[source] == g.observerSlots[source][..last];
    forall x, j | 0 <= x < N && 0 <= j < |r.observers[x]| ensures ObserverBack(r, x, j) {
      assert r.observers[x][j] == g.observers[x][j] && r.observerSlots[x][j] == g.observerSlots[x][j];
      assert ObserverBack(g, x, j);
      var o := g.observers[x][j];
      var i := g.observerSlots[x][j];
      assert !(o == node && i == k);
      assert r.sources[o][i] == g.sources[o][i] && r.sourceSlots[o][i] == g.sourceSlots[o][i];
    }
  }
}
