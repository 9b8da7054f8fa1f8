# r3 reactive core, modelled in Dafny

r3 is a fine-grained reactive library. Signals hold values. Computeds are
functions of the signals and computeds they read. When a signal changes,
the library re-runs exactly the computeds whose inputs changed. The
repository has two engines, and both are modelled here:

* **The height-scheduled engine** (`src/index.ts`). Every computed has a
  height, which is above the heights of the computeds it reads.
  - A dirty computed is queued in the bucket of its height in `heap`: a
    ring of nodes threaded through `nextHeap`/`prevHeap`.
  - `stabilize` drains the buckets from low to high, and `recompute`
    re-runs one computed.
  - Dependencies are `Link` records, threaded into two intrusive
    doubly-linked lists: `deps` of the reader and `subs` of the producer.
  - A recompute walks its old dependency list in order and keeps the
    links it reads again. It splices in new ones at a cursor (`depsTail`)
    and unlinks what is left past the cursor.
  - `read` inside a recompute links the edge and raises the reader's
    height. It brings a stale computed up to date on the spot
    (`markHeap`, `markNode`, `updateIfNecessary`).
* **The Solid-style baseline** (`test/bench/queue.ts`). This is the
  queue-based algorithm the benchmarks compare against.
  - Nodes keep `sources`/`observers` arrays cross-referenced by slot
    indices.
  - A write marks direct observers STALE and everything further
    downstream PENDING. It queues pure computations on `Updates` and
    effects on `Effects`, then runs the queues with `runTop`.
  - `runTop` walks up the owner chain, updates stale ancestors first and
    resolves pending ones with `lookUpstream`.

## Module layout

| module | file | contents |
|---|---|---|
| `Common` | common.dfy | `Option`, `Distinct`, `RemoveAt`, `IndexOf` |
| `LinkList` | link_list.dfy | the `prevDep/nextDep` (or `prevSub/nextSub`) pointers of all links as `Ptrs`, and the abstract list they thread |
| `EdgeStore` | edge_store.dfy | `link`, `unlink`, pruning and `subs` walks as functions on `Edges`: pointers joined with the ghost lists `depList`, `subList` and the cursor `confirmed` |
| `HeapRing` | heap_ring.dfy | one height bucket as a ring; insertion and deletion |
| `Scheduler` | scheduler.dfy | flags (`bv8`, the `ReactiveFlags` bits), heights and all buckets as `Sched`; `insertIntoHeap`, `deleteFromHeap`, the notify loop of `recompute`, the height raise of `read` |
| `Marking` | marking.dfy | what `markNode`/`markHeap` may do to the flags |
| `EngineSpec` | engine_spec.dfy | `markNode` and `markHeap` as functions on the engine's state (`Snapshot`), and what marking promises, proved on those functions |
| `EngineState` | engine_state.dfy | values, the `fn` closure as a decision tree (`Fn`), its evaluation `Go`/`Run`, and the invariant `Good` of the engine |
| `Quiet` | quiet.dfy | what a run of the engine does when no read recomputes anything ("quiet"): `QuietStep` for one recompute, `QuietDrain` for a bucket and `QuietStabilize` for a whole `stabilize`, as functions on the engine's state |
| `Reactive` | engine.dfy | class `Engine`: every function of `src/index.ts` as a method on the engine's fields |
| `SolidGraph` | solid_graph.dfy | the four slot arrays of the baseline (`sources`, `sourceSlots`, `observers`, `observerSlots`); `Track` (the push in `readSignal`) and `PopSource` (one step of `cleanNode`) |
| `SolidState` | solid_state.dfy | node records, comparators, the invariant `Good`, and what a marking pass may do to the states and queues (`MarkPass`, `StalePass`) |
| `Scenario` | scenario.dfy | the test of test/basic.test.ts:11-41, proved from the contracts of `Engine` |
| `Solid` | solid.dfy | class `Runtime`: every function of `test/bench/queue.ts` as a method on the node records and the globals `Listener`, `Owner`, `Updates`, `Effects`, `ExecCount` |

A node's `fn` is a value of `EngineState.Fn`. This is a finite decision
tree: each step `Read(dep, test, onTrue, onFalse)` reads a node and
branches on the value read, and `Return(result)` computes the value from
everything read so far. Running it calls `read` (or `readSignal`) on the
model itself, so the nesting of `read` inside `recompute` inside `read` is
modelled as the code performs it. Each engine keeps a ghost log of the
values stored by recomputes, in order: `trace` in the engine (the
computeds recomputed) and `writes` in the baseline (the computations whose
value was committed). Only computeds (computations) are ever logged, and a
node not logged keeps its value, so no run changes a signal. A run returns
the values it read (`vals`), the nodes it read them from (`path`) and the
log positions of the reads (`at`). Each value read is what its node holds
at the end, unless that node was logged after the read. A fn only
reads: it cannot write a signal, create a node or call `untrack` (see
"Left out"). Every
re-entrant method takes a `gas: nat` budget. `ok == false` means the
budget ran out, which stands for the divergence a cyclic graph would
cause.

`computed(fn)` does not run `fn`: it only puts the new node, holding
`undefined`, into the bucket of height 0 (src/index.ts:80-98). The next
`stabilize` runs it.

## Model

| member | source | states |
|---|---|---|
| Reactive.Engine.constructor | src/index.ts:33-38 | the globals start out: no nodes, 2000 empty buckets, `markedHeap` false, no context, both heights 0; the invariant holds |
| Reactive.Engine.IncreaseHeapSize | src/index.ts:39-43 | the bucket array grows to `n` only when `n` is larger; every bucket keeps its content and nothing else changes |
| Scheduler.InsertIntoHeap | src/index.ts:45-62 | afterwards the node is Pushed, no other node's flags change, and heights are unchanged; `maxHeightInHeap` never shrinks and covers a node that was not yet queued; buckets above the maximum stay empty |
| Scheduler.InsertKeepsWf | src/index.ts:45-62 | inserting an already Pushed node is a no-op; otherwise the rings stay well formed, with the node appended at the tail of its height's ring |
| HeapRing.InsertAppends | src/index.ts:50-58 | inserting a node that is not in a ring makes it the ring's last element, and leaves every node outside the ring untouched |
| Reactive.Engine.InsertIntoHeap | src/index.ts:45-62 | the engine's scheduler state becomes exactly the insertion function applied to the old state |
| Scheduler.DeleteFromHeap | src/index.ts:64-78 | afterwards the node is not Pushed and points to itself both ways; other flags, heights and `maxHeightInHeap` are unchanged |
| Scheduler.DeleteKeepsWf | src/index.ts:64-78 | deleting a queued node removes it from its own ring and keeps the rings well formed; deleting one that is not queued only clears its Pushed bit |
| HeapRing.DeleteRemoves | src/index.ts:66-76 | deleting element k of a ring leaves the ring without that element and the node self-linked |
| HeapRing.DeleteAbsentIsNoOp | src/index.ts:66-76 | deleting a self-linked node that is not in the ring changes nothing |
| HeapRing.RingWalkStep | src/index.ts:305-308 | walking `nextHeap` from the head visits the ring's elements in order and returns to the head exactly after the last one |
| Reactive.Engine.DeleteFromHeap | src/index.ts:64-78 | the engine's scheduler state becomes exactly the deletion function applied to the old state |
| Reactive.Engine.NewComputed | src/index.ts:80-98 | a fresh id is returned; the node's value is undefined and it has no edges; it is self-linked with height 0 and then inserted into the heap |
| Reactive.Engine.NewSignal | src/index.ts:100-107 | a fresh id with the given value and no edges is returned; the scheduler only grows by an idle entry |
| Reactive.Engine.Recompute | src/index.ts:109-136 | context is restored; only computeds are recomputed, and every node not recomputed keeps its value, so signals keep theirs; when the budget suffices the node is the last one logged, its stored value is what its `fn` returns on the values read from `path`, each the value its node holds unless that node was recomputed after the read, and the dependency cursor covers the whole dependency list (nothing stale left behind); when every read is quiet the new state is exactly `Quiet.QuietStep` of the old one |
| Reactive.Engine.RecomputeRun | src/index.ts:115-135 | the run of `fn` and the end of `recompute`, with the same promises as `Recompute`, the context ending as the one saved at the start; given the state `Quiet.Started` made from the state before the start, when every read is quiet the end state is exactly `Quiet.QuietStep` of that earlier state |
| Reactive.Engine.RecomputeStart | src/index.ts:110-114 | the node becomes the context and leaves the heap with flags None; its dependency cursor is reset to the start and no link is removed; the new state is exactly `Quiet.Started` of the old one |
| EdgeStore.Restart | src/index.ts:113 | resetting `depsTail` keeps all lists and links and sets the node's cursor to 0 |
| Reactive.Engine.RunFn | src/index.ts:115 | when the budget suffices the value returned is the decision tree's result on the values read; `path` is the list of nodes the tree reads for those values, and each value read is what its node holds unless that node was recomputed after the read; only computeds are recomputed; when every read of the tree is quiet (`Quiet.QuietFn`), the run reads exactly the walk of the tree over the current values, changes no value, logs nothing, and its links and height raises are exactly `LinkAll` and `RaiseAll` over that walk |
| Reactive.Engine.RunRead | src/index.ts:115 | one read step of the tree: the node read heads `path`, the value read heads `vals`, and the branch the test picks runs on it, with the promises of `RunFn`; a quiet read followed by a quiet branch is a quiet run |
| Reactive.Engine.ReadStepOf | src/index.ts:115 | the read inside `fn`'s `get`: the value returned is the node's current value, the context is kept, no link disappears, the schedule only grows, only computeds are recomputed and logged, and a quiet read ends exactly in `Quiet.ReadStep` |
| EngineState.ReadsStayCurrent | src/index.ts:115 | a value that was current when read stays current across later recomputes of other nodes |
| EngineState.GoPrefixFree | src/index.ts:115 | a decision tree consumes exactly one sequence of read values: no completed run is a proper prefix of another |
| EngineState.GoPath | src/index.ts:115 | a completed run reads exactly as many values as its path through the tree is long |
| Reactive.Engine.RecomputeFinish | src/index.ts:116-135 | every link after the cursor is unlinked, so the node's dependency list is exactly the part confirmed by this run; the old context is restored and the new value stored |
| Reactive.Engine.Prune | src/index.ts:117-121 | the edges become exactly the pruning function applied to the old edges |
| EdgeStore.PruneAllEffect | src/index.ts:117-121 | pruning cuts the node's dependency list to its confirmed prefix; each removed link also leaves its producer's `subs`; other nodes' dependency lists are untouched |
| Reactive.Engine.Settle | src/index.ts:123-135 | an unchanged value leaves value and scheduler alone; a changed value is stored and every subscriber is notified, in list order |
| Reactive.Engine.NotifySubscribers | src/index.ts:127-134 | walking `subs` notifies exactly the subscribers of the node, in order |
| Scheduler.NotifyAllFlags | src/index.ts:127-134 | after notifying, every subscriber is Pushed; a subscriber that had Check now has Dirty too; no flag bit is lost; non-subscribers are untouched; the maximum height never shrinks |
| Scheduler.Escalate | src/index.ts:130-132 | Check is escalated to Check and Dirty; flags without Check are unchanged; no bit is lost and Pushed is unaffected |
| Reactive.Engine.UpdateIfNecessary | src/index.ts:138-156 | when the budget suffices the node ends with flags None; the node is recomputed (ghost `recomputed`, and then it is the last one logged) exactly when the flags `decided` at the Dirty test have Dirty; a node without Check is decided on its flags on entry; an unmarked node changes nothing but its flags |
| Reactive.Engine.CheckDeps | src/index.ts:139-149 | a node without Check changes nothing; for a Check node only the frame is stated: the invariant and context are kept, heights only grow, and only computeds are recomputed |
| Reactive.Engine.RecomputeIfDirty | src/index.ts:150-155 | when the budget suffices the flags end None; the node is recomputed exactly when it was Dirty on entry, and is then the last one logged; a node not Dirty changes nothing but its flags |
| Reactive.Engine.ClearFlags | src/index.ts:155 | the node's flags become None and no other part of the schedule changes; the engine's invariant is kept |
| Reactive.Engine.UpdateDeps | src/index.ts:140-148 | the invariant and the context are kept; heights only grow; only computeds are recomputed and every node not recomputed keeps its value |
| Reactive.Engine.Unlink | src/index.ts:158-185 | the edges become exactly the unlink function applied to the old edges; the result is the old `nextDep` |
| EdgeStore.UnlinkRemoves | src/index.ts:158-185 | unlinking removes the link from its reader's `deps` and its producer's `subs`; the confirmed prefix is kept; every other list is untouched |
| EdgeStore.UnlinkKeepsOk | src/index.ts:158-185 | unlinking a live link past the cursor keeps pointers and abstract lists in agreement |
| LinkList.Detach | src/index.ts:164-183 | detaching rewires only the neighbours of the link |
| LinkList.DetachThreaded | src/index.ts:164-183 | detaching element k of a threaded list leaves the list without element k, still threaded |
| LinkList.DetachEnds | src/index.ts:164-183 | the head or tail pointer moves to the link's neighbour exactly when the link was the first or last element |
| Reactive.Engine.Link | src/index.ts:187-234 | the edges become exactly the link function applied to the old edges |
| EdgeStore.LinkConfirms | src/index.ts:187-234 | after linking, the producer is confirmed at the reader's cursor; the cursor advances by at most one; the confirmed prefix is unchanged |
| EdgeStore.LinkFrame | src/index.ts:187-234 | linking either reuses a link, leaving the lists unchanged, or creates one that is spliced in at the reader's cursor and appended to the producer's `subs`; nothing else changes |
| EdgeStore.LinkKeepsOk | src/index.ts:187-234 | linking keeps pointers and abstract lists in agreement |
| Reactive.Engine.AppendLink | src/index.ts:209-233 | the new link is spliced in exactly as the append function describes |
| EdgeStore.AppendConfirms | src/index.ts:210-233 | a new link is placed right at the cursor, which then advances by one; the prefix before it is unchanged |
| LinkList.SpliceIn | src/index.ts:210-228 | the new link points to its two neighbours and they point back to it; no other pointer changes |
| LinkList.SpliceInThreaded | src/index.ts:210-228 | splicing between elements k-1 and k of a threaded list gives the list with the new link inserted at k |
| Reactive.Engine.IsValidLink | src/index.ts:236-251 | the answer is true exactly when the link is in the confirmed prefix of the reader's dependency list |
| Reactive.Engine.Read | src/index.ts:253-271 | the value returned is the node's current value; only computeds are recomputed and every other node keeps its value; without a context nothing changes; with one, a signal only gets linked, and a computed gets linked, places the reader above it and is updated when it is at or above `stabilizeHeight` or marked; a quiet read of a node returns its value and only links it and raises the reader (`Quiet.ReadStep`) |
| Reactive.Engine.ReadComputed | src/index.ts:257-268 | the reader ends above the computed read; a computed at or above `stabilizeHeight` or marked ends with flags None when the budget suffices; one below and unmarked only has the reader raised; with every bucket up to the maximum empty and the node unflagged, only the reader is raised |
| Reactive.Engine.Refresh | src/index.ts:261-267 | `markHeap` then `updateIfNecessary`: when the budget suffices the node ends with flags None; with every bucket up to the maximum empty and the node unmarked, only its flags change, to None |
| Scheduler.Raise | src/index.ts:258-260 | the reader ends strictly above the node read; a raise happens only when needed and goes to exactly one above; no other height changes |
| Reactive.Engine.SetSignal | src/index.ts:273-283 | `markedHeap` is cleared; no change when the value is equal; otherwise the value is stored and exactly the signal's subscribers are inserted into the heap |
| Scheduler.InsertAll | src/index.ts:277-281 | every listed node is Pushed and every other node's flags are unchanged |
| EngineState.SetSignalKeepsGood | src/index.ts:273-283 | a signal write followed by inserting its subscribers keeps the engine's invariant |
| Reactive.Engine.MarkNode | src/index.ts:285-296 | only the flags change, and they become exactly `EngineSpec.MarkNode` of the old flags |
| Reactive.Engine.MarkSubscribers | src/index.ts:290-295 | only the flags change, and they become exactly `EngineSpec.MarkSubs` of the old flags from the list's start |
| EngineSpec.MarkNode | src/index.ts:285-296 | marking only adds flag bits and never raises the unmarked slack |
| EngineSpec.MarkNodeMarks | src/index.ts:285-296 | marking spreads at least Check to the subscribers of every node whose level rose, and the node reaches at least the requested level |
| EngineSpec.MarkNodeSteps | src/index.ts:287-293 | a node already at the requested level is left alone; otherwise it is raised and its subscribers are walked from the start |
| Marking.SlackGains | src/index.ts:285-296 | adding flag bits never increases the total unmarked slack and strictly decreases it when some level rises (why marking terminates) |
| Marking.Level | src/index.ts:287 | the Check/Dirty level is 0 exactly for unmarked flags |
| Reactive.Engine.MarkHeap | src/index.ts:298-311 | the new state is exactly `EngineSpec.MarkHeap` of the old one; `markedHeap` becomes true; a second call changes nothing; when the rings are well formed and the budget suffices, every queued node ends Dirty; with every bucket up to the maximum empty nothing changes |
| EngineSpec.MarkHeap | src/index.ts:298-311 | the invariant holds afterwards; `markedHeap` is true and only flags change, by gaining bits; once marked, a call changes nothing |
| Reactive.Engine.MarkBuckets | src/index.ts:301-310 | the flags and completion are exactly `EngineSpec.MarkBuckets` of the old flags from height 0; visiting every bucket up to the maximum height makes every Pushed node Dirty; with every bucket up to the maximum empty nothing changes |
| EngineSpec.MarkBucketsMarks | src/index.ts:301-310 | marks spread as `markNode` promises; with well-formed rings, enough budget completes every walk and each ring walked ends Dirty |
| Reactive.Engine.MarkRing | src/index.ts:302-309 | the flags and completion are exactly `EngineSpec.MarkRing` of the old flags from the head |
| EngineSpec.MarkRingMarks | src/index.ts:302-309 | marks spread as `markNode` promises; a walk of a well-formed ring completes with budget for its length and leaves every element Dirty |
| Marking.MarkHeapAll | src/index.ts:301-310 | if every ring up to the maximum height is Dirty throughout, then so is every Pushed node |
| Reactive.Engine.Stabilize | src/index.ts:313-323 | only computeds are recomputed, so every signal keeps its value; when the budget suffices all buckets from the maximum height up end empty, and `stabilizeHeight` ends one past the maximum; a run that makes `plan[h]` quiet recomputes at each height `h` ends in exactly the state `Quiet.QuietStabilize` gives |
| Reactive.Engine.DrainBucket | src/index.ts:319-321 | only computeds are recomputed; when the budget suffices the bucket at `stabilizeHeight` ends empty; when the bucket is drained by `k` quiet recomputes the end state is exactly `Quiet.QuietDrain` of the old one |
| Reactive.Engine.DrainLevel | src/index.ts:314-322 | one turn of the outer loop: when the budget suffices the bucket at `stabilizeHeight` ends empty and `stabilizeHeight` moves to the next height (otherwise it stays), and a turn that follows a quiet plan leaves `QuietStabilize` with the rest of the plan from the next height |
| Reactive.Engine.RecomputeHead | src/index.ts:319-321 | recomputing the head of the bucket: the first of `k` quiet recomputes leaves `QuietDrain` with the other `k - 1` |
| Quiet.QuietFnRaise | src/index.ts:258-260 | raising the reader keeps every read of its tree quiet |
| Quiet.QuietBranch | src/index.ts:253-271 | after a quiet read, the branch the value picks is still quiet |
| Quiet.WalkCons | src/index.ts:115 | the walk of a read node is its dependency followed by the walk of the branch its value picks, and the values read follow the same split |
| Quiet.QuietRunReturn | src/index.ts:115 | a leaf of the tree reads nothing and changes nothing |
| Quiet.QuietCons | src/index.ts:253-271 | a quiet read followed by a quiet run of the chosen branch is a quiet run of the whole tree, with the read prepended to the walk and the values |
| Quiet.ReadThenBranch | src/index.ts:253-271 | a quiet read step from `o` to `o1` followed by a quiet run of the branch from `o1` to `o2` is a quiet run of the whole tree from `o` to `o2` |
| Quiet.LinkAllCons | src/index.ts:187-234 | linking a walk links its first node and then the rest |
| Quiet.RaiseAllCons | src/index.ts:258-260 | raising over a walk raises for its first node and then the rest |
| Quiet.QuietFinishIs | src/index.ts:116-135 | a quiet run that returns `v` ends the recompute as `QuietFinish` says: unconfirmed links pruned, `v` stored, subscribers notified when it changed, the node logged |
| Quiet.QuietFinishTie | src/index.ts:115-135 | a quiet run of `fn` that returns `v`, followed by the settling of `v` (pruning, store, notification), is exactly `QuietFinish` of the state the run started from |
| Quiet.StartedIs | src/index.ts:110-114 | the state with the node's cursor reset and the node out of the heap with flags None is exactly `Started` of the previous state |
| Quiet.QuietStepIs | src/index.ts:109-136 | the start of a recompute followed by a quiet finish is exactly `QuietStep` of the state before the start |
| Quiet.DrainTurn | src/index.ts:319-321 | a quiet drain with the node at the head of the bucket makes one quiet step from it and leaves one recompute fewer to make |
| Quiet.DrainEnd | src/index.ts:319-321 | a quiet drain that finds the bucket empty ends where it is |
| Quiet.StabilizeTurn | src/index.ts:314-322 | a quiet stabilize at or below the maximum height drains the current bucket and then continues from the next height with the rest of the plan |
| Quiet.StabilizeEnd | src/index.ts:314-318 | a quiet stabilize past the maximum height ends where it is |
| Quiet.LevelTie | src/index.ts:314-322 | when a quiet plan drains the bucket at height `h`, the quiet stabilize from `h` equals the quiet stabilize from `h + 1` with the rest of the plan |
| Solid.Runtime.constructor | test/bench/queue.ts:24-28 | the globals start out: no nodes, Listener, Owner, Updates and Effects null, ExecCount 0 |
| SolidState.NewSignal | test/bench/queue.ts:89-94 | a signal has no fn, the given value and comparator, state 0 and no owned list |
| Solid.Runtime.CreateSignal | test/bench/queue.ts:84-104 | a fresh id is returned; the record is appended with empty observer arrays |
| SolidState.Apply | test/bench/queue.ts:98-100 | a function argument is applied to the current value; a plain value is taken as is |
| Solid.Runtime.SetSignal | test/bench/queue.ts:97-102 | the result is the applied argument; an argument the comparator calls equal changes nothing; with no observers only the value changes; apart from the node only computations logged change value, and a signal ends holding the new value |
| Solid.Runtime.CreateComputed | test/bench/queue.ts:106-108 | a fresh pure computation with the given fn is appended, owned by the current Owner, with no comparator; earlier fns are unchanged and Listener and Owner are restored |
| Solid.Runtime.CreateMemo | test/bench/queue.ts:110-122 | the same as above, with the comparator taken from the options |
| Solid.Runtime.Untrack | test/bench/queue.ts:128-135 | Listener and Owner are restored; when the budget suffices the result is the fn run on the values read; `path` lists the nodes read, each value read is what its node holds unless that node was committed after the read, and only computations are committed |
| Solid.Runtime.ReadSignal | test/bench/queue.ts:137-156 | the value returned is the node's value afterwards; only computations commit values; a clean node or a signal is not recomputed; it is only tracked, when a Listener exists |
| Solid.Runtime.UpdateAside | test/bench/queue.ts:138-145 | with Updates set aside and then restored, Listener, Owner and node kinds are kept and only logged computations change value |
| Solid.Runtime.Track | test/bench/queue.ts:146-154 | the graph becomes exactly the track function applied to the old graph |
| SolidGraph.TrackKeepsSlots | test/bench/queue.ts:146-154 | tracking appends the source and the observer and keeps every slot cross-reference correct, including the two new entries |
| SolidGraph.ObservesIffSource | test/bench/queue.ts:146-154 | with correct slots, o observes s exactly when s is a source of o |
| Solid.Runtime.WriteSignal | test/bench/queue.ts:158-186 | returns the value written; a comparator-equal value changes nothing; with no observers only the value changes; apart from the node only computations logged change value, and a signal ends holding the new value; inside a batch the stale pass over the observers holds |
| Solid.Runtime.MarkObservers | test/bench/queue.ts:168-177 | the loop over the observers performs a stale pass over exactly that list |
| Solid.Runtime.StaleTurn | test/bench/queue.ts:170-176 | one observer: a stale pass over that one node |
| SolidState.StaleTurnClean | test/bench/queue.ts:171-176 | a clean observer is queued on Updates if pure and Effects if not, its downstream is marked, and it ends STALE |
| SolidState.StaleTurnUnclean | test/bench/queue.ts:171-176 | an observer that is not clean is only set STALE and queued nowhere |
| SolidState.StalePassTrans | test/bench/queue.ts:169-177 | stale passes over consecutive observers compose |
| Solid.Runtime.UpdateComputation | test/bench/queue.ts:188-198 | a node without fn changes nothing; Listener and Owner are restored and the node kinds are kept |
| Solid.Runtime.RunComputation | test/bench/queue.ts:200-209 | Listener and Owner are restored, node kinds are kept, the queues only grow, and only computations logged change value, so every signal keeps its value |
| Solid.Runtime.RunFn | test/bench/queue.ts:202 | when the budget suffices the value returned is the fn's result on the values read; `path` lists the nodes read, each value read is what its node holds unless that node was committed after the read, and only computations are committed |
| SolidState.SignalReads | test/bench/queue.ts:202 | a signal read during a run still holds the value read at the end of the run |
| SolidState.KeptTrans | test/bench/queue.ts:137-156 | the frame of an evaluating call (kinds, Listener, Owner, growing queues, values changed only by logged computations) composes |
| Solid.Runtime.Commit | test/bench/queue.ts:203-208 | a node updated later than `time` is untouched; otherwise `updatedAt` becomes `time` and the node is logged; a node never updated gets exactly the new value and `updatedAt` |
| SolidState.NewComputation | test/bench/queue.ts:217-231 | the record holds the fn, initial value, purity and state given, no `updatedAt`, no comparator and no owned list, and the current Owner as owner |
| SolidState.Adopt | test/bench/queue.ts:232-237 | the new node is added to the owned list of the Owner, when there is one; every other record is unchanged |
| Solid.Runtime.CreateComputation | test/bench/queue.ts:211-239 | a fresh id is returned; the record is appended and adopted by the Owner |
| SolidState.CreateKeepsGood | test/bench/queue.ts:211-239 | appending and adopting a computation keeps the runtime invariant |
| Solid.Runtime.RunTop | test/bench/queue.ts:241-264 | a clean node changes nothing; Listener and Owner are restored, node kinds kept, and only logged computations change value |
| Solid.Runtime.Ancestors | test/bench/queue.ts:244-252 | the list is the node followed by `Upward` of its owner: exactly the not-clean owners on its owner chain reached through owners not updated in this `ExecCount`, each strictly older than the one before |
| SolidState.UpwardExact | test/bench/queue.ts:246-251 | an id is collected by the owner walk exactly when it is an owner of the node, reached through owners all not updated in this `ExecCount`, and not clean; the collected ids are strictly decreasing and older than the node |
| SolidState.UpwardIndexed | test/bench/queue.ts:246-251 | the owner walk starting from the node yields ids of nodes, each past the first an owner of the node reached through owners not updated in this `ExecCount`, and not clean; the ids are strictly decreasing |
| Solid.Runtime.Refresh | test/bench/queue.ts:253-262 | a clean ancestor changes nothing |
| Solid.Runtime.RunUpdates | test/bench/queue.ts:266-286 | inside an active batch (Updates non-null) a write's marking runs directly, and the stale pass holds with nothing else changed |
| Solid.Runtime.RunBatch | test/bench/queue.ts:268-285 | the batch is opened and closed around the job: Listener, Owner and node kinds are kept, the queues that existed only grow, and only logged computations change value |
| Solid.Runtime.CompleteUpdates | test/bench/queue.ts:288-297 | Updates ends null; when waiting, Effects is kept and only grows; otherwise Effects ends null; only logged computations change value |
| Solid.Runtime.RunJob | test/bench/queue.ts:296 | the marking job produces the stale pass over the node's observers |
| Solid.Runtime.RunQueueLive | test/bench/queue.ts:289-292 | running Updates while it grows keeps Listener, Owner and node kinds, and Updates active |
| Solid.Runtime.RunQueue | test/bench/queue.ts:299-301 | running a fixed queue keeps Listener, Owner and node kinds, and the queues only grow |
| Solid.Runtime.LookUpstream | test/bench/queue.ts:303-315 | the node is set clean first; when no source needs work, nothing else changes |
| Solid.Runtime.MarkDownstream | test/bench/queue.ts:317-328 | a marking pass: only clean nodes change, each to PENDING and queued once; pure ones go on Updates and others on Effects; all observers end not clean |
| Solid.Runtime.MarkTurn | test/bench/queue.ts:320-326 | one observer ends not clean, as part of a marking pass |
| Solid.Runtime.MarkOne | test/bench/queue.ts:321-326 | a clean observer becomes PENDING, is queued, and its downstream is marked |
| SolidState.MarkPassOne | test/bench/queue.ts:321-326 | marking a clean node PENDING, queueing it and marking its downstream is a marking pass |
| SolidState.MarkPassTrans | test/bench/queue.ts:319-327 | marking passes compose |
| SolidState.CountCleanMark | test/bench/queue.ts:321-322 | marking a clean node lowers the count of clean nodes by one (why the recursion terminates) |
| Solid.Runtime.CleanNode | test/bench/queue.ts:330-359 | the node ends with no sources, state 0 and no owned list, and no node observes it any more; the same holds for each node it owned; every node is either untouched or cleaned; a node that owns nothing is the only record that changes; the slot invariant holds |
| Solid.Runtime.CleanSources | test/bench/queue.ts:332-348 | the node's sources become empty and no other node's sources change; it is in no observer list |
| Solid.Runtime.PopSource | test/bench/queue.ts:334-346 | one pop removes the node's last source and keeps the slot invariant |
| SolidGraph.PopSourceKeepsSlots | test/bench/queue.ts:334-346 | popping the last source and moving the last observer into the freed slot keeps every slot cross-reference correct |
| SolidGraph.PopMovedSlot | test/bench/queue.ts:339-345 | the observer moved into the freed slot holds the source at the slot recorded for it |
| SolidGraph.Unobserving | test/bench/queue.ts:332-348 | a node with no sources is in no observer list |
| Solid.Runtime.CleanOwned | test/bench/queue.ts:349-350 | every owned node is cleaned; the owner and everything before it are untouched |
| Solid.Runtime.Reset | test/bench/queue.ts:351-357 | the node's state becomes 0 and its owned list null; nothing else changes |
| Scenario.Basic | test/basic.test.ts:11-41 | on a fresh engine: `s = signal(1)`, `a = s + 1`, `b = a + 1`; after `stabilize`, a is 2 and b is 3 at heights 0 and 1, and the log holds a then b; after `setSignal(s, 2)` and `stabilize`, a is 3 and b is 4, and the log has gained a then b again (each recomputed once per stabilize); all under the budget not running out |
| Scenario.Build | src/index.ts:80-107 | the three node creations lead to the state where a and b wait in bucket 0, a at its head, and no link exists |
| Scenario.FirstRun | src/index.ts:313-323 | the first stabilize is two quiet recomputes at height 0, ending with a = 2, b = 3, links s to a and a to b, b at height 1, every bucket empty |
| Scenario.SetS | src/index.ts:273-283 | `setSignal(s, 2)` queues exactly a, alone, in bucket 0 |
| Scenario.SecondRun | src/index.ts:313-323 | the second stabilize is a at height 0, whose change puts b in bucket 1 and raises the maximum to 1, then b at height 1; the links are reconfirmed unchanged |
| Scenario.OneReadStep | src/index.ts:109-136 | a recompute of `read(d) + 1` whose read is quiet and confirms the whole list: the node stores one more than d's value, relinks d, is raised above a computed d, notifies its subscribers when its value changed, and is logged |
| Scenario.FirstA | src/index.ts:109-136 | a's first recompute: it stores 2, gains the link from s, and b becomes the head of bucket 0 |
| Scenario.FirstB | src/index.ts:109-136 | b's first recompute: it stores 3, gains the link from a, and is raised to height 1 |
| Scenario.SecondA | src/index.ts:109-136 | a's second recompute: it stores 3 and puts b in bucket 1 |
| Scenario.SecondB | src/index.ts:109-136 | b's second recompute: it stores 4 and nothing is queued |
| Scenario.RelinkAB | src/index.ts:187-234 | b's first read of a takes the slow path of `link` and appends link 1 |
| Scenario.RelinkAgain | src/index.ts:187-234 | a later read of the same dependency takes the fast path of `link`, and the edges come back unchanged |

## Left out

- test/basic.test.ts reads through `readSignal` and `readComputed`, which src/index.ts does not export. `Scenario.Basic` reads both kinds of node through `read` (src/index.ts:253-271), the only read the engine has.

- Exceptions are not modelled: the `ERROR` variable, the `try`/`catch`/`finally` paths of `runUpdates`, and the `Maximum update depth exceeded` check (test/bench/queue.ts:178-182). A run that would throw is not distinguished from one that does not.
- `createRoot`, `UNOWNED` and `batch` (test/bench/queue.ts:56-83, 124-126) are not modelled. Without them an owner is always a computation, and `runUpdates` is always called with `init` false.
- Cleanups and `context` on owner nodes are not modelled: this file never registers a cleanup or sets a context, so `cleanNode`'s cleanup loop never runs.
- A `Fn` only reads. No fn writes a signal, creates a node or calls `untrack` during a run, and no fn tests two read values together (a branch sees only the value just read). So the owner (`Owner`) is set only while a fn runs, and the nodes created through the API are never owned. The owner branch of `Adopt`, the recursion of `CleanOwned` into owned nodes, and the owners `Ancestors` collects beyond the node itself are proved for every state the invariant allows, but they are not reached from the API.
- The previous value that `runComputation` passes to `fn` is not modelled. A `Fn` decision tree depends only on what it reads.
- `equalFn` and the `Object.assign` of options are folded into the comparator. A comparator is either `Strict` (`===`) or a custom function. `createSignal` and `createMemo` merge their options over `signalOptions`, whose `equals` is `equalFn` (test/bench/queue.ts:2-3, 88, 115), so the default is `Strict`. The comparator is `None` only when `equals` is given explicitly as a falsy value (test/bench/queue.ts:93, 119).
- JavaScript value identity (`===`/`!==`) is modelled as equality of `Value`. This is either undefined or an integer, so objects, NaN and floating point are not modelled.
- Divergence is not modelled: every re-entrant method has a `gas` budget, and the source has none. The re-entrant methods are `read`/`recompute`/`stabilize` in the engine and the `readSignal`…`runTop` cluster in the baseline. Their contracts hold on all paths, but results are promised only when the budget suffices.
- The rings of the height buckets are not a standing invariant. `updateIfNecessary` clears Pushed without unlinking the node (src/index.ts:155), so the rings can disagree with the flags. Ring properties are stated under an explicit well-formedness hypothesis on ghost `rings`.
- JavaScript arrays grow on write past the end; the bucket array models this, and no capacity is assumed.
- Reactive.Engine.Stabilize: beyond the ending heights, the state is stated only for runs made of quiet recomputes (`QuietStabilize`). Consistency of every computed with its inputs is not claimed, and the source does not guarantee it even on an acyclic graph. A recompute can raise a node's height while stabilize is at that height. When the node later changes, it inserts its subscribers into buckets that stabilize has already passed (src/index.ts:124-134, 258-260, 313-321). The loop ends with those subscribers still queued and stale.
- Reactive.Engine.UpdateIfNecessary: for a Check node, the flags `decided` at the Dirty test are not related to the values of its dependencies. The contract does not state that Dirty is set only when a dependency's recompute produced a new value, because the walk over the dependency list (`UpdateDeps`) is not specified beyond the frame, for the reason given on the next line.
- Reactive.Engine.CheckDeps: for a Check node, the dependencies are not stated to be brought up to date; only the frame of the walk is stated, for the reason given on the next line.
- Reactive.Engine.UpdateDeps: states only the invariant, the context and growing heights. Whether the walk stops at the first dependency that turned the node Dirty is not stated, because a nested recompute can rewrite the dependency list being walked.
- Reactive.Engine.Read: the height promise is relative, the reader ends above the node read's height from before the call. It is not stated against the final height, which a nested recompute may raise.
- Solid.Runtime.RunComputation: states that Listener and Owner are restored, that node kinds are kept and that the queues only grow. The exact update is stated on `Commit`, because the run of `fn` in between reaches arbitrary parts of the graph.
- Solid.Runtime.RunTop: for a node that is not clean, only the frame (Listener, Owner, node kinds, queues) is stated. The final states of the ancestors depend on arbitrary recomputations.
- Solid.Runtime.UpdateComputation: for a computation, only the frame is stated, for the same reason.
- Solid.Runtime.WriteSignal: when no batch is active and the node has observers, the new run of the queues is only stated to keep the frame. The stale pass it starts is stated on `RunUpdates` and `RunJob`.
- Solid.Runtime.CleanNode: for a node that owns computations, the records outside its owned tree are not stated to be unchanged; only the nodes created before it are. No node is owned in a state reached through the API (see above), and then only the node itself changes.
- Solid.Runtime.MarkDownstream: "queued once" is stated as the new queue entries being distinct. The per-observer pass of `writeSignal` can queue a node twice when the graph has a cycle through it: the node is pushed before it is set STALE, so the pass over its downstream can meet it while it is still clean. No once-only property is claimed for `StalePass`.
