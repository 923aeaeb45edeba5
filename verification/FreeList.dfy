/**
 `freelist_stack`: a Treiber stack of recycled nodes whose top carries a tag. Any number of
 threads allocate, write to, pass on and free nodes, and memory is reused without restriction.
 */
module FreeList {
  import opened TaggedPointers

  datatype Place =
    | Idle
    | AllocRead(top: TaggedPtr)                // has `top`, about to read `top->_next`
    | AllocSwap(top: TaggedPtr, next: Ptr)     // about to move the top to `next`
    | FreeWrite(node: Ptr, top: TaggedPtr)     // has `top`, about to write `node->_next`
    | FreeSwap(node: Ptr, top: TaggedPtr)      // about to make `node` the top
  {
    predicate Frees() { FreeWrite? || FreeSwap? }
  }

  datatype Thread = Thread(at: Place, owned: set<Ptr>)

  /**
   `next` is the first word of every node ever obtained from the system. `listed` (top first) and
   `allocations` (successful pops) are bookkeeping.
   */
  datatype State = State(
    top: TaggedPtr,
    next: map<Ptr, TaggedPtr>,
    threads: seq<Thread>,
    listed: seq<Ptr>,
    allocations: nat)

  datatype Action =
    | BeginAllocate(t: nat)
    | BeginDeallocate(t: nat, node: Ptr)
    | Advance(t: nat, spare: Ptr)
    | UserWrite(t: nat, node: Ptr, word: TaggedPtr)
    | HandOver(t: nat, u: nat, node: Ptr)  // from now on thread `u` has the node

  function Init(threads: nat): State {
    State(NULL_HANDLE, map[], seq(threads, _ => Thread(Idle, {})), [], 0)
  }

  predicate Enabled(s: State, a: Action) {
    match a
    case BeginAllocate(t) => t < |s.threads| && s.threads[t].at.Idle?
    case BeginDeallocate(t, node) => t < |s.threads| && s.threads[t].at.Idle? && node in s.threads[t].owned
    case Advance(t, spare) =>
      && t < |s.threads| && !s.threads[t].at.Idle?
      && (s.threads[t].at.AllocRead? ==>
            if s.threads[t].at.top.ptr == NULL then spare != NULL && spare !in s.next
            else s.threads[t].at.top.ptr in s.next)
    case UserWrite(t, node, _) =>
      t < |s.threads| && node in s.threads[t].owned && !s.threads[t].at.Frees()
    case HandOver(t, u, node) =>
      && t < |s.threads| && u < |s.threads| && t != u
      && node in s.threads[t].owned && !s.threads[t].at.Frees()
  }

  function Put(s: State, t: nat, thread: Thread): State
    requires t < |s.threads|
  {
    s.(threads := s.threads[t := thread])
  }

  function Step(s: State, a: Action): State
    requires Enabled(s, a)
  {
    var me := s.threads[a.t];
    match a
    case BeginAllocate(t) => Put(s, t, me.(at := AllocRead(s.top)))
    case BeginDeallocate(t, node) => Put(s, t, me.(at := FreeWrite(node, s.top)))
    case UserWrite(_, node, word) => s.(next := s.next[node := word])
    case HandOver(t, u, node) =>
      Put(Put(s, t, me.(owned := me.owned - {node})), u, s.threads[u].(owned := s.threads[u].owned + {node}))
    case Advance(t, spare) => (
      match me.at
      case Idle => s
      case AllocRead(top) =>
        if top.ptr == NULL then
          Put(s.(next := s.next[spare := NULL_HANDLE]), t, Thread(Idle, me.owned + {spare}))
        else
          Put(s, t, me.(at := AllocSwap(top, s.next[top.ptr].ptr)))
      case AllocSwap(top, next) =>
        if s.top == top then
          Put(s.(top := TaggedPtr(next, top.NextTag()),
                 listed := if s.listed == [] then [] else s.listed[1..],
                 allocations := s.allocations + 1),
              t, Thread(Idle, me.owned + {top.ptr}))
        else
          Put(s, t, me.(at := AllocRead(s.top)))
      case FreeWrite(node, top) =>
        Put(s.(next := s.next[node := TaggedPtr(top.ptr, 0)]), t, me.(at := FreeSwap(node, top)))
      case FreeSwap(node, top) =>
        if s.top == top then
          Put(s.(top := TaggedPtr(node, top.tag), listed := [node] + s.listed), t, Thread(Idle, me.owned - {node}))
        else
          Put(s, t, me.(at := FreeWrite(node, s.top))))
  }

  predicate Legal(s: State, actions: seq<Action>)
    decreases actions
  {
    actions == [] || (Enabled(s, actions[0]) && Legal(Step(s, actions[0]), actions[1..]))
  }

  function Exec(s: State, actions: seq<Action>): State
    requires Legal(s, actions)
    decreases actions
  {
    if actions == [] then s else Exec(Step(s, actions[0]), actions[1..])
  }

  // ---------------------------------------------------------------- invariant

  function First(nodes: seq<Ptr>): Ptr { if nodes == [] then NULL else nodes[0] }

  /** The links in memory spell `nodes` and end in null; no node occurs twice. */
  ghost predicate Threaded(next: map<Ptr, TaggedPtr>, nodes: seq<Ptr>)
  {
    nodes == [] ||
    (&& nodes[0] != NULL && nodes[0] in next && nodes[0] !in nodes[1..]
     && next[nodes[0]].ptr == First(nodes[1..])
     && Threaded(next, nodes[1..]))
  }

  /** Every known node is on the list or owned by one thread, never both, never by two. */
  ghost predicate Partitioned(s: State) {
    && (forall n :: n in s.next <==> n in s.listed || exists t :: 0 <= t < |s.threads| && n in s.threads[t].owned)
    && (forall t, n :: 0 <= t < |s.threads| && n in s.threads[t].owned ==> n !in s.listed)
    && (forall t, u, n :: 0 <= t < u < |s.threads| && n in s.threads[t].owned ==> n !in s.threads[u].owned)
    && NULL !in s.next
  }

  /** A stale top whose tag is still current is still on the list. */
  ghost predicate TopOk(s: State, top: TaggedPtr) {
    && top.tag <= s.top.tag
    && (top.ptr != NULL ==> top.ptr in s.next)
    && (top.tag == s.top.tag && top.ptr != NULL ==> top.ptr in s.listed)
  }

  ghost predicate ThreadOk(s: State, thread: Thread) {
    match thread.at
    case Idle => true
    case AllocRead(top) => TopOk(s, top)
    case AllocSwap(top, next) =>
      TopOk(s, top) && top.ptr != NULL
      && (top.tag == s.top.tag ==> top.ptr in s.next && s.next[top.ptr].ptr == next)
    case FreeWrite(node, top) => node in thread.owned
    case FreeSwap(node, top) => node in thread.owned && node in s.next && s.next[node].ptr == top.ptr
  }

  ghost predicate Inv(s: State) {
    && s.top.ptr == First(s.listed)
    && Threaded(s.next, s.listed)
    && Partitioned(s)
    && s.top.tag == s.allocations
    && (forall t :: 0 <= t < |s.threads| ==> ThreadOk(s, s.threads[t]))
  }

  // ---------------------------------------------------------------- preservation

  lemma {:induction false} ThreadedFrame(next: map<Ptr, TaggedPtr>, nodes: seq<Ptr>, n: Ptr, word: TaggedPtr)
    requires Threaded(next, nodes) && n !in nodes
    ensures Threaded(next[n := word], nodes)
  {
    if nodes != [] {
      ThreadedFrame(next, nodes[1..], n, word);
    }
  }

  /** A write to memory that is off the list, by its owner or the system, disturbs nothing. */
  lemma WriteOffList(s: State, n: Ptr, word: TaggedPtr)
    requires Inv(s) && n !in s.listed
    ensures Threaded(s.next[n := word], s.listed)
  {
    ThreadedFrame(s.next, s.listed, n, word);
  }

  lemma LocalInv(s: State, t: nat, at: Place)
    requires Inv(s) && t < |s.threads| && ThreadOk(s, s.threads[t].(at := at))
    ensures Inv(Put(s, t, s.threads[t].(at := at)))
  {
    var r := Put(s, t, s.threads[t].(at := at));
    assert forall u :: 0 <= u < |s.threads| ==> r.threads[u].owned == s.threads[u].owned;
    forall u | 0 <= u < |r.threads| ensures ThreadOk(r, r.threads[u]) {
      assert ThreadOk(s, s.threads[u]);
    }
    assert Partitioned(r);
  }

  lemma OwnerWriteInv(s: State, t: nat, node: Ptr, word: TaggedPtr)
    requires Inv(s) && t < |s.threads| && node in s.threads[t].owned
    requires !s.threads[t].at.FreeSwap?
    ensures Inv(s.(next := s.next[node := word]))
  {
    var r := s.(next := s.next[node := word]);
    WriteOffList(s, node, word);
    assert node in s.next;
    assert r.next.Keys == s.next.Keys;
    forall u | 0 <= u < |r.threads| ensures ThreadOk(r, r.threads[u]) {
      assert ThreadOk(s, s.threads[u]);
    }
    assert Partitioned(r);
  }

  lemma HandOverInv(s: State, t: nat, u: nat, node: Ptr)
    requires Inv(s) && Enabled(s, HandOver(t, u, node))
    ensures Inv(Step(s, HandOver(t, u, node)))
  {
    var r := Step(s, HandOver(t, u, node));
    assert r.threads[t].owned == s.threads[t].owned - {node};
    assert r.threads[u].owned == s.threads[u].owned + {node};
    assert forall v :: 0 <= v < |s.threads| && v != t && v != u ==> r.threads[v] == s.threads[v];
    forall v | 0 <= v < |r.threads| ensures ThreadOk(r, r.threads[v]) {
      assert ThreadOk(s, s.threads[v]);
    }
    assert Partitioned(r);
  }

  lemma FreshInv(s: State, t: nat, spare: Ptr)
    requires Inv(s) && Enabled(s, Advance(t, spare)) && s.threads[t].at.AllocRead?
    requires s.threads[t].at.top.ptr == NULL
    ensures Inv(Step(s, Advance(t, spare)))
  {
    var r := Step(s, Advance(t, spare));
    WriteOffList(s, spare, NULL_HANDLE);
    assert forall u :: 0 <= u < |s.threads| && u != t ==> r.threads[u] == s.threads[u];
    assert r.threads[t].owned == s.threads[t].owned + {spare};
    forall u | 0 <= u < |r.threads| ensures ThreadOk(r, r.threads[u]) {
      assert ThreadOk(s, s.threads[u]);
    }
    assert Partitioned(r);
  }

  /**
   ABA safety: when the allocating compare-and-swap succeeds, the successor read earlier, however
   long ago and however often the node was reused since, is the real successor of the top now.
   */
  lemma SwapIsAbaSafe(s: State, t: nat)
    requires Inv(s) && t < |s.threads| && s.threads[t].at.AllocSwap? && s.top == s.threads[t].at.top
    ensures s.listed != [] && s.listed[0] == s.top.ptr
    ensures s.threads[t].at.next == s.next[s.top.ptr].ptr == First(s.listed[1..])
    ensures forall u :: 0 <= u < |s.threads| ==> s.top.ptr !in s.threads[u].owned
  {
    assert ThreadOk(s, s.threads[t]);
  }

  lemma PopInv(s: State, t: nat, spare: Ptr)
    requires Inv(s) && Enabled(s, Advance(t, spare)) && s.threads[t].at.AllocSwap?
    requires s.top == s.threads[t].at.top
    ensures Inv(Step(s, Advance(t, spare)))
  {
    var r := Step(s, Advance(t, spare));
    SwapIsAbaSafe(s, t);
    var node := s.top.ptr;
    assert s.listed == [node] + r.listed && node !in r.listed;
    assert forall n :: n in s.listed <==> n == node || n in r.listed;
    assert forall u :: 0 <= u < |s.threads| && u != t ==> r.threads[u] == s.threads[u];
    assert r.threads[t].owned == s.threads[t].owned + {node};
    forall u | 0 <= u < |r.threads| ensures ThreadOk(r, r.threads[u]) {
      assert ThreadOk(s, s.threads[u]);
    }
    assert Partitioned(r);
  }

  lemma PushInv(s: State, t: nat, spare: Ptr)
    requires Inv(s) && Enabled(s, Advance(t, spare)) && s.threads[t].at.FreeSwap?
    requires s.top == s.threads[t].at.top
    ensures Inv(Step(s, Advance(t, spare)))
  {
    var r := Step(s, Advance(t, spare));
    var node := s.threads[t].at.node;
    assert ThreadOk(s, s.threads[t]);
    assert r.listed[1..] == s.listed;
    assert forall u :: 0 <= u < |s.threads| && u != t ==> r.threads[u] == s.threads[u];
    assert r.threads[t].owned == s.threads[t].owned - {node};
    forall u | 0 <= u < |r.threads| ensures ThreadOk(r, r.threads[u]) {
      assert ThreadOk(s, s.threads[u]);
    }
    assert Partitioned(r);
  }

  lemma StepInv(s: State, a: Action)
    requires Inv(s) && Enabled(s, a)
    ensures Inv(Step(s, a))
  {
    assert ThreadOk(s, s.threads[a.t]);
    match a
    case BeginAllocate(t) => LocalInv(s, t, AllocRead(s.top));
    case BeginDeallocate(t, node) => LocalInv(s, t, FreeWrite(node, s.top));
    case UserWrite(t, node, word) => OwnerWriteInv(s, t, node, word);
    case HandOver(t, u, node) => HandOverInv(s, t, u, node);
    case Advance(t, spare) =>
      match s.threads[t].at
      case Idle =>
      case AllocRead(top) =>
        if top.ptr == NULL { FreshInv(s, t, spare); } else { LocalInv(s, t, AllocSwap(top, s.next[top.ptr].ptr)); }
      case AllocSwap(top, next) =>
        if s.top == top { PopInv(s, t, spare); } else { LocalInv(s, t, AllocRead(s.top)); }
      case FreeWrite(node, top) =>
        OwnerWriteInv(s, t, node, TaggedPtr(top.ptr, 0));
        LocalInv(s.(next := s.next[node := TaggedPtr(top.ptr, 0)]), t, FreeSwap(node, top));
      case FreeSwap(node, top) =>
        if s.top == top { PushInv(s, t, spare); } else { LocalInv(s, t, FreeWrite(node, s.top)); }
  }

  // ---------------------------------------------------------------- theorems

  lemma {:induction false} ThreadedDistinct(next: map<Ptr, TaggedPtr>, nodes: seq<Ptr>)
    requires Threaded(next, nodes)
    ensures forall i, j :: 0 <= i < j < |nodes| ==> nodes[i] != nodes[j]
  {
    if nodes != [] {
      ThreadedDistinct(next, nodes[1..]);
      forall i, j | 0 <= i < j < |nodes| ensures nodes[i] != nodes[j] {
        assert nodes[j] in nodes[1..];
        if i > 0 { assert nodes[1..][i - 1] != nodes[1..][j - 1]; }
      }
    }
  }

  lemma {:induction false} RunInv(s: State, actions: seq<Action>)
    requires Inv(s) && Legal(s, actions)
    ensures Inv(Exec(s, actions))
    decreases actions
  {
    if actions != [] {
      StepInv(s, actions[0]);
      RunInv(Step(s, actions[0]), actions[1..]);
    }
  }

  /**
   In every reachable state the list is a duplicate-free chain in memory, each node is on it or in
   exactly one caller's hands, and the tag counts the allocations served from the list.
   */
  lemma NodesHaveOneOwner(threads: nat, actions: seq<Action>)
    requires Legal(Init(threads), actions)
    ensures var s := Exec(Init(threads), actions);
      && Inv(s)
      && (forall i, j :: 0 <= i < j < |s.listed| ==> s.listed[i] != s.listed[j])
      && (forall t, u, n :: 0 <= t < |s.threads| && 0 <= u < |s.threads| && t != u ==>
            n in s.threads[t].owned ==> n !in s.threads[u].owned && n !in s.listed)
  {
    RunInv(Init(threads), actions);
    var s := Exec(Init(threads), actions);
    ThreadedDistinct(s.next, s.listed);
  }

  /** Whatever `allocate` hands out belonged to nobody, and belongs to the caller alone afterwards. */
  lemma AllocationIsExclusive(s: State, t: nat, spare: Ptr)
    requires Inv(s) && Enabled(s, Advance(t, spare))
    requires s.threads[t].at.AllocRead? || s.threads[t].at.AllocSwap?
    ensures var r := Step(s, Advance(t, spare));
      r.threads[t].at.Idle? ==> exists n ::
        && r.threads[t].owned == s.threads[t].owned + {n}
        && (forall u :: 0 <= u < |s.threads| ==> n !in s.threads[u].owned)
        && n !in r.listed
  {
    var r := Step(s, Advance(t, spare));
    StepInv(s, Advance(t, spare));
    if r.threads[t].at.Idle? {
      var n := if s.threads[t].at.AllocRead? then spare else s.threads[t].at.top.ptr;
      if s.threads[t].at.AllocSwap? { SwapIsAbaSafe(s, t); }
      assert n in r.threads[t].owned;
    }
  }

  lemma {:induction false} ExecSplit(s: State, first: seq<Action>, second: seq<Action>)
    requires Legal(s, first) && Legal(Exec(s, first), second)
    ensures Legal(s, first + second) && Exec(s, first + second) == Exec(Exec(s, first), second)
    decreases first
  {
    if first == [] {
      assert first + second == second;
    } else {
      assert (first + second)[1..] == first[1..] + second;
      ExecSplit(Step(s, first[0]), first[1..], second);
    }
  }

  lemma Unfold(s: State, a: Action, rest: seq<Action>)
    requires Enabled(s, a) && Legal(Step(s, a), rest)
    ensures Legal(s, [a] + rest) && Exec(s, [a] + rest) == Exec(Step(s, a), rest)
  {
    assert ([a] + rest)[1..] == rest;
  }

  // ---------------------------------------------------------------- undisturbed calls

  /** An undisturbed `deallocate`: the node becomes the top. */
  lemma FreesNode(s: State, t: nat, node: Ptr) returns (actions: seq<Action>)
    requires t < |s.threads| && s.threads[t].at.Idle? && node in s.threads[t].owned
    ensures Legal(s, actions) && Exec(s, actions) == AfterFree(s, t, node)
  {
    var s1 := Step(s, BeginDeallocate(t, node));
    var s2 := Step(s1, Advance(t, 0));
    var s3 := Step(s2, Advance(t, 0));
    assert s3.threads == s.threads[t := Thread(Idle, s.threads[t].owned - {node})];
    Unfold(s2, Advance(t, 0), []);
    Unfold(s1, Advance(t, 0), [Advance(t, 0)] + []);
    Unfold(s, BeginDeallocate(t, node), [Advance(t, 0)] + ([Advance(t, 0)] + []));
    actions := [BeginDeallocate(t, node)] + ([Advance(t, 0)] + ([Advance(t, 0)] + []));
  }

  function AfterFree(s: State, t: nat, node: Ptr): State
    requires t < |s.threads|
  {
    State(TaggedPtr(node, s.top.tag), s.next[node := TaggedPtr(s.top.ptr, 0)],
          s.threads[t := Thread(Idle, s.threads[t].owned - {node})], [node] + s.listed, s.allocations)
  }

  /** An undisturbed `allocate` with nodes on the list: it takes the top, never a new one. */
  lemma TakesNode(s: State, t: nat) returns (actions: seq<Action>)
    requires t < |s.threads| && s.threads[t].at.Idle? && s.top.ptr != NULL && s.top.ptr in s.next && s.listed != []
    ensures Legal(s, actions) && Exec(s, actions) == AfterTake(s, t)
  {
    var s1 := Step(s, BeginAllocate(t));
    var s2 := Step(s1, Advance(t, 0));
    var s3 := Step(s2, Advance(t, 0));
    assert s3.threads == s.threads[t := Thread(Idle, s.threads[t].owned + {s.top.ptr})];
    Unfold(s2, Advance(t, 0), []);
    Unfold(s1, Advance(t, 0), [Advance(t, 0)] + []);
    Unfold(s, BeginAllocate(t), [Advance(t, 0)] + ([Advance(t, 0)] + []));
    actions := [BeginAllocate(t)] + ([Advance(t, 0)] + ([Advance(t, 0)] + []));
  }

  function AfterTake(s: State, t: nat): State
    requires t < |s.threads| && s.top.ptr in s.next && s.listed != []
  {
    State(TaggedPtr(s.next[s.top.ptr].ptr, s.top.NextTag()), s.next,
          s.threads[t := Thread(Idle, s.threads[t].owned + {s.top.ptr})], s.listed[1..], s.allocations + 1)
  }

  /** An undisturbed `allocate` with the list empty is served by the system. */
  lemma TakesSpare(s: State, t: nat, spare: Ptr) returns (actions: seq<Action>)
    requires t < |s.threads| && s.threads[t].at.Idle? && s.top.ptr == NULL
    requires spare != NULL && spare !in s.next
    ensures Legal(s, actions)
    ensures Exec(s, actions) == s.(
      next := s.next[spare := NULL_HANDLE],
      threads := s.threads[t := Thread(Idle, s.threads[t].owned + {spare})])
  {
    var s1 := Step(s, BeginAllocate(t));
    var s2 := Step(s1, Advance(t, spare));
    assert s2.threads == s.threads[t := Thread(Idle, s.threads[t].owned + {spare})];
    Unfold(s1, Advance(t, spare), []);
    Unfold(s, BeginAllocate(t), [Advance(t, spare)] + []);
    actions := [BeginAllocate(t)] + ([Advance(t, spare)] + []);
  }

  /**
   Memory is reused, last in first out: in any state in order, a thread that frees a node and, before
   anybody else does anything, another that allocates, gets that very node.
   */
  lemma FreedNodeIsReused(s: State, t: nat, u: nat, node: Ptr) returns (actions: seq<Action>)
    requires Inv(s) && t < |s.threads| && u < |s.threads| && s.threads[t].at.Idle? && s.threads[u].at.Idle?
    requires node in s.threads[t].owned
    ensures Legal(s, actions) && Inv(Exec(s, actions))
    ensures var r := Exec(s, actions);
      u < |r.threads| && node in r.threads[u].owned && r.listed == s.listed && r.next.Keys == s.next.Keys
  {
    assert node in s.next;
    var free := FreesNode(s, t, node);
    var m := Exec(s, free);
    var take := TakesNode(m, u);
    ExecSplit(s, free, take);
    actions := free + take;
    assert ([node] + s.listed)[1..] == s.listed;
    RunInv(s, actions);
  }

  /** Two nodes have come from the system and were freed. */
  function Stocked(): State {
    State(TaggedPtr(1, 0), map[1 := TaggedPtr(2, 0), 2 := NULL_HANDLE], [Thread(Idle, {}), Thread(Idle, {})], [1, 2], 0)
  }

  lemma TwoSparesTaken() returns (actions: seq<Action>)
    ensures Legal(Init(2), actions)
    ensures Exec(Init(2), actions) == State(
      NULL_HANDLE, map[1 := NULL_HANDLE, 2 := NULL_HANDLE], [Thread(Idle, {}), Thread(Idle, {1, 2})], [], 0)
  {
    var get2 := TakesSpare(Init(2), 1, 2);
    var s1 := Exec(Init(2), get2);
    var get1 := TakesSpare(s1, 1, 1);
    ExecSplit(Init(2), get2, get1);
    assert {} + {2} + {1} == {1, 2};
    assert s1.next == map[2 := NULL_HANDLE];
    actions := get2 + get1;
  }

  lemma StockedIsReached() returns (actions: seq<Action>)
    ensures Legal(Init(2), actions) && Exec(Init(2), actions) == Stocked()
  {
    var get := TwoSparesTaken();
    var s2 := Exec(Init(2), get);
    var free2 := FreesNode(s2, 1, 2);
    var s3 := Exec(s2, free2);
    var free1 := FreesNode(s3, 1, 1);
    ExecSplit(Init(2), get, free2);
    ExecSplit(Init(2), get + free2, free1);
    assert {1, 2} - {2} - {1} == {};
    assert Exec(s3, free1).next == Stocked().next;
    actions := get + free2 + free1;
  }

  /**
   Why the tag is there: a run in which the top pointer has come back to what a sleeping allocator
   read while the successor it read is now in another caller's hands. A swap that compared
   pointers alone would put that owned node on the list.
   */
  lemma TagIsNeeded() returns (actions: seq<Action>)
    ensures Legal(Init(2), actions)
    ensures |Exec(Init(2), actions).threads| == 2 && Exec(Init(2), actions).listed != []
    ensures var s := Exec(Init(2), actions); var me := s.threads[0].at;
      && me.AllocSwap? && me.top.ptr == s.top.ptr && me.next != NULL
      && me.next in s.threads[1].owned && me.next != First(s.listed[1..])
  {
    var stock := StockedIsReached();
    var s0 := Stocked();
    var sleep := [BeginAllocate(0)] + ([Advance(0, 0)] + []);
    var s1 := Step(s0, BeginAllocate(0));
    var s2 := Step(s1, Advance(0, 0));
    assert s2.threads[0].at == AllocSwap(TaggedPtr(1, 0), 2);
    Unfold(s1, Advance(0, 0), []);
    Unfold(s0, BeginAllocate(0), [Advance(0, 0)] + []);
    var take1 := TakesNode(s2, 1);
    var s3 := Exec(s2, take1);
    var take2 := TakesNode(s3, 1);
    var s4 := Exec(s3, take2);
    var free1 := FreesNode(s4, 1, 1);
    ExecSplit(Init(2), stock, sleep);
    ExecSplit(Init(2), stock + sleep, take1);
    ExecSplit(Init(2), stock + sleep + take1, take2);
    ExecSplit(Init(2), stock + sleep + take1 + take2, free1);
    actions := stock + sleep + take1 + take2 + free1;
  }
}
