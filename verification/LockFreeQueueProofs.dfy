/** The queue machine keeps its shape in every interleaving and refines a FIFO. */
module LockFreeQueueProofs {
  import opened Wrappers
  import opened TaggedPointers
  import opened Counting
  import opened Sequences
  import opened LockFreeQueue

  /** From `s` to `r` nothing that pusher `p` relies on was taken away. */
  ghost predicate Respects<T>(s: State<T>, r: State<T>, p: Pusher<T>)
    requires Chained(s) && Chained(r)
  {
    && Recent(r, s.tail)
    && (p.Unlinked() && p.node in s.heap ==>
          p.node !in r.chain && p.node in r.heap && r.heap[p.node] == s.heap[p.node])
    && (p.HasTail() && p.tail.ptr in s.heap ==>
          && p.tail.ptr in r.heap
          && ((p.LinkNext? || r.tail == p.tail) && s.heap[p.tail.ptr].next != NULL_HANDLE ==>
                r.heap[p.tail.ptr].next == s.heap[p.tail.ptr].next))
    && (p.LinkNext? && p.tail.ptr in s.heap ==>
          && (p.tail.ptr in r.chain || r.heap[p.tail.ptr].next != NULL_HANDLE || p.tail.ptr !in s.chain)
          && (p.tail.ptr == Last(r) ==> p.tail.ptr == Last(s) && r.tail == s.tail))
    && (p.SwingTail? && p.tail.ptr in s.heap && r.tail == p.tail ==>
          p.tail.ptr in r.heap && r.heap[p.tail.ptr].next.ptr == s.heap[p.tail.ptr].next.ptr)
  }

  lemma PusherStays<T>(s: State<T>, r: State<T>, p: Pusher<T>)
    requires Chained(s) && Chained(r) && PusherOk(s, p) && Respects(s, r, p)
    ensures PusherOk(r, p)
  {
  }

  ghost predicate SameMemory<T>(s: State<T>, r: State<T>) {
    r.head == s.head && r.tail == s.tail && r.heap == s.heap && r.chain == s.chain
  }

  lemma PusherFrame<T>(s: State<T>, r: State<T>, p: Pusher<T>)
    requires Chained(s) && SameMemory(s, r) && PusherOk(s, p)
    ensures Chained(r) && PusherOk(r, p)
  {
  }

  /** A step that only moves pusher `t` along keeps the invariant if its new place is justified. */
  lemma LocalInv<T>(s: State<T>, r: State<T>, t: nat)
    requires Inv(s) && SameMemory(s, r) && t < |s.pushers| == |r.pushers|
    requires r.pushers == s.pushers[t := r.pushers[t]] && r.popper == s.popper
    requires PusherOk(s, r.pushers[t])
    requires forall u :: 0 <= u < |s.pushers| && u != t && r.pushers[t].Unlinked() ==>
      !s.pushers[u].Owns(r.pushers[t].node)
    requires r.size - Unsized(s.pushers[t]) == s.size - Unsized(r.pushers[t])
    ensures Inv(r) && Contents(r) == Contents(s)
  {
    hide PusherOk;
    SumUpdate(s.pushers, t, r.pushers[t], Unsized);
    forall u | 0 <= u < |r.pushers| ensures PusherOk(r, r.pushers[u]) {
      assert u != t ==> PusherOk(s, s.pushers[u]);
      PusherFrame(s, r, r.pushers[u]);
    }
    assert NodesApart(r);
    assert Contents(r) == Contents(s);
  }

  lemma InitInv<T>(pushers: nat)
    ensures Inv(Init<T>(pushers)) && Contents(Init<T>(pushers)) == []
  {
    SumZero(Init<T>(pushers).pushers, Unsized);
  }

  lemma RecycleInv<T>(s: State<T>, node: Ptr, memory: Node<T>)
    requires Inv(s) && Reusable(s, node)
    ensures Inv(Step(s, Recycle(node, memory)))
    ensures Contents(Step(s, Recycle(node, memory))) == Contents(s)
  {
    var r := s.(heap := s.heap[node := memory]);
    assert Chained(r);
    forall u | 0 <= u < |r.pushers| ensures PusherOk(r, r.pushers[u]) {
      var p := s.pushers[u];
      assert PusherOk(s, p);
      if p.SwingTail? && r.tail == p.tail { assert p.tail.ptr in s.chain; }
      PusherStays(s, r, p);
    }
    assert PopperOk(r);
    assert Contents(r) == Contents(s);
  }

  lemma BeginPushInv<T>(s: State<T>, t: nat, item: T, node: Ptr)
    requires Inv(s) && Enabled(s, BeginPush(t, item, node))
    ensures Inv(Step(s, BeginPush(t, item, node)))
    ensures Contents(Step(s, BeginPush(t, item, node))) == Contents(s)
  {
    var memory := Node(NULL_HANDLE, Some(item));
    RecycleInv(s, node, memory);
    var m := Step(s, Recycle(node, memory));
    LocalInv(m, m.(pushers := s.pushers[t := LoadTail(node, item)]), t);
  }

  lemma PusherLocalInv<T>(s: State<T>, t: nat)
    requires Inv(s) && Enabled(s, PushStep(t))
    requires
      || s.pushers[t].LoadTail? || s.pushers[t].LoadNext? || s.pushers[t].CheckTail? || s.pushers[t].AddSize?
      || (s.pushers[t].LinkNext? && s.heap[s.pushers[t].tail.ptr].next != NULL_HANDLE)
    ensures Inv(Step(s, PushStep(t)))
    ensures Contents(Step(s, PushStep(t))) == Contents(s)
  {
    assert PusherOk(s, s.pushers[t]);
    LocalInv(s, Step(s, PushStep(t)), t);
  }

  lemma InnerLinks<T>(s: State<T>)
    requires Chained(s)
    ensures forall i :: 0 <= i < |s.chain| - 1 ==> s.heap[s.chain[i]].next != NULL_HANDLE
  {
    forall i | 0 <= i < |s.chain| - 1 ensures s.heap[s.chain[i]].next != NULL_HANDLE {
      assert s.heap[s.chain[i]].next.ptr == s.chain[i + 1];
    }
  }

  /** The link compare-and-swap can only succeed on the true last node, with the tail still there. */
  lemma LinkTarget<T>(s: State<T>, p: Pusher<T>)
    requires Inv(s) && PusherOk(s, p) && p.LinkNext?
    requires s.heap[p.tail.ptr].next == NULL_HANDLE
    ensures p.tail.ptr == Last(s) && s.tail == p.tail
  {
    var i :| 0 <= i < |s.chain| && s.chain[i] == p.tail.ptr;
    InnerLinks(s);
  }

  lemma LinkChain<T>(s: State<T>, r: State<T>, node: Ptr, tag: nat, item: T)
    requires Chained(s) && Filled(s) && PopperOk(s) && s.tail.ptr == Last(s)
    requires node != NULL && node !in s.chain && node in s.heap && s.heap[node] == Node(NULL_HANDLE, Some(item))
    requires r == s.(heap := s.heap[Last(s) := s.heap[Last(s)].(next := TaggedPtr(node, tag))],
                     chain := s.chain + [node], pushers := r.pushers)
    ensures Chained(r) && TailNearEnd(r) && Filled(r) && PopperOk(r)
    ensures Contents(r) == Contents(s) + [item]
  {
    hide TailNearEnd, Chained;
    LinkShape(s, r, node, tag, item);
    assert forall j :: 1 <= j < |s.chain| ==> ItemAt(r, j) == ItemAt(s, j);
    assert Contents(r) == Contents(s) + [item];
  }

  lemma LinkShape<T>(s: State<T>, r: State<T>, node: Ptr, tag: nat, item: T)
    requires Chained(s) && Filled(s) && PopperOk(s) && s.tail.ptr == Last(s)
    requires node != NULL && node !in s.chain && node in s.heap && s.heap[node] == Node(NULL_HANDLE, Some(item))
    requires r == s.(heap := s.heap[Last(s) := s.heap[Last(s)].(next := TaggedPtr(node, tag))],
                     chain := s.chain + [node], pushers := r.pushers)
    ensures Chained(r) && TailNearEnd(r) && Filled(r) && PopperOk(r)
    ensures s.chain != [] && |r.chain| == |s.chain| + 1 && r.chain[|s.chain|] == node
    ensures forall j :: 0 <= j < |s.chain| ==>
      s.chain[j] in s.heap && s.chain[j] in r.heap && r.chain[j] == s.chain[j]
      && r.heap[s.chain[j]].value == s.heap[s.chain[j]].value
    ensures node in r.heap && r.heap[node].value == Some(item)
  {
    assert forall j :: 0 <= j < |s.chain| - 1 ==> r.heap[r.chain[j]] == s.heap[s.chain[j]];
    assert Chained(r);
    assert Filled(r);
  }

  lemma LinkInv<T>(s: State<T>, t: nat)
    requires Inv(s) && Enabled(s, PushStep(t)) && s.pushers[t].LinkNext?
    requires s.heap[s.pushers[t].tail.ptr].next == NULL_HANDLE
    ensures Inv(Step(s, PushStep(t)))
    ensures Contents(Step(s, PushStep(t))) == Contents(s) + [s.pushers[t].item]
  {
    var r := Step(s, PushStep(t));
    var p := s.pushers[t];
    assert PusherOk(s, p);
    LinkTarget(s, p);
    SumUpdate(s.pushers, t, r.pushers[t], Unsized);
    LinkChain(s, r, p.node, p.tail.tag, p.item);
    assert p.Owns(p.node);
    forall u | 0 <= u < |r.pushers| ensures PusherOk(r, r.pushers[u]) {
      var q := s.pushers[u];
      assert PusherOk(s, q);
      if u != t {
        assert !q.Owns(p.node);
        PusherStays(s, r, q);
      }
    }
  }

  /** A tail compare-and-swap that succeeds moves the tail from the second-last node to the last. */
  lemma TailAdvances<T>(s: State<T>, next: Ptr)
    requires Chained(s) && TailNearEnd(s) && s.tail.ptr in s.heap
    requires s.heap[s.tail.ptr].next.ptr == next && next != NULL
    ensures s.tail.ptr != Last(s) && next == Last(s)
  {
  }

  lemma SetTail<T>(s: State<T>, r: State<T>)
    requires Inv(s)
    requires r == s.(tail := r.tail, pushers := r.pushers, popper := r.popper)
    requires r.tail == s.tail || (s.tail.ptr != Last(s) && r.tail == TaggedPtr(Last(s), s.tail.NextTag()))
    ensures Chained(r) && TailNearEnd(r)
    ensures forall p :: PusherOk(s, p) ==> PusherOk(r, p)
  {
    forall p | PusherOk(s, p) ensures PusherOk(r, p) {
      if p.SwingTail? && r.tail == p.tail { assert r.tail == s.tail; }
      PusherStays(s, r, p);
    }
  }

  lemma SetTailInv<T>(s: State<T>, tail: TaggedPtr)
    requires Inv(s)
    requires tail == s.tail || (s.tail.ptr != Last(s) && tail == TaggedPtr(Last(s), s.tail.NextTag()))
    ensures Inv(s.(tail := tail)) && Contents(s.(tail := tail)) == Contents(s)
    ensures Recent(s.(tail := tail), s.tail)
  {
    hide PusherOk;
    var r := s.(tail := tail);
    SetTail(s, r);
    assert Contents(r) == Contents(s);
  }

  lemma MoveTailInv<T>(s: State<T>, t: nat)
    requires Inv(s) && Enabled(s, PushStep(t))
    requires s.pushers[t].HelpTail? || s.pushers[t].SwingTail?
    ensures Inv(Step(s, PushStep(t)))
    ensures Contents(Step(s, PushStep(t))) == Contents(s)
  {
    var r := Step(s, PushStep(t));
    var p := s.pushers[t];
    assert PusherOk(s, p);
    if s.tail == p.tail {
      TailAdvances(s, s.heap[s.tail.ptr].next.ptr);
    }
    SetTailInv(s, r.tail);
    LocalInv(s.(tail := r.tail), r, t);
  }

  lemma PopLocalInv<T>(s: State<T>, r: State<T>)
    requires Inv(s) && SameMemory(s, r) && r.pushers == s.pushers
    requires !s.popper.PopMoveHead? && !r.popper.PopMoveHead? && PopperOk(r.(pushers := []))
    requires r.size - (if r.popper.PopSubSize? then 1 else 0) == s.size - (if s.popper.PopSubSize? then 1 else 0)
    ensures Inv(r) && Contents(r) == Contents(s)
  {
    hide PusherOk;
    forall u | 0 <= u < |r.pushers| ensures PusherOk(r, r.pushers[u]) {
      PusherFrame(s, r, r.pushers[u]);
    }
    assert PopperOk(r);
    assert Contents(r) == Contents(s);
  }

  lemma PopInv<T>(s: State<T>)
    requires Inv(s) && Enabled(s, PopStep) && !s.popper.PopMoveHead? && !s.popper.PopSteal?
    ensures Inv(Step(s, PopStep))
    ensures Contents(Step(s, PopStep)) == Contents(s)
  {
    var r := Step(s, PopStep);
    if s.popper.PopHelp? {
      if s.tail == s.popper.tail {
        TailAdvances(s, s.popper.next.ptr);
      }
      var m := s.(tail := r.tail, popper := PopLoadTail);
      SetTail(s, m);
      assert Inv(m) && Contents(m) == Contents(s);
    } else {
      assert |s.chain| > 1 ==> s.chain[1] != NULL;
      PopLocalInv(s, r);
    }
  }

  lemma PopStealInv<T>(s: State<T>)
    requires Inv(s) && Enabled(s, PopStep) && s.popper.PopSteal?
    ensures Inv(Step(s, PopStep))
    ensures Contents(Step(s, PopStep)) == Contents(s)
  {
    hide Filled, ItemAt;
    var r := Step(s, PopStep);
    PopStealShape(s);
    assert forall j :: 1 <= j < |s.chain| ==> ItemAt(r, j) == ItemAt(s, j);
    forall u | 0 <= u < |r.pushers| ensures PusherOk(r, r.pushers[u]) {
      assert PusherOk(s, s.pushers[u]);
      PusherStays(s, r, s.pushers[u]);
    }
  }

  lemma PopStealShape<T>(s: State<T>)
    requires Chained(s) && Filled(s) && PopperOk(s) && Enabled(s, PopStep) && s.popper.PopSteal?
    ensures var r := PopperStep(s);
      && Chained(r) && Filled(r) && PopperOk(r)
      && |s.chain| > 1 && s.chain[1] == s.popper.next.ptr
      && forall j :: 1 <= j < |s.chain| ==> ItemAt(r, j) == ItemAt(s, j)
  {
    var r := PopperStep(s);
    assert |s.chain| > 1 && s.chain[1] == s.popper.next.ptr;
    assert forall j :: 0 <= j < |s.chain| && j != 1 ==> r.heap[s.chain[j]] == s.heap[s.chain[j]];
    assert Chained(r);
  }

  lemma PopMoveHeadChain<T>(s: State<T>)
    requires Inv(s) && s.popper.PopMoveHead?
    ensures s.head == s.popper.head && Contents(s) != [] && s.popper.value == Some(Contents(s)[0])
    ensures var r := PopperStep(s);
      && Chained(r) && TailNearEnd(r) && Filled(r) && PopperOk(r) && Last(r) == Last(s)
      && Contents(r) == Contents(s)[1..]
  {
    hide PusherOk, NodesApart, SizeOk;
    var r := PopperStep(s);
    assert s.chain[0] != Last(s);
    assert forall j :: 0 <= j < |r.chain| ==> r.chain[j] == s.chain[j + 1];
    assert forall j :: 1 <= j < |r.chain| ==> ItemAt(r, j) == ItemAt(s, j + 1);
    assert Contents(r) == Contents(s)[1..];
  }

  lemma PopMoveHeadInv<T>(s: State<T>)
    requires Inv(s) && s.popper.PopMoveHead?
    ensures Inv(PopperStep(s))
  {
    var r := PopperStep(s);
    PopMoveHeadChain(s);
    forall u | 0 <= u < |r.pushers| ensures PusherOk(r, r.pushers[u]) {
      assert PusherOk(s, s.pushers[u]);
      PusherStays(s, r, s.pushers[u]);
    }
  }

  // ---------------------------------------------------------------- theorems

  /** One step of the abstract FIFO. */
  ghost predicate FifoStep<T>(before: seq<T>, e: Event<T>, after: seq<T>) {
    match e
    case Silent => after == before
    case Enqueue(item) => after == before + [item]
    case Dequeue(output) => before != [] && output == Some(before[0]) && after == before[1..]
    case SawEmpty => before == [] && after == []
  }

  /** Every atomic step of every thread refines a step of the FIFO. */
  lemma StepRefinesFifo<T>(s: State<T>, a: Action<T>)
    requires Inv(s) && Enabled(s, a)
    ensures Inv(Step(s, a))
    ensures FifoStep(Contents(s), EventOf(s, a), Contents(Step(s, a)))
  {
    match a
    case BeginPush(t, item, node) => BeginPushInv(s, t, item, node);
    case PushStep(t) =>
      if s.pushers[t].HelpTail? || s.pushers[t].SwingTail? {
        MoveTailInv(s, t);
      } else if s.pushers[t].LinkNext? && s.heap[s.pushers[t].tail.ptr].next == NULL_HANDLE {
        LinkInv(s, t);
      } else {
        PusherLocalInv(s, t);
      }
    case BeginPop => PopLocalInv(s, Step(s, a));
    case EndPop => PopLocalInv(s, Step(s, a));
    case Recycle(node, memory) => RecycleInv(s, node, memory);
    case PopStep =>
      if s.popper.PopMoveHead? {
        PopMoveHeadChain(s);
        PopMoveHeadInv(s);
      } else if s.popper.PopSteal? {
        PopStealInv(s);
      } else {
        PopInv(s);
        LoadSeesEmptiness(s);
      }
  }

  /** The popper's load of `head->_next` is null exactly when the FIFO is empty at that moment. */
  lemma LoadSeesEmptiness<T>(s: State<T>)
    requires Inv(s)
    ensures s.popper.PopLoadNext? ==>
      (s.heap[s.popper.head.ptr].next == NULL_HANDLE <==> Contents(s) == [])
  {
    if |s.chain| > 1 {
      assert s.heap[s.chain[0]].next.ptr == s.chain[1];
    }
  }

  lemma PushUnsizedOne<T>(s: State<T>, t: nat, r: State<T>)
    requires Enabled(s, PushStep(t)) && r == Step(s, PushStep(t))
    ensures t < |r.pushers| && r.pushers == s.pushers[t := r.pushers[t]]
    ensures Unsized(r.pushers[t]) == Unsized(s.pushers[t])
      + (if EventOf(s, PushStep(t)).Enqueue? then 1 else 0) - (if r.pushers[t].Idle? then 1 else 0)
  {
  }

  lemma PushUnsized<T>(s: State<T>, t: nat, r: State<T>)
    requires Enabled(s, PushStep(t)) && r == Step(s, PushStep(t))
    ensures |r.pushers| == |s.pushers|
    ensures SumBy(r.pushers, Unsized) == SumBy(s.pushers, Unsized)
      + (if EventOf(s, PushStep(t)).Enqueue? then 1 else 0) - (if r.pushers[t].Idle? then 1 else 0)
  {
    hide Step, EventOf, Unsized;
    PushUnsizedOne(s, t, r);
    SumUpdate(s.pushers, t, r.pushers[t], Unsized);
  }

  /** The part of a pusher's step that its client sees. */
  lemma PushOutcome<T>(s: State<T>, t: nat, r: State<T>)
    requires Inv(s) && Enabled(s, PushStep(t)) && r == Step(s, PushStep(t))
    ensures Inv(r) && FifoStep(Contents(s), EventOf(s, PushStep(t)), Contents(r))
    ensures r.popper == s.popper && |r.pushers| == |s.pushers|
    ensures forall u :: 0 <= u < |s.pushers| && u != t ==> r.pushers[u] == s.pushers[u]
    ensures EventOf(s, PushStep(t)).Silent? || EventOf(s, PushStep(t)).Enqueue?
    ensures SumBy(r.pushers, Unsized) == SumBy(s.pushers, Unsized)
      + (if EventOf(s, PushStep(t)).Enqueue? then 1 else 0) - (if r.pushers[t].Idle? then 1 else 0)
  {
    hide Chained, TailNearEnd, Filled, PusherOk, PopperOk, NodesApart, SizeOk, Contents;
    StepRefinesFifo(s, PushStep(t));
    PushUnsized(s, t, r);
  }

  /** The part of the popper's step that its client sees. */
  lemma PopOutcome<T>(s: State<T>, r: State<T>)
    requires Inv(s) && Enabled(s, PopStep) && r == Step(s, PopStep)
    ensures Inv(r) && FifoStep(Contents(s), EventOf(s, PopStep), Contents(r)) && r.pushers == s.pushers
    ensures EventOf(s, PopStep).Dequeue? <==> s.popper.PopMoveHead?
    ensures EventOf(s, PopStep).Dequeue? ==> r.popper == PopSubSize(EventOf(s, PopStep).output)
    ensures !r.popper.PopIdle?
    ensures r.popper.PopDone? ==> r.popper.value.Some? || (s.popper.PopCheck? && s.popper.next == NULL_HANDLE)
    ensures r.popper.PopCheck? && r.popper.next == NULL_HANDLE ==> Contents(r) == []
    ensures s.popper.PopSubSize? ==> r.popper == PopDone(s.popper.value)
    ensures r.popper.PopSubSize? ==> s.popper.PopMoveHead?
    ensures r.popper.PopDone? ==> s.popper.PopSubSize? || s.popper.PopCheck?
  {
    StepRefinesFifo(s, PopStep);
    LoadSeesEmptiness(s);
    if s.popper.PopMoveHead? { PopMoveHeadChain(s); }
  }

  /** No access in the machine ever touches unmapped memory. */
  lemma CanStep<T>(s: State<T>)
    requires Inv(s)
    ensures PopReadable(s)
    ensures forall t :: 0 <= t < |s.pushers| ==> Readable(s, s.pushers[t])
  {
    assert forall t :: 0 <= t < |s.pushers| ==> PusherOk(s, s.pushers[t]);
    assert |s.chain| > 1 ==> s.heap[s.chain[0]].next.ptr == s.chain[1];
  }

  predicate Legal<T>(s: State<T>, actions: seq<Action<T>>)
    decreases actions
  {
    actions == [] || (Enabled(s, actions[0]) && Legal(Step(s, actions[0]), actions[1..]))
  }

  function Exec<T>(s: State<T>, actions: seq<Action<T>>): State<T>
    requires Legal(s, actions)
    decreases actions
  {
    if actions == [] then s else Exec(Step(s, actions[0]), actions[1..])
  }

  function In<T>(e: Event<T>): seq<T> {
    if e.Enqueue? then [e.item] else []
  }

  function Out<T>(e: Event<T>): seq<Option<T>> {
    if e.Dequeue? then [e.output] else []
  }

  function Enqueued<T>(s: State<T>, actions: seq<Action<T>>): seq<T>
    requires Legal(s, actions)
    decreases actions
  {
    if actions == [] then []
    else In(EventOf(s, actions[0])) + Enqueued(Step(s, actions[0]), actions[1..])
  }

  function Dequeued<T>(s: State<T>, actions: seq<Action<T>>): seq<Option<T>>
    requires Legal(s, actions)
    decreases actions
  {
    if actions == [] then []
    else Out(EventOf(s, actions[0])) + Dequeued(Step(s, actions[0]), actions[1..])
  }

  function Present<T>(items: seq<T>): seq<Option<T>> {
    seq(|items|, i requires 0 <= i < |items| => Some(items[i]))
  }

  lemma Splice<T>(before: seq<T>, e: Event<T>, after: seq<T>, rest: seq<T>)
    requires FifoStep(before, e, after)
    ensures Present(before + (In(e) + rest)) == Out(e) + Present(after + rest)
  {
    if e.Dequeue? {
      assert before == [before[0]] + after;
      assert before + (In(e) + rest) == [before[0]] + (after + rest);
    } else {
      assert before + (In(e) + rest) == after + rest;
    }
  }

  /**
   Over any interleaving, what has been taken out followed by what is still inside is exactly
   what was linked, in link order: nothing is lost, doubled, reordered or emptied on the way.
   */
  lemma {:induction false} FifoHistory<T>(s: State<T>, actions: seq<Action<T>>)
    requires Inv(s) && Legal(s, actions)
    ensures Inv(Exec(s, actions))
    ensures Present(Contents(s) + Enqueued(s, actions))
            == Dequeued(s, actions) + Present(Contents(Exec(s, actions)))
    decreases actions
  {
    hide Chained, TailNearEnd, Filled, PusherOk, PopperOk, NodesApart, SizeOk, Step, EventOf, Contents, Present;
    if actions == [] {
      assert Contents(s) + [] == Contents(s);
    } else {
      var r := Step(s, actions[0]);
      StepRefinesFifo(s, actions[0]);
      FifoHistory(r, actions[1..]);
      Splice(Contents(s), EventOf(s, actions[0]), Contents(r), Enqueued(r, actions[1..]));
      Associate(Out(EventOf(s, actions[0])), Dequeued(r, actions[1..]), Present(Contents(Exec(s, actions))));
    }
  }

  /** What thread `t` linked, in order. */
  ghost function LinkedBy<T>(enqueued: seq<T>, linkers: seq<nat>, t: nat): seq<T>
    requires |enqueued| == |linkers|
    decreases |enqueued|
  {
    if enqueued == [] then [] else
      var n := |enqueued| - 1;
      LinkedBy(enqueued[..n], linkers[..n], t) + (if linkers[n] == t then [enqueued[n]] else [])
  }

  lemma LinkedByAppend<T>(enqueued: seq<T>, linkers: seq<nat>, items: seq<T>, u: nat, t: nat)
    requires |enqueued| == |linkers| && |items| <= 1
    ensures LinkedBy(enqueued + items, linkers + seq(|items|, _ => u), t)
         == LinkedBy(enqueued, linkers, t) + (if u == t then items else [])
  {
    if items == [] {
      assert enqueued + items == enqueued && linkers + seq(|items|, _ => u) == linkers;
    } else {
      assert (enqueued + items)[..|enqueued|] == enqueued;
      assert (linkers + seq(|items|, _ => u))[..|enqueued|] == linkers;
    }
  }

  lemma LinkedByOne<T>(enqueued: seq<T>, linkers: seq<nat>, item: T, u: nat, t: nat)
    requires |enqueued| == |linkers|
    ensures LinkedBy(enqueued + [item], linkers + [u], t)
         == LinkedBy(enqueued, linkers, t) + (if u == t then [item] else [])
  {
    assert (enqueued + [item])[..|enqueued|] == enqueued;
    assert (linkers + [u])[..|linkers|] == linkers;
  }

  /** The bookkeeping sequence is not a choice: it is the only null-terminated path from the head. */
  lemma {:induction false} ChainIsDetermined<T>(s: State<T>, path: seq<Ptr>)
    requires Inv(s) && Chained(s.(chain := path))
    ensures path == s.chain
  {
    var r := s.(chain := path);
    InnerLinks(s);
    InnerLinks(r);
    var i := 0;
    while i + 1 < |path| && i + 1 < |s.chain|
      invariant i < |path| && i < |s.chain|
      invariant path[..i + 1] == s.chain[..i + 1]
    {
      assert s.heap[path[i]].next.ptr == path[i + 1];
      assert s.heap[s.chain[i]].next.ptr == s.chain[i + 1];
      i := i + 1;
    }
    assert path[i] == s.chain[i];
  }

  // ---------------------------------------------------------------- the consumer is wait-free

  /** Own steps a `Pop` still needs, at most. */
  function PopMeasure<T>(s: State<T>): nat {
    match s.popper
    case PopIdle => 0
    case PopLoadTail => if s.tail.ptr == s.head.ptr then 12 else 7
    case PopLoadHead(tail) => if tail.ptr == s.head.ptr then 11 else 6
    case PopLoadNext(tail, _) => if tail.ptr == s.head.ptr then 10 else 5
    case PopCheck(tail, _, _) => if tail.ptr == s.head.ptr then 9 else 4
    case PopHelp(_, _) => 8
    case PopSteal(_, _) => 3
    case PopMoveHead(_, _, _) => 2
    case PopSubSize(_) => 1
    case PopDone(_) => 0
  }

  lemma PushKeepsPopMeasure<T>(s: State<T>, t: nat)
    requires Inv(s) && Enabled(s, PushStep(t))
    ensures PopMeasure(Step(s, PushStep(t))) <= PopMeasure(s)
  {
    hide Filled, NodesApart, SizeOk;
    var p := s.pushers[t];
    assert PusherOk(s, p);
    if (p.HelpTail? || p.SwingTail?) && s.tail == p.tail {
      TailAdvances(s, s.heap[s.tail.ptr].next.ptr);
      assert Last(s) != s.head.ptr;
    }
  }

  /**
   `Pop` returns after at most 12 of its own accesses whatever the pushers do: its head
   compare-and-swap never fails and it goes round its loop at most twice.
   */
  lemma PopIsWaitFree<T>(s: State<T>, a: Action<T>)
    requires Inv(s) && Enabled(s, a)
    ensures a.PopStep? ==> PopMeasure(Step(s, a)) < PopMeasure(s)
    ensures a.BeginPop? ==> PopMeasure(Step(s, a)) <= 12
    ensures !a.PopStep? && !a.BeginPop? ==> PopMeasure(Step(s, a)) <= PopMeasure(s)
  {
    if a.PushStep? {
      PushKeepsPopMeasure(s, a.t);
    } else if a.PopStep? && s.popper.PopHelp? {
      if s.tail == s.popper.tail {
        TailAdvances(s, s.popper.next.ptr);
      }
    }
  }

  // ---------------------------------------------------------------- producers are lock-free

  /** 1 while the last node is linked and the tail has not been swung to it. */
  function Lag<T>(s: State<T>): nat
    requires s.chain != []
  {
    if s.tail.ptr == Last(s) then 0 else 1
  }

  predicate Mapped<T>(s: State<T>, p: Pusher<T>) {
    p.HasTail() ==> p.tail.ptr in s.heap
  }

  /** Its round is lost: the tail, or the link it was going to set, has changed under it. */
  predicate Beaten<T>(s: State<T>, p: Pusher<T>)
    requires Mapped(s, p)
  {
    p.HasTail() && (p.tail != s.tail
      || ((p.LinkNext? || (p.CheckTail? && p.next == NULL_HANDLE)) && s.heap[p.tail.ptr].next != NULL_HANDLE))
  }

  /** Own steps a push still needs if it is left alone. */
  function PushMeasure<T>(s: State<T>, p: Pusher<T>): nat
    requires s.chain != [] && Mapped(s, p)
  {
    match p
    case Idle => 0
    case AddSize => 1
    case SwingTail(_, _) => 2
    case LinkNext(_, _, _) => 9 * Lag(s) + (if Beaten(s, p) then 7 else 3)
    case HelpTail(_, _, _, _) => 9 * Lag(s) + (if Beaten(s, p) then 7 else 3)
    case CheckTail(_, _, _, _) => 9 * Lag(s) + (if Beaten(s, p) then 8 else 4)
    case LoadNext(_, _, _) => 9 * Lag(s) + (if Beaten(s, p) then 9 else 5)
    case LoadTail(_, _) => 9 * Lag(s) + 6
  }

  /**
   Every own step of a push takes it nearer its end, and nobody else's step sets it back by more
   than 15.
   */
  lemma PushIsLockFree<T>(s: State<T>, a: Action<T>, t: nat)
    requires Inv(s) && Enabled(s, a) && t < |s.pushers|
    ensures Inv(Step(s, a)) && |Step(s, a).pushers| == |s.pushers|
    ensures Mapped(s, s.pushers[t]) && Mapped(Step(s, a), Step(s, a).pushers[t])
    ensures PushMeasure(s, s.pushers[t]) <= 18
    ensures var r := Step(s, a);
      if a == PushStep(t) then PushMeasure(r, r.pushers[t]) < PushMeasure(s, s.pushers[t])
      else !Begins(a, t) ==>
        r.pushers[t] == s.pushers[t] && PushMeasure(r, r.pushers[t]) <= PushMeasure(s, s.pushers[t]) + 15
  {
    hide Chained, TailNearEnd, Filled, PopperOk, NodesApart, SizeOk, EventOf, Contents, FifoStep;
    StepRefinesFifo(s, a);
    assert PusherOk(s, s.pushers[t]);
    assert PusherOk(Step(s, a), Step(s, a).pushers[t]);
    if a == PushStep(t) { OwnPushStep(s, t); }
  }

  predicate Begins<T>(a: Action<T>, t: nat) {
    a.BeginPush? && a.t == t
  }

  function OwnSteps<T>(actions: seq<Action<T>>, t: nat): nat {
    if actions == [] then 0 else (if actions[0] == PushStep(t) then 1 else 0) + OwnSteps(actions[1..], t)
  }

  /**
   `Push` is lock-free: during one push a thread makes at most 15 accesses, plus 15 for each step
   the others take meanwhile.
   */
  lemma {:induction false} PushBudget<T>(s: State<T>, actions: seq<Action<T>>, t: nat)
    requires Inv(s) && Legal(s, actions) && t < |s.pushers|
    requires forall i :: 0 <= i < |actions| ==> !Begins(actions[i], t)
    ensures Mapped(s, s.pushers[t])
    ensures OwnSteps(actions, t) <= PushMeasure(s, s.pushers[t]) + 15 * (|actions| - OwnSteps(actions, t))
    ensures s.pushers[t].LoadTail? ==> OwnSteps(actions, t) <= 15 + 15 * (|actions| - OwnSteps(actions, t))
    decreases actions
  {
    hide PusherOk, Filled, PopperOk, NodesApart, SizeOk, Step, Begins;
    TailIsMapped(s, t);
    if actions != [] {
      PushIsLockFree(s, actions[0], t);
      assert forall i :: 0 <= i < |actions[1..]| ==> actions[1..][i] == actions[i + 1];
      PushBudget(Step(s, actions[0]), actions[1..], t);
    }
  }

  lemma TailIsMapped<T>(s: State<T>, t: nat)
    requires Inv(s) && t < |s.pushers|
    ensures Mapped(s, s.pushers[t])
  {
    assert PusherOk(s, s.pushers[t]);
  }

  lemma OwnPushStep<T>(s: State<T>, t: nat)
    requires Inv(s) && Enabled(s, PushStep(t))
    requires Mapped(s, s.pushers[t])
    requires Step(s, PushStep(t)).chain != [] && Mapped(Step(s, PushStep(t)), Step(s, PushStep(t)).pushers[t])
    ensures PushMeasure(Step(s, PushStep(t)), Step(s, PushStep(t)).pushers[t]) < PushMeasure(s, s.pushers[t])
  {
    hide Filled, PopperOk, NodesApart, SizeOk;
    var p := s.pushers[t];
    assert PusherOk(s, p);
    if p.HelpTail? && s.tail == p.tail {
      TailAdvances(s, p.next.ptr);
    }
  }
}
