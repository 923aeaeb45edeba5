/**
 What the queue needs from its node pool. The pool reuses a popped node at once, and both freeing
 and constructing reset its `_next`; a pusher asleep before its link must not meet that reset.
 */
module LockFreeQueueRecycling {
  import opened Wrappers
  import opened TaggedPointers
  import opened Counting
  import opened LockFreeQueue
  import opened LockFreeQueueProofs

  /** A popped node whose link word the pool has set back to null. */
  function Reset<T>(s: State<T>, n: Ptr): State<T> {
    s.(heap := s.heap[n := Node(NULL_HANDLE, None)])
  }

  /**
   A pending link is safe across the reset of a popped node exactly when the pusher does not hold
   that node: then it can still only succeed on the true last node.
   */
  lemma LinkSurvivesReset<T>(s: State<T>, t: nat, n: Ptr)
    requires Inv(s) && t < |s.pushers| && s.pushers[t].LinkNext?
    requires n != NULL && n !in s.chain
    requires forall u :: 0 <= u < |s.pushers| ==> !s.pushers[u].Owns(n)
    ensures Readable(Reset(s, n), s.pushers[t])
    ensures
      (EventOf(Reset(s, n), PushStep(t)).Enqueue? ==> s.pushers[t].tail.ptr == Last(s))
      <==> !s.pushers[t].Holds(n)
  {
    var p := s.pushers[t];
    assert PusherOk(s, p);
    if !p.Holds(n) && s.heap[p.tail.ptr].next == NULL_HANDLE {
      LinkTarget(s, p);
    }
  }

  /** Every link about to happen can only succeed on the true last node. */
  ghost predicate LinksAtTheEnd<T>(s: State<T>, last: Ptr) {
    forall t ::
      0 <= t < |s.pushers| && s.pushers[t].LinkNext? && Readable(s, s.pushers[t]) ==>
        EventOf(s, PushStep(t)).Enqueue? ==> s.pushers[t].tail.ptr == last
  }

  lemma NotAfterReset<T>(s: State<T>, p: Pusher<T>, n: Ptr)
    requires n !in s.chain && p.Holds(n)
    ensures Chained(Reset(s, n)) ==> !PusherOk(Reset(s, n), p)
  {
  }

  /**
   The guard of the queue theorems is the exact one: the pool may reset a node that is off the chain
   and in nobody's hands if and only if no link can then go astray, and if and only if the invariant
   survives.
   */
  lemma ReuseGuardIsExact<T>(s: State<T>, n: Ptr)
    requires Inv(s) && n != NULL && n !in s.chain
    requires forall u :: 0 <= u < |s.pushers| ==> !s.pushers[u].Owns(n)
    ensures Reusable(s, n) <==> LinksAtTheEnd(Reset(s, n), Last(s))
    ensures Reusable(s, n) <==> Inv(Reset(s, n))
  {
    hide TailNearEnd, Filled, PopperOk, NodesApart, SizeOk, EventOf;
    forall t | 0 <= t < |s.pushers| && s.pushers[t].LinkNext?
      ensures (EventOf(Reset(s, n), PushStep(t)).Enqueue? ==> s.pushers[t].tail.ptr == Last(s))
        <==> !s.pushers[t].Holds(n)
    {
      TailIsMapped(s, t);
      LinkSurvivesReset(s, t, n);
    }
    if Reusable(s, n) {
      RecycleInv(s, n, Node(NULL_HANDLE, None));
    } else {
      var t :| 0 <= t < |s.pushers| && s.pushers[t].Holds(n);
      TailIsMapped(s, t);
      NotAfterReset(s, s.pushers[t], n);
    }
  }

  lemma Unfold<T>(s: State<T>, a: Action<T>, rest: seq<Action<T>>)
    requires Enabled(s, a) && Legal(Step(s, a), rest)
    ensures Legal(s, [a] + rest) && Exec(s, [a] + rest) == Exec(Step(s, a), rest)
  {
    assert ([a] + rest)[1..] == rest;
  }

  lemma {:induction false} ExecSplit<T>(s: State<T>, first: seq<Action<T>>, second: seq<Action<T>>)
    requires Legal(s, first) && Legal(Exec(s, first), second)
    ensures Legal(s, first + second) && Exec(s, first + second) == Exec(Exec(s, first), second)
    decreases first
  {
    if first == [] {
      assert first + second == second;
    } else {
      assert (first + second)[1..] == first[1..] + second;
      ExecSplit(Step(s, first[0]), first[1..], second);
    }
  }

  /** A pusher goes up to its link undisturbed. */
  lemma GoesToLink(s: State<nat>, t: nat, item: nat, node: Ptr) returns (actions: seq<Action<nat>>)
    requires Enabled(s, BeginPush(t, item, node))
    requires s.tail.ptr in s.heap && s.tail.ptr != node && s.heap[s.tail.ptr].next == NULL_HANDLE
    ensures Legal(s, actions)
    ensures Exec(s, actions) == s.(
      heap := s.heap[node := Node(NULL_HANDLE, Some(item))],
      pushers := s.pushers[t := LinkNext(node, item, s.tail)])
  {
    var p := PushStep(t);
    var s1 := Step(s, BeginPush(t, item, node));
    var s2 := Step(s1, p);
    var s3 := Step(s2, p);
    var s4 := Step(s3, p);
    assert s4.pushers == s.pushers[t := LinkNext(node, item, s.tail)];
    Unfold(s3, p, []);
    Unfold(s2, p, [p] + []);
    Unfold(s1, p, [p] + ([p] + []));
    Unfold(s, BeginPush(t, item, node), [p] + ([p] + ([p] + [])));
    actions := [BeginPush(t, item, node)] + ([p] + ([p] + ([p] + [])));
  }

  /** It links, swings the tail and counts undisturbed. */
  lemma Links(s: State<nat>, t: nat) returns (actions: seq<Action<nat>>)
    requires t < |s.pushers| && s.pushers[t].LinkNext? && s.pushers[t].tail == s.tail
    requires s.tail.ptr in s.heap && s.heap[s.tail.ptr].next == NULL_HANDLE
    ensures Legal(s, actions)
    ensures var node := s.pushers[t].node; Exec(s, actions) == s.(
      heap := s.heap[s.tail.ptr := s.heap[s.tail.ptr].(next := TaggedPtr(node, s.tail.tag))],
      tail := TaggedPtr(node, s.tail.NextTag()),
      size := s.size + 1,
      chain := s.chain + [node],
      pushers := s.pushers[t := Idle])
  {
    var p := PushStep(t);
    var s1 := Step(s, p);
    var s2 := Step(s1, p);
    var s3 := Step(s2, p);
    assert s3.pushers == s.pushers[t := Idle];
    Unfold(s2, p, []);
    Unfold(s1, p, [p] + []);
    Unfold(s, p, [p] + ([p] + []));
    actions := [p] + ([p] + ([p] + []));
  }

  function Tail5(): seq<Action<nat>> { [PopStep] + ([PopStep] + ([PopStep] + ([PopStep] + ([EndPop] + [])))) }

  /** An undisturbed pop of the only item. */
  lemma Pops(s: State<nat>) returns (actions: seq<Action<nat>>)
    requires s.popper.PopIdle? && s.chain != [] && s.head.ptr in s.heap && s.head.ptr != s.tail.ptr
    requires s.heap[s.head.ptr].next != NULL_HANDLE && s.heap[s.head.ptr].next.ptr in s.heap
    ensures Legal(s, actions)
    ensures var next := s.heap[s.head.ptr].next.ptr; Exec(s, actions) == s.(
      heap := s.heap[next := s.heap[next].(value := None)],
      head := TaggedPtr(next, s.head.NextTag()),
      size := s.size - 1,
      chain := s.chain[1..])
  {
    var s1 := Step(s, BeginPop);
    var s2 := Step(s1, PopStep);
    var s3 := Step(s2, PopStep);
    var s4 := Step(s3, PopStep);
    assert s4.popper == PopCheck(s.tail, s.head, s.heap[s.head.ptr].next);
    var s5 := Step(s4, PopStep);
    var s6 := Step(s5, PopStep);
    var s7 := Step(s6, PopStep);
    var s8 := Step(s7, PopStep);
    var s9 := Step(s8, EndPop);
    Unfold(s8, EndPop, []);
    Unfold(s7, PopStep, [EndPop] + []);
    Unfold(s6, PopStep, [PopStep] + ([EndPop] + []));
    Unfold(s5, PopStep, [PopStep] + ([PopStep] + ([EndPop] + [])));
    Unfold(s4, PopStep, [PopStep] + ([PopStep] + ([PopStep] + ([EndPop] + []))));
    Unfold(s3, PopStep, Tail5());
    Unfold(s2, PopStep, [PopStep] + Tail5());
    Unfold(s1, PopStep, [PopStep] + ([PopStep] + Tail5()));
    Unfold(s, BeginPop, [PopStep] + ([PopStep] + ([PopStep] + Tail5())));
    actions := [BeginPop] + ([PopStep] + ([PopStep] + ([PopStep] + Tail5())));
  }

  /**
   A run after which a pusher sleeps at its link holding node 1, which has been popped.
   */
  lemma GoesToSleep() returns (actions: seq<Action<nat>>)
    ensures Legal(Init<nat>(2), actions) && ItemPopped(Exec(Init<nat>(2), actions))
  {
    var s0 := Init<nat>(2);
    var a := GoesToLink(s0, 0, 20, 2);
    var s1 := Exec(s0, a);
    var b := GoesToLink(s1, 1, 30, 3);
    var s2 := Exec(s1, b);
    var c := Links(s2, 1);
    var s3 := Exec(s2, c);
    assert s3.chain == [1, 3] && s3.head == TaggedPtr(1, 0) && s3.tail == TaggedPtr(3, 1);
    var d := Pops(s3);
    ExecSplit(s0, a, b);
    ExecSplit(s0, a + b, c);
    ExecSplit(s0, a + b + c, d);
    actions := a + b + c + d;
  }

  /**
   The condition is needed. If in that run the pool resets the node, the link succeeds, yet the
   consumer still finds the queue empty. From there on the memory is that of a queue without the item
   (`Without`): whatever happens later, exactly the items linked later come out.
   */
  lemma ResetUnderAPusherLosesItsItem() returns (actions: seq<Action<nat>>)
    ensures Legal(Init<nat>(2), actions)
    ensures var s := Exec(Init<nat>(2), actions);
      && |s.pushers| == 2 && s.pushers[0] == LinkNext(2, 20, TaggedPtr(1, 0)) && 1 !in s.chain
      && Enabled(Reset(s, 1), PushStep(0))
      && EventOf(Reset(s, 1), PushStep(0)) == Enqueue(20)
      && var r := Step(Reset(s, 1), PushStep(0));
         r.head.ptr in r.heap && r.heap[r.head.ptr].next == NULL_HANDLE && r.head.ptr == r.tail.ptr
         && OnlyLaterItems(Without(r))
  {
    hide OnlyLaterItems, Legal, Exec;
    actions := GoesToSleep();
    AfterTheLoss(Exec(Init<nat>(2), actions));
  }

  /** The same memory and threads, the item that went astray not counted. */
  function Without(r: State<nat>): State<nat> {
    r.(chain := [r.head.ptr], size := r.size - 1)
  }

  /** The state of that run, its chain being the single node 3. */
  predicate ItemPopped(s: State<nat>) {
    && s.head == TaggedPtr(3, 1) && s.tail == TaggedPtr(3, 1) && s.size == 0 && s.chain == [3]
    && s.popper == PopIdle && s.pushers == [LinkNext(2, 20, TaggedPtr(1, 0)), Idle]
    && s.heap == map[1 := Node(TaggedPtr(3, 0), None), 2 := Node(NULL_HANDLE, Some(20)), 3 := Node(NULL_HANDLE, None)]
  }

  lemma AfterTheLoss(s: State<nat>)
    requires ItemPopped(s)
    ensures Enabled(Reset(s, 1), PushStep(0))
    ensures var r := Step(Reset(s, 1), PushStep(0));
      OnlyLaterItems(Without(r))
  {
    var r := Step(Reset(s, 1), PushStep(0));
    assert r.pushers == [SwingTail(2, TaggedPtr(1, 0)), Idle];
    assert SumBy(r.pushers[1..], Unsized) == 0;
    EmptyHasOnlyLaterItems(Without(r));
  }

  /** An empty queue in order: in every run what has come out, and then what is inside, is what was linked. */
  ghost predicate OnlyLaterItems(s: State<nat>) {
    && Inv(s) && Contents(s) == []
    && forall later :: Legal(s, later) ==>
         var r := Exec(s, later);
         Inv(r) && Present(Enqueued(s, later)) == Dequeued(s, later) + Present(Contents(r))
  }

  lemma EmptyHasOnlyLaterItems(s: State<nat>)
    requires Inv(s) && Contents(s) == []
    ensures OnlyLaterItems(s)
  {
    forall later | Legal(s, later)
      ensures
        var r := Exec(s, later);
        Inv(r) && Present(Enqueued(s, later)) == Dequeued(s, later) + Present(Contents(r))
    {
      FifoHistory(s, later);
      assert Contents(s) + Enqueued(s, later) == Enqueued(s, later);
    }
  }
}
