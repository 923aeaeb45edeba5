/**
 Why the queue has one consumer. `Pop` loads the tail before the head; with a second consumer the
 head can go past a lagging tail, and the node the tail points to returns to the pool. Whatever is
 pushed from then on is lost, and no `Pop` ever returns.
 */
module LockFreeQueueConsumers {
  import opened Wrappers
  import opened TaggedPointers
  import opened Counting
  import opened LockFreeQueue
  import opened LockFreeQueueProofs

  /** The queue machine with a second popper beside its own. */
  datatype Two = Two(queue: State<nat>, second: Popper<nat>)

  datatype TwoAction = One(a: Action<nat>) | BeginSecond | StepSecond

  /** The queue as the second popper sees it. */
  function Seen(s: Two): State<nat> { s.queue.(popper := s.second) }

  predicate MayStep(s: Two, a: TwoAction) {
    match a
    case One(b) => Enabled(s.queue, b)
    case BeginSecond => Enabled(Seen(s), BeginPop)
    case StepSecond => Enabled(Seen(s), PopStep)
  }

  function StepTwo(s: Two, a: TwoAction): Two
    requires MayStep(s, a)
  {
    match a
    case One(b) => Two(Step(s.queue, b), s.second)
    case BeginSecond => Two(s.queue, PopLoadTail)
    case StepSecond =>
      var r := Step(Seen(s), PopStep);
      Two(r.(popper := s.queue.popper), r.popper)
  }

  predicate LegalTwo(s: Two, actions: seq<TwoAction>)
    decreases actions
  {
    actions == [] || (MayStep(s, actions[0]) && LegalTwo(StepTwo(s, actions[0]), actions[1..]))
  }

  function ExecTwo(s: Two, actions: seq<TwoAction>): Two
    requires LegalTwo(s, actions)
    decreases actions
  {
    if actions == [] then s else ExecTwo(StepTwo(s, actions[0]), actions[1..])
  }

  ghost predicate Reaches(s: Two, r: Two) {
    exists actions :: LegalTwo(s, actions) && ExecTwo(s, actions) == r
  }

  lemma Stays(s: Two)
    ensures Reaches(s, s)
  {
    assert LegalTwo(s, []) && ExecTwo(s, []) == s;
  }

  lemma OneMore(s: Two, m: Two, a: TwoAction)
    requires Reaches(s, m) && MayStep(m, a)
    ensures Reaches(s, StepTwo(m, a))
  {
    var actions :| LegalTwo(s, actions) && ExecTwo(s, actions) == m;
    ExecAppend(s, actions, a);
  }

  lemma {:induction false} ExecAppend(s: Two, actions: seq<TwoAction>, a: TwoAction)
    requires LegalTwo(s, actions) && MayStep(ExecTwo(s, actions), a)
    ensures LegalTwo(s, actions + [a]) && ExecTwo(s, actions + [a]) == StepTwo(ExecTwo(s, actions), a)
    decreases actions
  {
    hide StepTwo, MayStep;
    if actions == [] {
      assert LegalTwo(StepTwo(s, a), []);
      assert ([] + [a])[1..] == [];
    } else {
      assert (actions + [a])[1..] == actions[1..] + [a];
      ExecAppend(StepTwo(s, actions[0]), actions[1..], a);
    }
  }

  // ---------------------------------------------------------------- the run

  function Empty(): Node<nat> { Node(NULL_HANDLE, None) }

  /** The first consumer has loaded the tail of an empty queue. */
  function TailLoaded(): Two {
    Two(State(TaggedPtr(1, 0), TaggedPtr(1, 0), 0, map[1 := Empty()], [Idle, Idle], PopLoadHead(TaggedPtr(1, 0)), [1]),
        PopIdle)
  }

  /** Then an item was pushed. */
  function ItemPushed(): Two {
    Two(State(TaggedPtr(1, 0), TaggedPtr(2, 1), 1,
              map[1 := Node(TaggedPtr(2, 0), None), 2 := Node(NULL_HANDLE, Some(20))],
              [Idle, Idle], PopLoadHead(TaggedPtr(1, 0)), [1, 2]),
        PopIdle)
  }

  /** Then the second consumer took it. */
  function ItemTaken(): Two {
    Two(State(TaggedPtr(2, 1), TaggedPtr(2, 1), 1, map[1 := Node(TaggedPtr(2, 0), None), 2 := Empty()],
              [Idle, Idle], PopLoadHead(TaggedPtr(1, 0)), [2]),
        PopSubSize(Some(20)))
  }

  /** Then a second item was linked; the tail has not been swung to it. */
  function SecondLinked(): Two {
    Two(State(TaggedPtr(2, 1), TaggedPtr(2, 1), 1,
              map[1 := Node(TaggedPtr(2, 0), None), 2 := Node(TaggedPtr(3, 1), None), 3 := Node(NULL_HANDLE, Some(30))],
              [SwingTail(3, TaggedPtr(2, 1)), Idle], PopLoadHead(TaggedPtr(1, 0)), [2, 3]),
        PopSubSize(Some(20)))
  }

  /** Then the first consumer, holding its old tail, took that one. */
  function HeadPastTail(): Two {
    Two(State(TaggedPtr(3, 2), TaggedPtr(2, 1), 1,
              map[1 := Node(TaggedPtr(2, 0), None), 2 := Node(TaggedPtr(3, 1), None), 3 := Empty()],
              [SwingTail(3, TaggedPtr(2, 1)), Idle], PopSubSize(Some(30)), [3]),
        PopSubSize(Some(20)))
  }

  lemma LoadsTail()
    ensures Reaches(Two(Init<nat>(2), PopIdle), TailLoaded())
  {
    hide LegalTwo, ExecTwo, Reaches;
    var s := Two(Init<nat>(2), PopIdle);
    assert s.queue.pushers == [Idle, Idle];
    Stays(s);
    OneMore(s, s, One(BeginPop));
    var s1 := StepTwo(s, One(BeginPop));
    OneMore(s, s1, One(PopStep));
  }

  lemma Pushes(s: Two)
    requires Reaches(s, TailLoaded())
    ensures Reaches(s, ItemPushed())
  {
    hide LegalTwo, ExecTwo, Reaches;
    var p := One(PushStep(0));
    var s0 := TailLoaded();
    var s1 := StepTwo(s0, One(BeginPush(0, 20, 2)));
    var s2 := StepTwo(s1, p);
    var s3 := StepTwo(s2, p);
    var s4 := StepTwo(s3, p);
    assert s4.queue.pushers == [LinkNext(2, 20, TaggedPtr(1, 0)), Idle];
    var s5 := StepTwo(s4, p);
    var s6 := StepTwo(s5, p);
    var s7 := StepTwo(s6, p);
    OneMore(s, s0, One(BeginPush(0, 20, 2)));
    OneMore(s, s1, p); OneMore(s, s2, p); OneMore(s, s3, p);
    OneMore(s, s4, p); OneMore(s, s5, p); OneMore(s, s6, p);
    assert s7.queue.pushers == [Idle, Idle] && s7.queue.chain == [1, 2];
    assert s7.queue.heap == ItemPushed().queue.heap;
  }

  lemma SecondTakes(s: Two)
    requires Reaches(s, ItemPushed())
    ensures Reaches(s, ItemTaken())
  {
    hide LegalTwo, ExecTwo, Reaches;
    var p := StepSecond;
    var s0 := ItemPushed();
    var s1 := StepTwo(s0, BeginSecond);
    var s2 := StepTwo(s1, p);
    var s3 := StepTwo(s2, p);
    var s4 := StepTwo(s3, p);
    assert s4.second == PopCheck(TaggedPtr(2, 1), TaggedPtr(1, 0), TaggedPtr(2, 0));
    var s5 := StepTwo(s4, p);
    var s6 := StepTwo(s5, p);
    var s7 := StepTwo(s6, p);
    OneMore(s, s0, BeginSecond);
    OneMore(s, s1, p); OneMore(s, s2, p); OneMore(s, s3, p);
    OneMore(s, s4, p); OneMore(s, s5, p); OneMore(s, s6, p);
    assert s7.queue.chain == [2] && s7.queue.heap == ItemTaken().queue.heap;
  }

  lemma LinksSecond(s: Two)
    requires Reaches(s, ItemTaken())
    ensures Reaches(s, SecondLinked())
  {
    hide LegalTwo, ExecTwo, Reaches;
    var p := One(PushStep(0));
    var s0 := ItemTaken();
    var s1 := StepTwo(s0, One(BeginPush(0, 30, 3)));
    var s2 := StepTwo(s1, p);
    var s3 := StepTwo(s2, p);
    var s4 := StepTwo(s3, p);
    assert s4.queue.pushers == [LinkNext(3, 30, TaggedPtr(2, 1)), Idle];
    var s5 := StepTwo(s4, p);
    OneMore(s, s0, One(BeginPush(0, 30, 3)));
    OneMore(s, s1, p); OneMore(s, s2, p); OneMore(s, s3, p); OneMore(s, s4, p);
    assert s5.queue.pushers == [SwingTail(3, TaggedPtr(2, 1)), Idle];
    assert s5.queue.chain == [2, 3] && s5.queue.heap == SecondLinked().queue.heap;
  }

  lemma FirstTakes(s: Two)
    requires Reaches(s, SecondLinked())
    ensures Reaches(s, HeadPastTail())
  {
    hide LegalTwo, ExecTwo, Reaches;
    var p := One(PopStep);
    var s0 := SecondLinked();
    var s1 := StepTwo(s0, p);
    var s2 := StepTwo(s1, p);
    assert s2.queue.popper == PopCheck(TaggedPtr(1, 0), TaggedPtr(2, 1), TaggedPtr(3, 1));
    var s3 := StepTwo(s2, p);
    var s4 := StepTwo(s3, p);
    var s5 := StepTwo(s4, p);
    OneMore(s, s0, p); OneMore(s, s1, p); OneMore(s, s2, p); OneMore(s, s3, p); OneMore(s, s4, p);
    assert s5.queue.chain == [3] && s5.queue.heap == HeadPastTail().queue.heap;
  }

  lemma TailIsPassed()
    ensures Reaches(Two(Init<nat>(2), PopIdle), HeadPastTail())
  {
    hide LegalTwo, ExecTwo, Reaches;
    var s := Two(Init<nat>(2), PopIdle);
    LoadsTail();
    Pushes(s);
    SecondTakes(s);
    LinksSecond(s);
    FirstTakes(s);
  }

  /**
   The exact condition: when a consumer, whichever, moves the head on, the tail stays on the chain
   if and only if it was not on the node that is removed.
   */
  lemma TailStaysIffNotRemoved(s: State<nat>)
    requires Chained(s) && s.tail.ptr in s.chain
    requires s.popper.PopMoveHead? && s.head == s.popper.head
    ensures PopperStep(s).tail.ptr in PopperStep(s).chain <==> s.tail.ptr != s.head.ptr
  {
    var r := PopperStep(s);
    assert s.chain == [s.chain[0]] + r.chain;
    if s.tail.ptr == s.head.ptr {
      forall i | 0 <= i < |r.chain| ensures r.chain[i] != s.tail.ptr {
        assert s.chain[0] != s.chain[i + 1];
      }
    }
  }

  /**
   With two consumers the head overtakes the tail: the tail then points to a node that has been
   popped and belongs to the pool, where every later pusher will look for the end of the queue.
   */
  lemma TwoConsumersPassTheTail() returns (actions: seq<TwoAction>)
    ensures LegalTwo(Two(Init<nat>(2), PopIdle), actions)
    ensures var q := ExecTwo(Two(Init<nat>(2), PopIdle), actions).queue;
      q.chain != [] && q.head.ptr == q.chain[0] && q.tail.ptr !in q.chain && Reusable(q, q.tail.ptr)
  {
    var s := Two(Init<nat>(2), PopIdle);
    TailIsPassed();
    actions :| LegalTwo(s, actions) && ExecTwo(s, actions) == HeadPastTail();
  }

  // ---------------------------------------------------------------- what it leads to

  /** Then the pool reset the popped node, and another item was pushed behind it. */
  function ItemLost(): Two {
    Two(State(TaggedPtr(3, 2), TaggedPtr(4, 2), 2,
              map[1 := Node(TaggedPtr(2, 0), None), 2 := Node(TaggedPtr(4, 1), None), 3 := Empty(),
                  4 := Node(NULL_HANDLE, Some(40))],
              [SwingTail(3, TaggedPtr(2, 1)), Idle], PopSubSize(Some(30)), [3, 4]),
        PopSubSize(Some(20)))
  }

  lemma LosesItem(s: Two)
    requires Reaches(s, HeadPastTail())
    ensures Reaches(s, ItemLost())
  {
    hide LegalTwo, ExecTwo, Reaches;
    var p := One(PushStep(1));
    var reset := One(Recycle(2, Empty()));
    var s0 := HeadPastTail();
    var s1 := StepTwo(s0, One(BeginPush(1, 40, 4)));
    var s2 := StepTwo(s1, reset);
    var s3 := StepTwo(s2, p);
    var s4 := StepTwo(s3, p);
    var s5 := StepTwo(s4, p);
    assert s5.queue.pushers == [SwingTail(3, TaggedPtr(2, 1)), LinkNext(4, 40, TaggedPtr(2, 1))];
    var s6 := StepTwo(s5, p);
    var s7 := StepTwo(s6, p);
    var s8 := StepTwo(s7, p);
    OneMore(s, s0, One(BeginPush(1, 40, 4)));
    OneMore(s, s1, reset);
    OneMore(s, s2, p); OneMore(s, s3, p); OneMore(s, s4, p);
    OneMore(s, s5, p); OneMore(s, s6, p); OneMore(s, s7, p);
    assert s8.queue.pushers == [SwingTail(3, TaggedPtr(2, 1)), Idle];
    assert s8.queue.chain == [3, 4] && s8.queue.heap == ItemLost().queue.heap;
  }

  /** The links from the tail's side alone, as if they were a queue: the chain without its first node. */
  function Detached(q: State<nat>): State<nat>
    requires |q.chain| >= 2
  {
    State(TaggedPtr(q.chain[1], 0), q.tail, |q.chain| - 2 - SumBy(q.pushers, Unsized), q.heap, q.pushers, PopIdle,
          q.chain[1..])
  }

  /**
   The head's link is null while the tail is elsewhere, on a list of its own which pushers keep in
   order.
   */
  ghost predicate CutOff(q: State<nat>) {
    && |q.chain| >= 2 && q.head.ptr == q.chain[0] && q.head.ptr !in q.chain[1..]
    && q.head.ptr in q.heap && q.heap[q.head.ptr].next == NULL_HANDLE
    && (forall t :: 0 <= t < |q.pushers| ==> !q.pushers[t].Owns(q.head.ptr))
    && Inv(Detached(q))
  }

  /** Inside `Pop`, on a way round that can only lead back to its start. */
  ghost predicate GoesRound(q: State<nat>, p: Popper<nat>) {
    match p
    case PopLoadTail => true
    case PopLoadHead(tail) => tail.ptr != q.head.ptr
    case PopLoadNext(tail, head) => tail.ptr != q.head.ptr && head == q.head
    case PopCheck(tail, head, next) => tail.ptr != q.head.ptr && head == q.head && next == NULL_HANDLE
    case _ => false
  }

  /** Not in the middle of taking anything. */
  ghost predicate TakesNothing(q: State<nat>, p: Popper<nat>) {
    GoesRound(q, p) || p.PopIdle? || p.PopSubSize? || p.PopDone?
  }

  ghost predicate Stuck(s: Two) {
    CutOff(s.queue) && TakesNothing(s.queue, s.queue.popper) && TakesNothing(s.queue, s.second)
  }

  predicate ByPusher(a: Action<nat>) { a.BeginPush? || a.PushStep? || a.Recycle? }

  /** What pushers and the pool do to a queue that is cut off, they do to the detached list. */
  lemma PushersMissTheHead(q: State<nat>, a: Action<nat>)
    requires CutOff(q) && Enabled(q, a) && ByPusher(a)
    ensures var r := Step(q, a); CutOff(r) && r.head == q.head && r.popper == q.popper
  {
    hide Chained, TailNearEnd, Filled, PopperOk, NodesApart, Contents, FifoStep, Step, EventOf;
    var d, r := Detached(q), Step(q, a);
    EnabledDetached(q, a);
    StepRefinesFifo(d, a);
    HeadIsNotWritten(q, a);
    SameStep(q, a);
    assert Step(d, a) == Detached(r);
  }

  lemma EnabledDetached(q: State<nat>, a: Action<nat>)
    requires |q.chain| >= 2 && Enabled(q, a) && ByPusher(a)
    ensures Enabled(Detached(q), a)
  {
    assert forall n :: Reusable(q, n) ==> Reusable(Detached(q), n);
  }

  /** A pusher's step does not look at the head, and at the chain only to lengthen it. */
  lemma SameStep(q: State<nat>, a: Action<nat>)
    requires |q.chain| >= 2 && Enabled(q, a) && ByPusher(a) && Enabled(Detached(q), a)
    ensures var d, r := Step(Detached(q), a), Step(q, a);
      && d.head == Detached(q).head && d.tail == r.tail && d.heap == r.heap && d.pushers == r.pushers
      && d.popper == PopIdle && |r.chain| >= 2 && d.chain == r.chain[1..]
      && r.chain[..2] == q.chain[..2] && r.head == q.head && r.popper == q.popper
  {
  }

  lemma HeadIsNotWritten(q: State<nat>, a: Action<nat>)
    requires CutOff(q) && Enabled(q, a) && ByPusher(a)
    ensures var r := Step(q, a);
      && |r.chain| >= 2 && r.head.ptr == r.chain[0] && r.head.ptr !in r.chain[1..]
      && r.head.ptr in r.heap && r.heap[r.head.ptr].next == NULL_HANDLE
      && (forall t :: 0 <= t < |r.pushers| ==> !r.pushers[t].Owns(r.head.ptr))
  {
    hide Filled, PopperOk, NodesApart, SizeOk;
    if a.PushStep? {
      var p := q.pushers[a.t];
      assert PusherOk(Detached(q), p) && !p.Owns(q.head.ptr);
      if p.LinkNext? && q.heap[p.tail.ptr].next == NULL_HANDLE {
        LinkTarget(Detached(q), p);
      }
    }
  }

  /** A consumer's step takes nothing, changes nothing the others see, and stays on its way round. */
  lemma PopGoesRound(q: State<nat>)
    requires CutOff(q) && TakesNothing(q, q.popper) && !q.popper.PopIdle? && !q.popper.PopDone?
    ensures Enabled(q, PopStep)
    ensures var r := PopperStep(q);
      && r == q.(popper := r.popper, size := r.size) && TakesNothing(r, r.popper)
      && !EventOf(q, PopStep).Dequeue?
      && (GoesRound(q, q.popper) ==> GoesRound(r, r.popper))
  {
    TailIsElsewhere(q);
  }

  lemma TailIsElsewhere(q: State<nat>)
    requires CutOff(q)
    ensures q.tail.ptr != q.head.ptr
  {
    var d := Detached(q);
    assert d.tail.ptr in d.chain;
  }

  lemma ItemLostIsStuck()
    ensures Stuck(ItemLost())
  {
    var q := ItemLost().queue;
    assert q.pushers == [SwingTail(3, TaggedPtr(2, 1))] + [Idle];
    SumOfTwo(q.pushers);
    assert Detached(q).chain == [4];
  }

  lemma SumOfTwo(pushers: seq<Pusher<nat>>)
    requires |pushers| == 2
    ensures SumBy(pushers, Unsized) == Unsized(pushers[0]) + Unsized(pushers[1])
  {
    assert SumBy(pushers[1..], Unsized) == Unsized(pushers[1]);
  }

  /** From a stuck queue no step of anybody leads out. */
  lemma StuckStays(s: Two, a: TwoAction)
    requires Stuck(s) && MayStep(s, a)
    ensures Stuck(StepTwo(s, a)) && StepTwo(s, a).queue.head == s.queue.head
    ensures GoesRound(s.queue, s.queue.popper) ==> GoesRound(StepTwo(s, a).queue, StepTwo(s, a).queue.popper)
    ensures GoesRound(s.queue, s.second) ==> GoesRound(StepTwo(s, a).queue, StepTwo(s, a).second)
  {
    hide CutOff, Inv;
    match a
    case One(b) =>
      if ByPusher(b) {
        PushersMissTheHead(s.queue, b);
      } else {
        if b.PopStep? { PopGoesRound(s.queue); }
        CutOffAnyPopper(s.queue, StepTwo(s, a).queue);
      }
    case BeginSecond =>
    case StepSecond =>
      CutOffAnyPopper(s.queue, Seen(s));
      PopGoesRound(Seen(s));
      CutOffAnyPopper(s.queue, StepTwo(s, a).queue);
  }

  lemma CutOffAnyPopper(q: State<nat>, r: State<nat>)
    requires CutOff(q) && r == q.(popper := r.popper, size := r.size)
    ensures CutOff(r)
  {
    assert Detached(r) == Detached(q);
  }

  /**
   For ever after, whatever everybody does: the head stays where it is with a null link, so that no
   pushed item ever comes out, and a `Pop` that is on its way round never returns.
   */
  lemma {:induction false} StuckForGood(s: Two, actions: seq<TwoAction>)
    requires Stuck(s) && LegalTwo(s, actions)
    ensures var r := ExecTwo(s, actions);
      && Stuck(r) && r.queue.head == s.queue.head
      && r.queue.head.ptr in r.queue.heap && r.queue.heap[r.queue.head.ptr].next == NULL_HANDLE
      && (GoesRound(s.queue, s.queue.popper) ==> GoesRound(r.queue, r.queue.popper))
      && (GoesRound(s.queue, s.second) ==> GoesRound(r.queue, r.second))
    decreases actions
  {
    hide GoesRound, TakesNothing, StepTwo, MayStep, Inv;
    if actions != [] {
      StuckStays(s, actions[0]);
      StuckForGood(StepTwo(s, actions[0]), actions[1..]);
    }
  }

  /**
   So it comes about that a push returns and its item is lost, and that every `Pop` from then on goes
   round for ever, although the queue was used as it is written, by two consumers.
   */
  lemma TwoConsumersLoseAnItem() returns (actions: seq<TwoAction>)
    ensures LegalTwo(Two(Init<nat>(2), PopIdle), actions)
    ensures ExecTwo(Two(Init<nat>(2), PopIdle), actions) == ItemLost() && Stuck(ItemLost())
    ensures ItemLost().queue.pushers[1] == Idle && ItemLost().queue.heap[4].value == Some(40)
  {
    hide LegalTwo, ExecTwo, Reaches;
    var s := Two(Init<nat>(2), PopIdle);
    TailIsPassed();
    LosesItem(s);
    ItemLostIsStuck();
    actions := Witness(s, ItemLost());
  }

  lemma Witness(s: Two, r: Two) returns (actions: seq<TwoAction>)
    requires Reaches(s, r)
    ensures LegalTwo(s, actions) && ExecTwo(s, actions) == r
  {
    actions :| LegalTwo(s, actions) && ExecTwo(s, actions) == r;
  }
}
