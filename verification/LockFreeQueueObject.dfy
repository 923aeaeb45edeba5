/**
 The retry loops of `LockFreeQueue` themselves, run while other threads interfere between any two
 accesses. `others` holds what the other threads are going to do; how much of it happens at each
 point is arbitrary, so the contracts hold for every interleaving.
 */
module LockFreeQueueObject {
  import opened Wrappers
  import opened TaggedPointers
  import opened Sequences
  import opened LockFreeQueue
  import opened LockFreeQueueProofs

  datatype Role = Consumer | Producer(t: nat)

  /** Not a step of the thread in role `me`. */
  predicate Foreign<T>(a: Action<T>, me: Role) {
    match a
    case BeginPush(t, _, _) => me != Producer(t)
    case PushStep(t) => me != Producer(t)
    case Recycle(_, _) => true
    case _ => me != Consumer
  }

  /** What went in is what came out and what is inside, in order. */
  ghost predicate Balanced<T>(s: State<T>, enqueued: seq<T>, dequeued: seq<Option<T>>) {
    Inv(s) && Present(enqueued) == dequeued + Present(Contents(s))
  }

  lemma StepBalanced<T>(s: State<T>, a: Action<T>, enqueued: seq<T>, dequeued: seq<Option<T>>)
    requires Balanced(s, enqueued, dequeued) && Enabled(s, a)
    ensures Balanced(Step(s, a), enqueued + In(EventOf(s, a)), dequeued + Out(EventOf(s, a)))
  {
    hide Chained, TailNearEnd, Filled, PusherOk, PopperOk, NodesApart, SizeOk, Step, EventOf, Contents, Present;
    StepRefinesFifo(s, a);
    PresentAppend(enqueued, In(EventOf(s, a)));
    SpliceOne(Contents(s), EventOf(s, a), Contents(Step(s, a)));
    Associate(dequeued, Present(Contents(s)), Present(In(EventOf(s, a))));
    Associate(dequeued, Out(EventOf(s, a)), Present(Contents(Step(s, a))));
  }

  lemma PresentAppend<T>(a: seq<T>, b: seq<T>)
    ensures Present(a + b) == Present(a) + Present(b)
  {
  }

  lemma SpliceOne<T>(before: seq<T>, e: Event<T>, after: seq<T>)
    requires FifoStep(before, e, after)
    ensures Present(before) + Present(In(e)) == Out(e) + Present(after)
  {
    Splice(before, e, after, []);
    assert before + (In(e) + []) == before + In(e) && after + [] == after;
    PresentAppend(before, In(e));
  }

  /** Every link is followed by exactly one move of the tail, so the tail's tag counts links. */
  ghost predicate Paced<T>(s: State<T>, links: nat) {
    s.chain != [] && s.tail.tag + Lag(s) == links
  }

  lemma StepPaced<T>(s: State<T>, a: Action<T>, links: nat)
    requires Inv(s) && Enabled(s, a) && Paced(s, links)
    ensures Paced(Step(s, a), links + |In(EventOf(s, a))|)
    ensures Step(s, a).tail.tag >= s.tail.tag
  {
    StepRefinesFifo(s, a);
    if a.PushStep? {
      var p := s.pushers[a.t];
      assert PusherOk(s, p);
      if p.LinkNext? && s.heap[p.tail.ptr].next == NULL_HANDLE { LinkTarget(s, p); }
      if (p.HelpTail? || p.SwingTail?) && s.tail == p.tail { TailAdvances(s, s.heap[s.tail.ptr].next.ptr); }
    } else if s.popper.PopHelp? && a.PopStep? && s.tail == s.popper.tail {
      TailAdvances(s, s.popper.next.ptr);
    } else if s.popper.PopMoveHead? && a.PopStep? {
      PopMoveHeadChain(s);
    }
  }

  /** The thread whose step `a` is, among the producers. */
  function Linker<T>(a: Action<T>): nat {
    if a.PushStep? then a.t else 0
  }

  /** A step of another thread moves neither this thread nor what only this thread does. */
  lemma ForeignKeeps<T>(s: State<T>, a: Action<T>, me: Role)
    requires Inv(s) && Enabled(s, a) && Foreign(a, me)
    ensures |Step(s, a).pushers| == |s.pushers|
    ensures me.Producer? && me.t < |s.pushers| ==>
      Step(s, a).pushers[me.t] == s.pushers[me.t] && (In(EventOf(s, a)) == [] || Linker(a) != me.t)
    ensures me.Consumer? ==>
      Step(s, a).popper == s.popper && Out(EventOf(s, a)) == [] && PopMeasure(Step(s, a)) <= PopMeasure(s)
  {
    PopIsWaitFree(s, a);
  }

  /** Everything linked up to some moment had been taken out by then. */
  ghost predicate DrainedAt<T>(enqueued: seq<T>, dequeued: seq<Option<T>>, k: nat) {
    k <= |enqueued| && Present(enqueued[..k]) == dequeued
  }

  lemma DrainedStays<T>(before: seq<T>, enqueued: seq<T>, dequeued: seq<Option<T>>, k: nat)
    requires before <= enqueued && DrainedAt(before, dequeued, k)
    ensures DrainedAt(enqueued, dequeued, k)
  {
    assert enqueued[..k] == before[..k];
  }

  /** What the consumer's next access can do. */
  lemma PopFacts<T>(s: State<T>, enqueued: seq<T>, dequeued: seq<Option<T>>)
    requires Balanced(s, enqueued, dequeued) && !s.popper.PopIdle? && !s.popper.PopDone?
    ensures Inv(s) && Enabled(s, PopStep) && PopMeasure(PopperStep(s)) < PopMeasure(s)
    ensures In(EventOf(s, PopStep)) == []
    ensures Out(EventOf(s, PopStep)) == if s.popper.PopMoveHead? then [s.popper.value] else []
    ensures s.popper.PopMoveHead? ==> s.head == s.popper.head && s.popper.value.Some?
    ensures s.popper.PopLoadNext? && s.heap[s.popper.head.ptr].next == NULL_HANDLE ==>
      DrainedAt(enqueued, dequeued, |enqueued|)
  {
    CanStep(s);
    PopIsWaitFree(s, PopStep);
    PopOutcome(s, PopperStep(s));
    LoadSeesEmptiness(s);
    assert enqueued[..|enqueued|] == enqueued;
    if s.popper.PopMoveHead? { PopMoveHeadChain(s); }
  }

  /** The next access of thread `t` is a compare-and-swap that links its node. */
  predicate Links<T>(s: State<T>, t: nat)
    requires t < |s.pushers| && !s.pushers[t].Idle? && Readable(s, s.pushers[t])
  {
    s.pushers[t].LinkNext? && s.heap[s.pushers[t].tail.ptr].next == NULL_HANDLE
  }

  /** What thread `t`'s next access can do, and why a retry means that others have made progress. */
  lemma PushFacts<T>(s: State<T>, t: nat, enqueued: seq<T>, dequeued: seq<Option<T>>)
    requires Balanced(s, enqueued, dequeued) && Paced(s, |enqueued|)
    requires t < |s.pushers| && !s.pushers[t].Idle?
    ensures Inv(s) && Enabled(s, PushStep(t)) && s.tail.tag <= |enqueued|
    ensures Out(EventOf(s, PushStep(t))) == []
    ensures In(EventOf(s, PushStep(t))) == if Links(s, t) then [s.pushers[t].item] else []
    ensures var p := s.pushers[t];
      && (p.LoadNext? && s.heap[p.tail.ptr].next == NULL_HANDLE ==>
            p.tail.tag == |enqueued| || s.tail.tag > p.tail.tag)
      && (p.CheckTail? && s.tail != p.tail ==> s.tail.tag > p.tail.tag)
      && (p.LinkNext? && s.heap[p.tail.ptr].next != NULL_HANDLE ==>
            |enqueued| > p.tail.tag || s.tail.tag > p.tail.tag)
      && (p.HelpTail? ==> PusherStep(s, t).tail.tag > p.tail.tag)
  {
    CanStep(s);
    var p := s.pushers[t];
    assert PusherOk(s, p);
    if p.LoadNext? && s.heap[p.tail.ptr].next == NULL_HANDLE && s.tail == p.tail {
      LinkTarget(s, LinkNext(p.node, p.item, p.tail));
    }
  }

  class Queue<T> {
    var head: TaggedPtr
    var tail: TaggedPtr
    var size: int
    var heap: map<Ptr, Node<T>>

    // where every thread stands, what the others are about to do, and the history
    var pushers: seq<Pusher<T>>
    var popper: Popper<T>
    var chain: seq<Ptr>
    var others: seq<Action<T>>
    ghost var enqueued: seq<T>
    ghost var linkers: seq<nat>
    ghost var dequeued: seq<Option<T>>

    function View(): State<T>
      reads this
    {
      State(head, tail, size, heap, pushers, popper, chain)
    }

    ghost predicate Valid()
      reads this
    {
      Balanced(View(), enqueued, dequeued) && Paced(View(), |enqueued|) && |linkers| == |enqueued|
    }

    constructor (producers: nat, others: seq<Action<T>>)
      ensures Valid() && View() == Init<T>(producers) && enqueued == [] && dequeued == []
    {
      head, tail, size := TaggedPtr(1, 0), TaggedPtr(1, 0), 0;
      heap := map[1 := Node(NULL_HANDLE, None)];
      pushers, popper, chain := seq(producers, _ => Idle), PopIdle, [1];
      this.others := others;
      enqueued, linkers, dequeued := [], [], [];
      new;
      InitInv<T>(producers);
    }

    /** Books the access just made to the four fields as step `a` from `s`. */
    method Record(a: Action<T>, s: State<T>)
      requires Balanced(s, enqueued, dequeued) && Paced(s, |enqueued|) && |linkers| == |enqueued|
      requires Enabled(s, a)
      requires s.pushers == pushers && s.popper == popper && s.chain == chain
      requires var r := Step(s, a); head == r.head && tail == r.tail && size == r.size && heap == r.heap
      modifies `pushers, `popper, `chain, `enqueued, `linkers, `dequeued
      ensures Valid() && View() == Step(s, a) && tail.tag >= s.tail.tag
      ensures enqueued == old(enqueued) + In(EventOf(s, a))
      ensures dequeued == old(dequeued) + Out(EventOf(s, a))
      ensures forall t ::
        LinkedBy(enqueued, linkers, t)
        == LinkedBy(old(enqueued), old(linkers), t) + (if t == Linker(a) then In(EventOf(s, a)) else [])
    {
      hide Inv, Chained, Step, EventOf, Present, Enabled, LinkedBy;
      StepBalanced(s, a, enqueued, dequeued);
      StepPaced(s, a, |enqueued|);
      forall t ensures LinkedBy(enqueued + In(EventOf(s, a)), linkers + seq(|In(EventOf(s, a))|, _ => Linker(a)), t)
        == LinkedBy(enqueued, linkers, t) + (if t == Linker(a) then In(EventOf(s, a)) else [])
      {
        LinkedByAppend(enqueued, linkers, In(EventOf(s, a)), Linker(a), t);
      }
      var r := Step(s, a);
      enqueued, dequeued := enqueued + In(EventOf(s, a)), dequeued + Out(EventOf(s, a));
      linkers := linkers + seq(|In(EventOf(s, a))|, _ => Linker(a));
      pushers, popper, chain := r.pushers, r.popper, r.chain;
    }

    /** Some of what the other threads have in mind happens, possibly none. */
    method Interfere(me: Role)
      requires Valid()
      modifies this
      ensures Valid() && |pushers| == old(|pushers|)
      ensures tail.tag >= old(tail.tag) && old(enqueued) <= enqueued
      ensures |others| + |enqueued| <= old(|others| + |enqueued|)
      ensures me.Producer? && me.t < |pushers| ==>
        pushers[me.t] == old(pushers[me.t])
        && LinkedBy(enqueued, linkers, me.t) == old(LinkedBy(enqueued, linkers, me.t))
      ensures me.Consumer? ==>
        popper == old(popper) && dequeued == old(dequeued) && PopMeasure(View()) <= old(PopMeasure(View()))
    {
      hide Inv, Chained, Step, EventOf, Enabled, LinkedBy, PopMeasure, Balanced, Paced, Lag, Present;
      var k: nat :| k <= |others|;
      while k > 0 && others != []
        invariant Valid() && |pushers| == old(|pushers|)
        invariant tail.tag >= old(tail.tag) && old(enqueued) <= enqueued
        invariant |others| + |enqueued| <= old(|others| + |enqueued|)
        invariant me.Producer? && me.t < |pushers| ==>
          pushers[me.t] == old(pushers[me.t])
          && LinkedBy(enqueued, linkers, me.t) == old(LinkedBy(enqueued, linkers, me.t))
        invariant me.Consumer? ==>
          popper == old(popper) && dequeued == old(dequeued) && PopMeasure(View()) <= old(PopMeasure(View()))
      {
        var a := others[0];
        others, k := others[1..], k - 1;
        var s := View();
        if Foreign(a, me) && Enabled(s, a) {
          InvOf(s, enqueued, dequeued);
          ForeignKeeps(s, a, me);
          var r := Step(s, a);
          head, tail, size, heap := r.head, r.tail, r.size, r.heap;
          Record(a, s);
        }
      }
    }

    /** Books the consumer's next access. */
    method PopAccess(s: State<T>)
      requires Balanced(s, enqueued, dequeued) && Paced(s, |enqueued|) && |linkers| == |enqueued|
      requires Inv(s) && Enabled(s, PopStep)
      requires s.pushers == pushers && s.popper == popper && s.chain == chain
      requires var r := PopperStep(s); head == r.head && tail == r.tail && size == r.size && heap == r.heap
      modifies `pushers, `popper, `chain, `enqueued, `linkers, `dequeued
      ensures Valid() && View() == PopperStep(s) && |pushers| == old(|pushers|)
      ensures enqueued == old(enqueued) && PopMeasure(View()) < PopMeasure(s)
      ensures dequeued == old(dequeued) + if s.popper.PopMoveHead? then [s.popper.value] else []
      ensures s.popper.PopLoadNext? && s.heap[s.popper.head.ptr].next == NULL_HANDLE ==>
        DrainedAt(enqueued, dequeued, |enqueued|)
    {
      hide Inv, Chained, EventOf, Present, LinkedBy, Balanced, Paced, Lag, PopMeasure, DrainedAt, PopperStep;
      PopFacts(s, enqueued, dequeued);
      PopOutcome(s, PopperStep(s));
      Record(PopStep, s);
      assert enqueued == old(enqueued);
      assert !s.popper.PopMoveHead? ==> dequeued == old(dequeued);
    }

    // One atomic access each, after whatever the others did in the meantime.

    method ConsumerLoadTail() returns (tail: TaggedPtr)
      requires Valid() && popper.PopLoadTail?
      modifies this
      ensures Valid() && old(enqueued) <= enqueued && dequeued == old(dequeued)
      ensures PopMeasure(View()) < old(PopMeasure(View()))
      ensures popper == PopLoadHead(tail)
    {
      hide Inv, Chained, EventOf, Present, LinkedBy, Balanced, Paced, Lag, PopMeasure, DrainedAt;
      Interfere(Consumer);
      MayStep();
      var s := View();
      tail := this.tail;
      PopAccess(s);
    }

    method ConsumerLoadHead() returns (head: TaggedPtr)
      requires Valid() && popper.PopLoadHead?
      modifies this
      ensures Valid() && old(enqueued) <= enqueued && dequeued == old(dequeued)
      ensures PopMeasure(View()) < old(PopMeasure(View()))
      ensures popper == PopLoadNext(old(popper.tail), head)
    {
      hide Inv, Chained, EventOf, Present, LinkedBy, Balanced, Paced, Lag, PopMeasure, DrainedAt;
      Interfere(Consumer);
      MayStep();
      var s := View();
      head := this.head;
      PopAccess(s);
    }

    method ConsumerLoadNext() returns (next: TaggedPtr)
      requires Valid() && popper.PopLoadNext?
      modifies this
      ensures Valid() && old(enqueued) <= enqueued && dequeued == old(dequeued)
      ensures PopMeasure(View()) < old(PopMeasure(View()))
      ensures popper == PopCheck(old(popper.tail), old(popper.head), next)
      ensures next == NULL_HANDLE ==> DrainedAt(enqueued, dequeued, |enqueued|)
    {
      hide Inv, Chained, EventOf, Present, LinkedBy, Balanced, Paced, Lag, PopMeasure, DrainedAt;
      Interfere(Consumer);
      MayStep();
      var s := View();
      next := heap[popper.head.ptr].next;
      PopAccess(s);
    }

    method ConsumerHeadIs(head: TaggedPtr) returns (same: bool)
      requires Valid() && popper.PopCheck? && popper.head == head
      modifies this
      ensures Valid() && old(enqueued) <= enqueued && dequeued == old(dequeued)
      ensures PopMeasure(View()) < old(PopMeasure(View()))
      ensures popper ==
        if !same then PopLoadTail
        else if head.ptr == old(popper.tail.ptr) then
          if old(popper.next) == NULL_HANDLE then PopDone(None) else PopHelp(old(popper.tail), old(popper.next))
        else if old(popper.next) != NULL_HANDLE then PopSteal(head, old(popper.next))
        else PopLoadTail
    {
      hide Inv, Chained, EventOf, Present, LinkedBy, Balanced, Paced, Lag, PopMeasure, DrainedAt;
      Interfere(Consumer);
      MayStep();
      var s := View();
      same := this.head == head;
      PopAccess(s);
    }

    method ConsumerSwapTail(tail: TaggedPtr, desired: TaggedPtr)
      requires Valid() && popper.PopHelp? && popper.tail == tail
      requires desired == TaggedPtr(popper.next.ptr, tail.NextTag())
      modifies this
      ensures Valid() && old(enqueued) <= enqueued && dequeued == old(dequeued)
      ensures PopMeasure(View()) < old(PopMeasure(View()))
      ensures popper.PopLoadTail?
    {
      hide Inv, Chained, EventOf, Present, LinkedBy, Balanced, Paced, Lag, PopMeasure, DrainedAt;
      Interfere(Consumer);
      MayStep();
      var s := View();
      if this.tail == tail { this.tail := desired; }
      PopAccess(s);
    }

    method ConsumerTake(next: TaggedPtr) returns (value: Option<T>)
      requires Valid() && popper.PopSteal? && popper.next == next
      modifies this
      ensures Valid() && old(enqueued) <= enqueued && dequeued == old(dequeued)
      ensures PopMeasure(View()) < old(PopMeasure(View()))
      ensures popper == PopMoveHead(old(popper.head), next, value)
    {
      hide Inv, Chained, EventOf, Present, LinkedBy, Balanced, Paced, Lag, PopMeasure, DrainedAt;
      Interfere(Consumer);
      MayStep();
      var s := View();
      value := heap[next.ptr].value;
      heap := heap[next.ptr := heap[next.ptr].(value := None)];
      PopAccess(s);
    }

    /** With one consumer this compare-and-swap never fails. */
    method ConsumerSwapHead(head: TaggedPtr, desired: TaggedPtr) returns (swapped: bool)
      requires Valid() && popper.PopMoveHead? && popper.head == head
      requires desired == TaggedPtr(popper.next.ptr, head.NextTag())
      modifies this
      ensures Valid() && old(enqueued) <= enqueued
      ensures PopMeasure(View()) < old(PopMeasure(View()))
      ensures swapped && old(popper.value.Some?) && popper == PopSubSize(old(popper.value))
      ensures dequeued == old(dequeued) + [old(popper.value)]
    {
      hide Inv, Chained, EventOf, Present, LinkedBy, Balanced, Paced, Lag, PopMeasure, DrainedAt;
      Interfere(Consumer);
      MayStep();
      var s := View();
      PopFacts(s, enqueued, dequeued);
      swapped := this.head == head;
      if swapped { this.head := desired; }
      PopAccess(s);
    }

    method ConsumerSubSize()
      requires Valid() && popper.PopSubSize?
      modifies this
      ensures Valid() && old(enqueued) <= enqueued && dequeued == old(dequeued)
      ensures PopMeasure(View()) < old(PopMeasure(View()))
      ensures popper == PopDone(old(popper.value))
    {
      hide Inv, Chained, EventOf, Present, LinkedBy, Balanced, Paced, Lag, PopMeasure, DrainedAt;
      Interfere(Consumer);
      MayStep();
      var s := View();
      size := size - 1;
      PopAccess(s);
    }

    /**
     The front of the queue, or None if at some moment of the call everything linked by then had
     been taken out.
     */
    method Pop() returns (output: Option<T>)
      requires Valid() && popper.PopIdle?
      modifies this
      ensures Valid() && popper.PopIdle? && old(enqueued) <= enqueued
      ensures output.Some? ==> dequeued == old(dequeued) + [output]
      ensures output.None? ==>
        && dequeued == old(dequeued)
        && exists k: nat :: |old(enqueued)| <= k && DrainedAt(enqueued, dequeued, k)
    {
      hide Inv, Chained, EventOf, Present, LinkedBy, Balanced, Paced, Lag, PopMeasure, DrainedAt;
      EnterOrLeave(BeginPop);
      while true
        invariant Valid() && popper.PopLoadTail? && old(enqueued) <= enqueued && dequeued == old(dequeued)
        decreases PopMeasure(View())
      {
        var tail := ConsumerLoadTail();
        var head := ConsumerLoadHead();
        var next := ConsumerLoadNext();
        ghost var seen := enqueued;
        var same := ConsumerHeadIs(head);
        if same {
          if head.ptr == tail.ptr {
            if next == NULL_HANDLE {
              DrainedStays(seen, enqueued, dequeued, |seen|);
              EnterOrLeave(EndPop);
              return None;
            }
            ConsumerSwapTail(tail, TaggedPtr(next.ptr, tail.NextTag()));
          } else if next != NULL_HANDLE {
            var value := ConsumerTake(next);
            var swapped := ConsumerSwapHead(head, TaggedPtr(next.ptr, head.NextTag()));
            if swapped {
              ConsumerSubSize();
              EnterOrLeave(EndPop);
              return value;
            }
          }
        }
      }
    }

    /** Books the next access of producer `t`. */
    method PushAccess(t: nat, s: State<T>)
      requires Balanced(s, enqueued, dequeued) && Paced(s, |enqueued|) && |linkers| == |enqueued|
      requires t < |s.pushers| && !s.pushers[t].Idle? && Readable(s, s.pushers[t])
      requires s.pushers == pushers && s.popper == popper && s.chain == chain
      requires var r := PusherStep(s, t); head == r.head && tail == r.tail && size == r.size && heap == r.heap
      modifies `pushers, `popper, `chain, `enqueued, `linkers, `dequeued
      ensures Valid() && View() == PusherStep(s, t) && dequeued == old(dequeued) && tail.tag >= s.tail.tag
      ensures enqueued == old(enqueued) + (if Links(s, t) then [s.pushers[t].item] else [])
      ensures LinkedBy(enqueued, linkers, t)
        == old(LinkedBy(enqueued, linkers, t)) + (if Links(s, t) then [s.pushers[t].item] else [])
      ensures !Links(s, t) ==>
        enqueued == old(enqueued) && LinkedBy(enqueued, linkers, t) == old(LinkedBy(enqueued, linkers, t))
    {
      hide Inv, Chained, EventOf, Present, LinkedBy, Balanced, Paced, Lag, PusherStep, Readable;
      PushFacts(s, t, enqueued, dequeued);
      Record(PushStep(t), s);
      assert old(dequeued) + [] == old(dequeued) && old(enqueued) + [] == old(enqueued);
      assert old(LinkedBy(enqueued, linkers, t)) + [] == old(LinkedBy(enqueued, linkers, t));
    }

    method ProducerLoadTail(t: nat) returns (tail: TaggedPtr)
      requires Valid() && t < |pushers| && pushers[t].LoadTail?
      modifies this
      ensures Valid() && |pushers| == old(|pushers|) && this.tail.tag >= old(this.tail.tag)
      ensures |others| + |enqueued| <= old(|others| + |enqueued|)
      ensures old(enqueued) <= enqueued
      ensures LinkedBy(enqueued, linkers, t) == old(LinkedBy(enqueued, linkers, t))
      ensures pushers[t] == LoadNext(old(pushers[t].node), old(pushers[t].item), tail) && tail.tag >= old(this.tail.tag)
    {
      hide Inv, Chained, EventOf, Present, LinkedBy, Balanced, Paced, Lag;
      Interfere(Producer(t));
      PushFacts(View(), t, enqueued, dequeued);
      var s := View();
      tail := this.tail;
      PushAccess(t, s);
    }

    /** A null link means that every link so far has been followed by a swing, or the tail has moved on. */
    method ProducerLoadNext(t: nat) returns (next: TaggedPtr)
      requires Valid() && t < |pushers| && pushers[t].LoadNext?
      modifies this
      ensures Valid() && |pushers| == old(|pushers|) && this.tail.tag >= old(this.tail.tag)
      ensures |others| + |enqueued| <= old(|others| + |enqueued|)
      ensures old(enqueued) <= enqueued
      ensures LinkedBy(enqueued, linkers, t) == old(LinkedBy(enqueued, linkers, t))
      ensures pushers[t] == CheckTail(old(pushers[t].node), old(pushers[t].item), old(pushers[t].tail), next)
      ensures next == NULL_HANDLE ==> |enqueued| == pushers[t].tail.tag || tail.tag > pushers[t].tail.tag
    {
      hide Inv, Chained, EventOf, Present, LinkedBy, Balanced, Paced, Lag;
      Interfere(Producer(t));
      PushFacts(View(), t, enqueued, dequeued);
      var s := View();
      next := heap[pushers[t].tail.ptr].next;
      PushAccess(t, s);
    }

    method ProducerTailIs(t: nat, tail: TaggedPtr) returns (same: bool)
      requires Valid() && t < |pushers| && pushers[t].CheckTail? && pushers[t].tail == tail
      modifies this
      ensures Valid() && |pushers| == old(|pushers|) && this.tail.tag >= old(this.tail.tag)
      ensures |others| + |enqueued| <= old(|others| + |enqueued|)
      ensures old(enqueued) <= enqueued
      ensures LinkedBy(enqueued, linkers, t) == old(LinkedBy(enqueued, linkers, t))
      ensures pushers[t] ==
        if !same then LoadTail(old(pushers[t].node), old(pushers[t].item))
        else if old(pushers[t].next) == NULL_HANDLE then LinkNext(old(pushers[t].node), old(pushers[t].item), tail)
        else HelpTail(old(pushers[t].node), old(pushers[t].item), tail, old(pushers[t].next))
      ensures if same then this.tail.tag == tail.tag else this.tail.tag > tail.tag
    {
      hide Inv, Chained, EventOf, Present, LinkedBy, Balanced, Paced, Lag;
      Interfere(Producer(t));
      PushFacts(View(), t, enqueued, dequeued);
      var s := View();
      same := this.tail == tail;
      PushAccess(t, s);
    }

    /** Fails only if another thread linked or moved the tail since it was loaded. */
    method ProducerLink(t: nat, tail: TaggedPtr, node: Ptr) returns (linked: bool)
      requires Valid() && t < |pushers| && pushers[t].LinkNext? && pushers[t].tail == tail && pushers[t].node == node
      modifies this
      ensures Valid() && |pushers| == old(|pushers|) && this.tail.tag >= old(this.tail.tag)
      ensures |others| + |enqueued| <= old(|others| + |enqueued|) + 1
      ensures pushers[t] ==
        if linked then SwingTail(node, tail) else LoadTail(old(pushers[t].node), old(pushers[t].item))
      ensures !linked ==> |enqueued| > tail.tag || this.tail.tag > tail.tag
      ensures linked ==> |enqueued| > old(|enqueued|)
      ensures old(enqueued) <= enqueued && (!linked ==> |others| + |enqueued| <= old(|others| + |enqueued|))
      ensures LinkedBy(enqueued, linkers, t)
        == old(LinkedBy(enqueued, linkers, t)) + (if linked then [old(pushers[t].item)] else [])
    {
      hide Inv, Chained, Present, LinkedBy, Balanced, Paced, Lag;
      Interfere(Producer(t));
      PushFacts(View(), t, enqueued, dequeued);
      var s := View();
      linked := heap[tail.ptr].next == NULL_HANDLE;
      if linked { heap := heap[tail.ptr := heap[tail.ptr].(next := TaggedPtr(node, tail.tag))]; }
      PushAccess(t, s);
    }

    method ProducerHelpTail(t: nat, tail: TaggedPtr, next: TaggedPtr)
      requires Valid() && t < |pushers| && pushers[t].HelpTail? && pushers[t].tail == tail && pushers[t].next == next
      modifies this
      ensures Valid() && |pushers| == old(|pushers|) && this.tail.tag >= old(this.tail.tag)
      ensures |others| + |enqueued| <= old(|others| + |enqueued|)
      ensures old(enqueued) <= enqueued
      ensures LinkedBy(enqueued, linkers, t) == old(LinkedBy(enqueued, linkers, t))
      ensures pushers[t] == LoadTail(old(pushers[t].node), old(pushers[t].item)) && this.tail.tag > tail.tag
    {
      hide Inv, Chained, EventOf, Present, LinkedBy, Balanced, Paced, Lag;
      Interfere(Producer(t));
      PushFacts(View(), t, enqueued, dequeued);
      var s := View();
      if this.tail == tail { this.tail := TaggedPtr(next.ptr, tail.NextTag()); }
      PushAccess(t, s);
    }

    method ProducerSwingTail(t: nat, tail: TaggedPtr, node: Ptr)
      requires Valid() && t < |pushers| && pushers[t].SwingTail? && pushers[t].tail == tail && pushers[t].node == node
      modifies this
      ensures Valid() && |pushers| == old(|pushers|) && this.tail.tag >= old(this.tail.tag)
      ensures |others| + |enqueued| <= old(|others| + |enqueued|)
      ensures old(enqueued) <= enqueued
      ensures LinkedBy(enqueued, linkers, t) == old(LinkedBy(enqueued, linkers, t))
      ensures pushers[t].AddSize?
    {
      hide Inv, Chained, EventOf, Present, LinkedBy, Balanced, Paced, Lag;
      Interfere(Producer(t));
      PushFacts(View(), t, enqueued, dequeued);
      var s := View();
      if this.tail == tail { this.tail := TaggedPtr(node, tail.NextTag()); }
      PushAccess(t, s);
    }

    method ProducerAddSize(t: nat)
      requires Valid() && t < |pushers| && pushers[t].AddSize?
      modifies this
      ensures Valid() && |pushers| == old(|pushers|) && this.tail.tag >= old(this.tail.tag)
      ensures |others| + |enqueued| <= old(|others| + |enqueued|)
      ensures old(enqueued) <= enqueued
      ensures LinkedBy(enqueued, linkers, t) == old(LinkedBy(enqueued, linkers, t))
      ensures pushers[t].Idle?
    {
      hide Inv, Chained, EventOf, Present, LinkedBy, Balanced, Paced, Lag;
      Interfere(Producer(t));
      PushFacts(View(), t, enqueued, dequeued);
      var s := View();
      size := size + 1;
      PushAccess(t, s);
    }

    /**
     Links `item` exactly once, after everything this thread linked before. A round fails only
     because others made progress: there are fewer failed rounds than twice the items linked
     during the call.
     */
    method Push(t: nat, item: T, node: Ptr) returns (ghost failed: nat)
      requires Valid() && t < |pushers| && pushers[t].Idle? && Reusable(View(), node)
      modifies this
      ensures Valid() && |pushers| == old(|pushers|) && pushers[t].Idle? && old(enqueued) <= enqueued
      ensures LinkedBy(enqueued, linkers, t) == old(LinkedBy(enqueued, linkers, t)) + [item]
      ensures failed < 2 * (|enqueued| - |old(enqueued)|)
    {
      hide DrainedAt, Step, Inv, Chained, EventOf, Present, LinkedBy, Balanced, Paced, Lag;
      Construct(t, item, node);
      failed := 0;
      ghost var start := |enqueued|;
      TagBound();
      ghost var tag := tail.tag;
      while true
        invariant Valid() && |pushers| == old(|pushers|) && pushers[t] == LoadTail(node, item)
        invariant old(enqueued) <= enqueued && |enqueued| >= start
        invariant LinkedBy(enqueued, linkers, t) == old(LinkedBy(enqueued, linkers, t))
        invariant failed <= tail.tag - tag + |enqueued| - start
        decreases 2 * |others| + |enqueued| - tail.tag
      {
        TagBound();
        var tail := ProducerLoadTail(t);
        var next := ProducerLoadNext(t);
        var same := ProducerTailIs(t, tail);
        if same {
          if next == NULL_HANDLE {
            TagBound();
            var linked := ProducerLink(t, tail, node);
            if linked {
              ProducerSwingTail(t, tail, node);
              break;
            }
          } else {
            ProducerHelpTail(t, tail, next);
          }
        }
        failed := failed + 1;
        TagBound();
      }
      ProducerAddSize(t);
    }

    lemma TagBound()
      requires Valid()
      ensures tail.tag <= |enqueued| <= tail.tag + 1
    {
    }

    method Construct(t: nat, item: T, node: Ptr)
      requires Valid() && t < |pushers| && pushers[t].Idle? && Reusable(View(), node)
      modifies this
      ensures Valid() && |pushers| == old(|pushers|) && pushers[t] == LoadTail(node, item)
      ensures enqueued == old(enqueued) && dequeued == old(dequeued) && |others| == old(|others|)
      ensures LinkedBy(enqueued, linkers, t) == old(LinkedBy(enqueued, linkers, t))
    {
      hide Inv, Chained, Present, LinkedBy, Balanced, Paced, Lag;
      var s := View();
      heap := heap[node := Node(NULL_HANDLE, Some(item))];
      Record(BeginPush(t, item, node), s);
      assert enqueued == old(enqueued) && dequeued == old(dequeued);
      assert old(LinkedBy(enqueued, linkers, t)) + [] == old(LinkedBy(enqueued, linkers, t));
    }

    /** The consumer may make its next access. */
    lemma MayStep()
      requires Valid()
      ensures Inv(View()) && (!popper.PopIdle? && !popper.PopDone? ==> Enabled(View(), PopStep))
      ensures forall t :: 0 <= t < |pushers| && !pushers[t].Idle? ==> Enabled(View(), PushStep(t))
    {
      CanStep(View());
    }

    /** Enters or leaves an operation: no shared access. */
    method EnterOrLeave(a: Action<T>)
      requires Valid() && a == if popper.PopIdle? then BeginPop else EndPop
      requires popper.PopIdle? || popper.PopDone?
      modifies this
      ensures Valid() && View() == Step(old(View()), a)
      ensures enqueued == old(enqueued) && linkers == old(linkers) && dequeued == old(dequeued)
    {
      var s := View();
      StepBalanced(s, a, enqueued, dequeued);
      popper := if a.BeginPop? then PopLoadTail else PopIdle;
      assert enqueued + [] == enqueued && dequeued + [] == dequeued;
    }
  }

  lemma InvOf<T>(s: State<T>, enqueued: seq<T>, dequeued: seq<Option<T>>)
    requires Balanced(s, enqueued, dequeued)
    ensures Inv(s)
  {
  }
}
