/**
 The Michael-Scott queue as a machine of sequentially consistent atomic accesses:
 any number of pushers, one popper.
 */
module LockFreeQueue {
  import opened Wrappers
  import opened TaggedPointers
  import opened Counting

  /** `value` is None once a move has taken the payload out. */
  datatype Node<T> = Node(next: TaggedPtr, value: Option<T>)

  /** Where a pusher stands: each constructor names the next shared access it will make. */
  datatype Pusher<T> =
    | Idle
    | LoadTail(node: Ptr, item: T)
    | LoadNext(node: Ptr, item: T, tail: TaggedPtr)
    | CheckTail(node: Ptr, item: T, tail: TaggedPtr, next: TaggedPtr)
    | LinkNext(node: Ptr, item: T, tail: TaggedPtr)
    | HelpTail(node: Ptr, item: T, tail: TaggedPtr, next: TaggedPtr)
    | SwingTail(node: Ptr, tail: TaggedPtr)
    | AddSize
  {
    /** Its node is constructed and not linked yet. */
    predicate Unlinked() {
      LoadTail? || LoadNext? || CheckTail? || LinkNext? || HelpTail?
    }

    predicate Owns(n: Ptr) {
      Unlinked() && node == n
    }

    /** It has a local copy of the tail. */
    predicate HasTail() {
      LoadNext? || CheckTail? || LinkNext? || HelpTail?
    }

    /** About to link behind node `n`; only here does it matter that `n` has not been reused. */
    predicate Holds(n: Ptr) {
      LinkNext? && tail.ptr == n
    }
  }

  datatype Popper<T> =
    | PopIdle
    | PopLoadTail
    | PopLoadHead(tail: TaggedPtr)
    | PopLoadNext(tail: TaggedPtr, head: TaggedPtr)
    | PopCheck(tail: TaggedPtr, head: TaggedPtr, next: TaggedPtr)
    | PopHelp(tail: TaggedPtr, next: TaggedPtr)
    | PopSteal(head: TaggedPtr, next: TaggedPtr)
    | PopMoveHead(head: TaggedPtr, next: TaggedPtr, value: Option<T>)
    | PopSubSize(value: Option<T>)
    | PopDone(value: Option<T>)

  /** `chain` is bookkeeping: the nodes linked and not yet popped, the dummy first. */
  datatype State<T> = State(
    head: TaggedPtr,
    tail: TaggedPtr,
    size: int,
    heap: map<Ptr, Node<T>>,
    pushers: seq<Pusher<T>>,
    popper: Popper<T>,
    chain: seq<Ptr>)

  datatype Action<T> =
    | BeginPush(t: nat, item: T, node: Ptr)
    | PushStep(t: nat)
    | BeginPop
    | PopStep
    | EndPop
    | Recycle(node: Ptr, memory: Node<T>)

  datatype Event<T> = Silent | Enqueue(item: T) | Dequeue(output: Option<T>) | SawEmpty

  function Init<T>(pushers: nat): State<T>
  {
    State(TaggedPtr(1, 0), TaggedPtr(1, 0), 0, map[1 := Node(NULL_HANDLE, None)],
          seq(pushers, _ => Idle), PopIdle, [1])
  }

  function Last(s: State): Ptr
    requires s.chain != []
  {
    s.chain[|s.chain| - 1]
  }

  /**
   The allocator may hand out, or scribble on, only memory that is off the chain, in no pusher's
   hands, and not about to be linked behind.
   */
  predicate Reusable<T>(s: State<T>, n: Ptr) {
    && n != NULL
    && n !in s.chain
    && forall t :: 0 <= t < |s.pushers| ==> !s.pushers[t].Owns(n) && !s.pushers[t].Holds(n)
  }

  predicate Enabled<T>(s: State<T>, a: Action<T>) {
    match a
    case BeginPush(t, _, node) => t < |s.pushers| && s.pushers[t].Idle? && Reusable(s, node)
    case PushStep(t) => t < |s.pushers| && !s.pushers[t].Idle? && Readable(s, s.pushers[t])
    case BeginPop => s.popper.PopIdle?
    case PopStep => !s.popper.PopIdle? && !s.popper.PopDone? && PopReadable(s)
    case EndPop => s.popper.PopDone?
    case Recycle(node, _) => Reusable(s, node)
  }

  /** The memory a pusher is about to dereference is mapped. */
  predicate Readable<T>(s: State<T>, p: Pusher<T>) {
    p.LoadNext? || p.LinkNext? ==> p.tail.ptr in s.heap
  }

  predicate PopReadable<T>(s: State<T>) {
    && (s.popper.PopLoadNext? ==> s.popper.head.ptr in s.heap)
    && (s.popper.PopSteal? ==> s.popper.next.ptr in s.heap)
  }

  function PusherStep<T>(s: State<T>, t: nat): State<T>
    requires t < |s.pushers| && !s.pushers[t].Idle? && Readable(s, s.pushers[t])
  {
    match s.pushers[t]
    case Idle => s
    case LoadTail(node, item) =>
      s.(pushers := s.pushers[t := LoadNext(node, item, s.tail)])
    case LoadNext(node, item, tail) =>
      s.(pushers := s.pushers[t := CheckTail(node, item, tail, s.heap[tail.ptr].next)])
    case CheckTail(node, item, tail, next) =>
      s.(pushers := s.pushers[t :=
        if tail != s.tail then LoadTail(node, item)
        else if next == NULL_HANDLE then LinkNext(node, item, tail)
        else HelpTail(node, item, tail, next)])
    case LinkNext(node, item, tail) =>
      if s.heap[tail.ptr].next == NULL_HANDLE then
        s.(heap := s.heap[tail.ptr := s.heap[tail.ptr].(next := TaggedPtr(node, tail.tag))],
           chain := s.chain + [node],
           pushers := s.pushers[t := SwingTail(node, tail)])
      else
        s.(pushers := s.pushers[t := LoadTail(node, item)])
    case HelpTail(node, item, tail, next) =>
      s.(tail := if s.tail == tail then TaggedPtr(next.ptr, tail.NextTag()) else s.tail,
         pushers := s.pushers[t := LoadTail(node, item)])
    case SwingTail(node, tail) =>
      s.(tail := if s.tail == tail then TaggedPtr(node, tail.NextTag()) else s.tail,
         pushers := s.pushers[t := AddSize])
    case AddSize =>
      s.(size := s.size + 1, pushers := s.pushers[t := Idle])
  }

  function PopperStep<T>(s: State<T>): State<T>
    requires !s.popper.PopIdle? && !s.popper.PopDone? && PopReadable(s)
  {
    match s.popper
    case PopIdle => s
    case PopLoadTail => s.(popper := PopLoadHead(s.tail))
    case PopLoadHead(tail) => s.(popper := PopLoadNext(tail, s.head))
    case PopLoadNext(tail, head) => s.(popper := PopCheck(tail, head, s.heap[head.ptr].next))
    case PopCheck(tail, head, next) =>
      s.(popper :=
        if head != s.head then PopLoadTail
        else if head.ptr == tail.ptr then
          if next == NULL_HANDLE then PopDone(None) else PopHelp(tail, next)
        else if next != NULL_HANDLE then PopSteal(head, next)
        else PopLoadTail)
    case PopHelp(tail, next) =>
      s.(tail := if s.tail == tail then TaggedPtr(next.ptr, tail.NextTag()) else s.tail,
         popper := PopLoadTail)
    case PopSteal(head, next) =>
      s.(heap := s.heap[next.ptr := s.heap[next.ptr].(value := None)],
         popper := PopMoveHead(head, next, s.heap[next.ptr].value))
    case PopMoveHead(head, next, value) =>
      if s.head == head then
        s.(head := TaggedPtr(next.ptr, head.NextTag()),
           chain := if s.chain == [] then [] else s.chain[1..],
           popper := PopSubSize(value))
      else
        s.(popper := PopLoadTail)
    case PopSubSize(value) => s.(size := s.size - 1, popper := PopDone(value))
    case PopDone(_) => s
  }

  function Step<T>(s: State<T>, a: Action<T>): State<T>
    requires Enabled(s, a)
  {
    match a
    case BeginPush(t, item, node) =>
      s.(heap := s.heap[node := Node(NULL_HANDLE, Some(item))],
         pushers := s.pushers[t := LoadTail(node, item)])
    case PushStep(t) => PusherStep(s, t)
    case BeginPop => s.(popper := PopLoadTail)
    case PopStep => PopperStep(s)
    case EndPop => s.(popper := PopIdle)
    case Recycle(node, memory) => s.(heap := s.heap[node := memory])
  }

  /** What the step means to a client of the queue. */
  function EventOf<T>(s: State<T>, a: Action<T>): Event<T>
    requires Enabled(s, a)
  {
    match a
    case PushStep(t) =>
      var p := s.pushers[t];
      if p.LinkNext? && s.heap[p.tail.ptr].next == NULL_HANDLE then Enqueue(p.item) else Silent
    case PopStep =>
      if s.popper.PopMoveHead? && s.head == s.popper.head then Dequeue(s.popper.value)
      else if s.popper.PopLoadNext? && s.heap[s.popper.head.ptr].next == NULL_HANDLE then SawEmpty
      else Silent
    case _ => Silent
  }

  // ---------------------------------------------------------------- invariant

  ghost predicate Chained<T>(s: State<T>) {
    && s.chain != []
    && s.head.ptr == s.chain[0]
    && (forall i :: 0 <= i < |s.chain| ==> s.chain[i] in s.heap && s.chain[i] != NULL)
    && (forall i, j :: 0 <= i < j < |s.chain| ==> s.chain[i] != s.chain[j])
    && (forall i, j :: 0 <= i < j < |s.chain| && j == i + 1 ==> s.heap[s.chain[i]].next.ptr == s.chain[j])
    && s.heap[Last(s)].next == NULL_HANDLE
  }

  /** The tail is the last node or the one before it; the head never overtakes it. */
  ghost predicate TailNearEnd<T>(s: State<T>)
    requires s.chain != []
  {
    s.tail.ptr == Last(s) || (|s.chain| >= 2 && s.tail.ptr == s.chain[|s.chain| - 2])
  }

  ghost predicate Filled<T>(s: State<T>)
    requires Chained(s)
  {
    forall i :: 1 <= i < |s.chain| && (i > 1 || !s.popper.PopMoveHead?) ==> s.heap[s.chain[i]].value.Some?
  }

  ghost predicate Recent<T>(s: State<T>, tail: TaggedPtr) {
    tail.tag <= s.tail.tag && (tail.tag == s.tail.tag ==> tail == s.tail)
  }

  ghost predicate PusherOk<T>(s: State<T>, p: Pusher<T>)
    requires Chained(s)
  {
    && (p.Unlinked() ==>
          && p.node != NULL && p.node !in s.chain && p.node in s.heap
          && s.heap[p.node] == Node(NULL_HANDLE, Some(p.item)))
    && (p.HasTail() ==>
          && Recent(s, p.tail)
          && p.tail.ptr in s.heap)
    && (p.LinkNext? ==>
          && (p.tail.ptr in s.chain || s.heap[p.tail.ptr].next != NULL_HANDLE)
          && (p.tail.ptr == Last(s) ==> s.tail == p.tail))
    && ((p.CheckTail? || p.HelpTail?) && s.tail == p.tail && p.next != NULL_HANDLE ==>
          s.heap[p.tail.ptr].next == p.next)
    && (p.HelpTail? ==> p.next != NULL_HANDLE)
    && (p.SwingTail? ==>
          && Recent(s, p.tail) && p.node != NULL
          && (s.tail == p.tail ==> p.tail.ptr in s.heap && s.heap[p.tail.ptr].next.ptr == p.node))
  }

  ghost predicate PopperOk<T>(s: State<T>)
    requires Chained(s)
  {
    match s.popper
    case PopLoadHead(tail) => Recent(s, tail) && (s.tail.ptr == s.head.ptr ==> s.tail == tail)
    case PopLoadNext(tail, head) =>
      Recent(s, tail) && head == s.head && (s.tail.ptr == s.head.ptr ==> s.tail == tail)
    case PopCheck(tail, head, next) =>
      && Recent(s, tail) && head == s.head && (s.tail.ptr == s.head.ptr ==> s.tail == tail)
      && (if next == NULL_HANDLE then tail.ptr == head.ptr else s.heap[head.ptr].next == next)
    case PopHelp(tail, next) =>
      && Recent(s, tail) && tail.ptr == s.head.ptr && next != NULL_HANDLE && s.heap[s.head.ptr].next == next
      && (s.tail.ptr == s.head.ptr ==> s.tail == tail)
    case PopSteal(head, next) =>
      head == s.head && s.tail.ptr != head.ptr && next != NULL_HANDLE && s.heap[head.ptr].next == next
    case PopMoveHead(head, next, value) =>
      && head == s.head && s.tail.ptr != head.ptr && next != NULL_HANDLE && s.heap[head.ptr].next == next
      && value.Some?
    case PopSubSize(value) => value.Some?
    case _ => true
  }

  ghost predicate NodesApart<T>(s: State<T>) {
    forall t, u, n :: 0 <= t < u < |s.pushers| && s.pushers[t].Owns(n) ==> !s.pushers[u].Owns(n)
  }

  /** Linked, not yet counted in `_size`. */
  function Unsized<T>(p: Pusher<T>): nat {
    if p.SwingTail? || p.AddSize? then 1 else 0
  }

  ghost predicate SizeOk<T>(s: State<T>) {
    s.size == |s.chain| - 1 - SumBy(s.pushers, Unsized) + (if s.popper.PopSubSize? then 1 else 0)
  }

  ghost predicate Inv<T>(s: State<T>) {
    && Chained(s)
    && TailNearEnd(s)
    && Filled(s)
    && (forall t :: 0 <= t < |s.pushers| ==> PusherOk(s, s.pushers[t]))
    && PopperOk(s)
    && NodesApart(s)
    && SizeOk(s)
  }

  function ItemAt<T>(s: State<T>, i: nat): T
    requires Chained(s) && Filled(s) && PopperOk(s) && 1 <= i < |s.chain|
  {
    if i == 1 && s.popper.PopMoveHead? then s.popper.value.value else s.heap[s.chain[i]].value.value
  }

  /** The abstract queue: read off memory by following the links after the dummy. */
  function Contents<T>(s: State<T>): (items: seq<T>)
    requires Chained(s) && Filled(s) && PopperOk(s)
    ensures |items| == |s.chain| - 1
  {
    seq(|s.chain| - 1, i requires 0 <= i < |s.chain| - 1 => ItemAt(s, i + 1))
  }
}
