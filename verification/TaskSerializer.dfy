/**
 `TaskSerializer` with the hooks of `SerializeObject`, running over the lock-free queue itself.
 Posters and workers interleave at every shared access.
 */
module TaskSerializer {
  import opened Wrappers
  import opened TaggedPointers
  import opened Counting
  import Queue = LockFreeQueue

  /** A posted closure, named by a number. */
  type Task = nat

  const TASKSERIALIZER_ERROR: int := 0x1000_0000_0000_0000

  datatype Poster =
    | Idle
    | Pushing     // inside `_que.Push`
    | Counting    // pushed, about to add to `_taskCount`
    | Scheduling  // read back 1, about to post the object to the context

  datatype Worker =
    | Away
    | Starting                                                   // took the object, about to read `_size`
    | Looping(size: int, i: nat, executed: nat)                  // at the loop test
    | Popping(size: int, i: nat, executed: nat)                  // inside `_que.Pop`
    | Holding(size: int, i: nat, executed: nat, task: Option<Task>)  // popped, about to run it
    | Subtracting(size: int, executed: nat)                      // left the loop
    | Rescheduling                                               // about to post the object again
  {
    predicate Drains() {
      Looping? || Popping? || Holding? || Subtracting?
    }
  }

  /**
   The rest is history: what was posted, link order and who linked, execution order, completed runs.
   */
  datatype State = State(
    queue: Queue.State<Task>,
    taskCount: int,
    posters: seq<Poster>,
    scheduled: nat,
    workers: seq<Worker>,
    posted: multiset<Task>,
    linked: seq<Task>,
    linkers: seq<nat>,
    ran: seq<Task>,
    runs: nat)

  datatype Action =
    | Post(t: nat, task: Task, node: Ptr)
    | PushStep(t: nat)
    | Count(t: nat)
    | Schedule(t: nat)
    | Take(w: nat)
    | WorkerStep(w: nat)
    | Recycle(node: Ptr, memory: Queue.Node<Task>)

  function Init(posters: nat, workers: nat): State {
    State(Queue.Init(posters), 0, seq(posters, _ => Idle), 0, seq(workers, _ => Away),
          multiset{}, [], [], [], 0)
  }

  /** The queue access a worker step performs, if any. */
  function QueueAction(s: State, w: nat): Option<Queue.Action<Task>>
    requires w < |s.workers|
  {
    match s.workers[w]
    case Looping(size, i, _) => if i < size then Some(Queue.BeginPop) else None
    case Popping(_, _, _) => if s.queue.popper.PopDone? then Some(Queue.EndPop) else Some(Queue.PopStep)
    case _ => None
  }

  predicate Enabled(s: State, a: Action) {
    match a
    case Post(t, task, node) =>
      t < |s.posters| && s.posters[t].Idle? && Queue.Enabled(s.queue, Queue.BeginPush(t, task, node))
    case PushStep(t) =>
      t < |s.posters| && s.posters[t].Pushing? && Queue.Enabled(s.queue, Queue.PushStep(t))
    case Count(t) => t < |s.posters| && s.posters[t].Counting?
    case Schedule(t) => t < |s.posters| && s.posters[t].Scheduling?
    case Take(w) => w < |s.workers| && s.workers[w].Away? && s.scheduled > 0
    case WorkerStep(w) =>
      && w < |s.workers| && !s.workers[w].Away?
      && (QueueAction(s, w).Some? ==> Queue.Enabled(s.queue, QueueAction(s, w).value))
    case Recycle(node, memory) => Queue.Enabled(s.queue, Queue.Recycle(node, memory))
  }

  function StepWorker(s: State, w: nat): State
    requires Enabled(s, WorkerStep(w))
  {
    match s.workers[w]
    case Away => s
    case Starting => s.(workers := s.workers[w := Looping(s.queue.size, 0, 0)])
    case Looping(size, i, executed) =>
      if i < size then
        s.(queue := Queue.Step(s.queue, Queue.BeginPop), workers := s.workers[w := Popping(size, i, executed)])
      else
        s.(workers := s.workers[w := Subtracting(size, executed)])
    case Popping(size, i, executed) =>
      if s.queue.popper.PopDone? then
        var output := s.queue.popper.value;
        s.(queue := Queue.Step(s.queue, Queue.EndPop),
           workers := s.workers[w :=
             if output.Some? then Holding(size, i, executed, output) else Subtracting(size, executed)])
      else
        s.(queue := Queue.Step(s.queue, Queue.PopStep))
    case Holding(size, i, executed, task) =>
      s.(ran := if task.Some? then s.ran + [task.value] else s.ran,
         workers := s.workers[w := Looping(size, i + 1, executed + 1)])
    case Subtracting(_, executed) =>
      var remain := s.taskCount - executed;
      s.(taskCount := remain, runs := s.runs + 1, workers := s.workers[w := OnRun(remain)])
    case Rescheduling =>
      s.(scheduled := s.scheduled + 1, workers := s.workers[w := Away])
  }

  /** `SerializeObject::OnRun`: the sentinel is only logged; a positive remainder posts the object. */
  function OnRun(remainCount: int): Worker {
    if remainCount == TASKSERIALIZER_ERROR then Away
    else if remainCount > 0 then Rescheduling
    else Away
  }

  /** `SerializeObject::OnPost`. */
  function OnPost(remainCount: int): Poster {
    if remainCount == TASKSERIALIZER_ERROR then Idle
    else if remainCount == 1 then Scheduling
    else Idle
  }

  function Step(s: State, a: Action): State
    requires Enabled(s, a)
  {
    match a
    case Post(t, task, node) =>
      s.(queue := Queue.Step(s.queue, Queue.BeginPush(t, task, node)), posters := s.posters[t := Pushing],
         posted := s.posted + multiset{task})
    case PushStep(t) =>
      var queue := Queue.Step(s.queue, Queue.PushStep(t));
      var event := Queue.EventOf(s.queue, Queue.PushStep(t));
      s.(queue := queue,
         linked := if event.Enqueue? then s.linked + [event.item] else s.linked,
         linkers := if event.Enqueue? then s.linkers + [t] else s.linkers,
         posters := if queue.pushers[t].Idle? then s.posters[t := Counting] else s.posters)
    case Count(t) =>
      s.(taskCount := s.taskCount + 1, posters := s.posters[t := OnPost(s.taskCount + 1)])
    case Schedule(t) =>
      s.(scheduled := s.scheduled + 1, posters := s.posters[t := Idle])
    case Take(w) =>
      s.(scheduled := s.scheduled - 1, workers := s.workers[w := Starting])
    case WorkerStep(w) => StepWorker(s, w)
    case Recycle(node, memory) =>
      s.(queue := Queue.Step(s.queue, Queue.Recycle(node, memory)))
  }

  predicate Legal(s: State, actions: seq<Action>)
    decreases actions
  {
    actions == [] || (Enabled(s, actions[0]) && Legal(Step(s, actions[0]), actions[1..]))
  }

  function Exec(s: State, actions: seq<Action>): State
    requires Legal(s, actions)
    decreases actions
  {
    if actions == [] then s else Exec(Step(s, actions[0]), actions[1..])
  }

  // ---------------------------------------------------------------- invariant

  function Uncounted(p: Poster): nat { if p.Counting? then 1 else 0 }

  function ToSchedule(p: Poster): nat { if p.Scheduling? then 1 else 0 }

  function Busy(w: Worker): nat { if w.Away? then 0 else 1 }

  function InPop(w: Worker): nat { if w.Popping? then 1 else 0 }

  /** Tasks this run has executed and not yet subtracted. */
  function Executed(w: Worker): nat { if w.Drains() then w.executed else 0 }

  /** As `Executed`, with the task in the worker's hands. */
  function Unsubtracted(w: Worker): nat { Executed(w) + (if w.Holding? then 1 else 0) }

  /** Taken off the chain, still inside `Pop`. */
  function Taken(p: Queue.Popper<Task>): seq<Task> {
    if (p.PopSubSize? || p.PopDone?) && p.value.Some? then [p.value.value] else []
  }

  /** Places from which the object will be, or is being, run. */
  function Tokens(s: State): nat {
    s.scheduled + SumBy(s.posters, ToSchedule) + SumBy(s.workers, Busy)
  }

  /** Linked tasks whose poster has not counted them. */
  function Late(s: State): nat {
    SumBy(s.queue.pushers, Queue.Unsized) + SumBy(s.posters, Uncounted)
  }

  ghost predicate QueueOk(s: State) {
    && Queue.Inv(s.queue)
    && |s.queue.pushers| == |s.posters|
    && (forall t :: 0 <= t < |s.posters| ==> (s.posters[t].Pushing? <==> !s.queue.pushers[t].Idle?))
    && SumBy(s.workers, InPop) == (if s.queue.popper.PopIdle? then 0 else 1)
  }

  ghost predicate CountOk(s: State)
    requires QueueOk(s)
  {
    s.taskCount == |Queue.Contents(s.queue)| + |Taken(s.queue.popper)| + SumBy(s.workers, Unsubtracted) - Late(s)
  }

  ghost predicate TokenOk(s: State) {
    Tokens(s) == if s.taskCount >= 1 then 1 else 0
  }

  /** The pop under way has not seen, and will not see, an empty queue. */
  ghost predicate WillSucceed(p: Queue.Popper<Task>) {
    && (p.PopCheck? ==> p.next != NULL_HANDLE)
    && (p.PopDone? ==> p.value.Some?)
  }

  ghost predicate WorkerOk(s: State, w: Worker)
    requires QueueOk(s)
  {
    var left := |Queue.Contents(s.queue)|;
    match w
    case Looping(size, i, executed) => i == executed <= size && 1 <= size <= i + left
    case Popping(size, i, executed) =>
      i == executed < size <= i + left + |Taken(s.queue.popper)| && WillSucceed(s.queue.popper)
    case Holding(size, i, executed, task) => i == executed < size <= i + left + 1 && task.Some?
    case Subtracting(size, executed) => executed == size >= 1
    case _ => true
  }

  ghost predicate HistoryOk(s: State)
    requires QueueOk(s)
  {
    && (forall w :: 0 <= w < |s.workers| && s.workers[w].Holding? && s.workers[w].task.Some? ==>
          s.linked == s.ran + [s.workers[w].task.value] + Queue.Contents(s.queue))
    && ((forall w :: 0 <= w < |s.workers| ==> !s.workers[w].Holding?) ==>
          s.linked == s.ran + Taken(s.queue.popper) + Queue.Contents(s.queue))
    && s.runs + SumBy(s.workers, Executed) <= |s.ran|
  }

  /** What a poster has constructed and not linked. */
  function InHand(p: Queue.Pusher<Task>): multiset<Task> {
    if p.Unlinked() then multiset{p.item} else multiset{}
  }

  function Pending(pushers: seq<Queue.Pusher<Task>>): multiset<Task> {
    if pushers == [] then multiset{} else InHand(pushers[0]) + Pending(pushers[1..])
  }

  /** Everything posted has been linked once or is on its way to it. */
  ghost predicate PostedOk(s: State) {
    |s.linkers| == |s.linked| && multiset(s.linked) + Pending(s.queue.pushers) == s.posted
  }

  /** The protocol: queue, counts, token, workers and execution order. */
  ghost predicate Core(s: State) {
    && QueueOk(s)
    && CountOk(s)
    && TokenOk(s)
    && (forall w :: 0 <= w < |s.workers| ==> WorkerOk(s, s.workers[w]))
    && HistoryOk(s)
  }

  ghost predicate Inv(s: State) { Core(s) && PostedOk(s) }
}
