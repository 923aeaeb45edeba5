/**
 `Context`: a fixed population of serializer queues circulating between global slots, a wait queue
 and workers, as interleaved atomic steps. Queues are numbered; `_waitQue` is an atomic FIFO.
 */
module ContextMachine {
  import opened Counting

  type QueueId = nat

  /** A scheduled object, named by a number. */
  type Obj = nat

  datatype Worker =
    | NotStarted
    | Ready(local: QueueId)                                   // at the head of the loop
    | Ticketed(local: QueueId, slot: nat)                     // about to load the slot
    | Swapping(local: QueueId, slot: nat, expected: QueueId)    // about to compare and swap
    | Swapped(local: QueueId, taken: QueueId)                 // about to push `taken` to the wait queue
    | Waiting(local: QueueId)                                 // about to pop the wait queue
    | Draining(local: QueueId)                                // inside `SerializerQueue::Run`
  {
    /** The queue only this worker can reach. */
    predicate Holds(q: QueueId) {
      match this
      case NotStarted => false
      case Swapped(_, taken) => taken == q
      case Waiting(_) => false
      case _ => local == q
    }
  }

  datatype Poster =
    | Idle
    | Aiming(obj: Obj, slot: nat)       // about to load the slot
    | Pushing(obj: Obj, queue: QueueId) // about to push to the queue it loaded

  /** `posted` and `ran` are history. */
  datatype State = State(
    slots: seq<QueueId>,
    waitQueue: seq<QueueId>,
    workers: seq<Worker>,
    posters: seq<Poster>,
    contents: seq<seq<Obj>>,
    swapCounter: nat,
    globalCounter: nat,
    posted: multiset<Obj>,
    ran: multiset<Obj>)

  datatype Action = Start(w: nat) | WorkerStep(w: nat) | Post(p: nat, obj: Obj) | PosterStep(p: nat)

  /** `Context::Initialize`: one queue in every slot and as many in the wait queue. */
  function Init(n: nat, workers: nat, posters: nat): State
  {
    State(seq(n, i => 2 * i), seq(n, i => 2 * i + 1), seq(workers, _ => NotStarted), seq(posters, _ => Idle),
          seq(2 * n, _ => []), 0, 0, multiset{}, multiset{})
  }

  predicate InRange(s: State, q: QueueId) { q < |s.contents| }

  predicate Enabled(s: State, a: Action) {
    && s.slots != []
    && match a
       case Start(w) => w < |s.workers| && s.workers[w].NotStarted?
       case WorkerStep(w) =>
         && w < |s.workers| && !s.workers[w].NotStarted?
         && (s.workers[w].Ticketed? || s.workers[w].Swapping? ==> s.workers[w].slot < |s.slots|)
         && (s.workers[w].Draining? ==> InRange(s, s.workers[w].local))
       case Post(p, _) => p < |s.posters| && s.posters[p].Idle?
       case PosterStep(p) =>
         && p < |s.posters| && !s.posters[p].Idle?
         && (s.posters[p].Aiming? ==> s.posters[p].slot < |s.slots|)
         && (s.posters[p].Pushing? ==> InRange(s, s.posters[p].queue))
  }

  function StepWorker(s: State, w: nat): State
    requires Enabled(s, WorkerStep(w))
  {
    match s.workers[w]
    case NotStarted => s
    case Ready(local) =>
      s.(workers := s.workers[w := Ticketed(local, s.swapCounter % |s.slots|)], swapCounter := s.swapCounter + 1)
    case Ticketed(local, slot) =>
      s.(workers := s.workers[w := Swapping(local, slot, s.slots[slot])])
    case Swapping(local, slot, expected) =>
      if s.slots[slot] == expected then
        s.(slots := s.slots[slot := local], workers := s.workers[w := Swapped(local, expected)])
      else
        s.(workers := s.workers[w := Swapping(local, slot, s.slots[slot])])
    case Swapped(local, taken) =>
      s.(waitQueue := s.waitQueue + [taken], workers := s.workers[w := Waiting(local)])
    case Waiting(local) =>
      if s.waitQueue == [] then
        s.(workers := s.workers[w := Ready(local)])
      else
        s.(waitQueue := s.waitQueue[1..], workers := s.workers[w := Draining(s.waitQueue[0])])
    case Draining(local) =>
      if s.contents[local] == [] then
        s.(workers := s.workers[w := Ready(local)])
      else
        s.(contents := s.contents[local := s.contents[local][1..]],
           ran := s.ran + multiset{s.contents[local][0]})
  }

  function StepPoster(s: State, p: nat): State
    requires Enabled(s, PosterStep(p))
  {
    match s.posters[p]
    case Idle => s
    case Aiming(obj, slot) => s.(posters := s.posters[p := Pushing(obj, s.slots[slot])])
    case Pushing(obj, queue) =>
      s.(contents := s.contents[queue := s.contents[queue] + [obj]], posters := s.posters[p := Idle])
  }

  function Step(s: State, a: Action): State
    requires Enabled(s, a)
  {
    match a
    case Start(w) =>
      s.(workers := s.workers[w := Ready(|s.contents|)], contents := s.contents + [[]])
    case WorkerStep(w) => StepWorker(s, w)
    case Post(p, obj) =>
      s.(posters := s.posters[p := Aiming(obj, s.globalCounter % |s.slots|)],
         globalCounter := s.globalCounter + 1,
         posted := s.posted + multiset{obj})
    case PosterStep(p) => StepPoster(s, p)
  }

  predicate Legal(s: State, actions: seq<Action>)
    decreases actions
  {
    actions == [] || (Enabled(s, actions[0]) && Legal(Step(s, actions[0]), actions[1..]))
  }

  function Exec(s: State, actions: seq<Action>): State
    requires Legal(s, actions)
    decreases actions
  {
    if actions == [] then s else Exec(Step(s, actions[0]), actions[1..])
  }

  // ---------------------------------------------------------------- invariant

  function Hands(ws: seq<Worker>, q: QueueId): nat
  {
    if ws == [] then 0 else (if ws[0].Holds(q) then 1 else 0) + Hands(ws[1..], q)
  }

  function EmptyHanded(w: Worker): nat { if w.Waiting? then 1 else 0 }

  /** In how many places queue `q` can be found. */
  function Places(s: State, q: QueueId): nat {
    multiset(s.slots)[q] + multiset(s.waitQueue)[q] + Hands(s.workers, q)
  }

  ghost predicate OnePlaceEach(s: State) {
    forall q: QueueId :: Places(s, q) == if InRange(s, q) then 1 else 0
  }

  /** Objects waiting in the queues. */
  function Stored(contents: seq<seq<Obj>>): multiset<Obj>
  {
    if contents == [] then multiset{} else multiset(contents[0]) + Stored(contents[1..])
  }

  /** Objects in posters' hands. */
  function Aimed(posters: seq<Poster>): multiset<Obj>
  {
    if posters == [] then multiset{} else InHand(posters[0]) + Aimed(posters[1..])
  }

  function InHand(p: Poster): multiset<Obj> { if p.Idle? then multiset{} else multiset{p.obj} }

  ghost predicate Inv(s: State) {
    && s.slots != []
    && OnePlaceEach(s)
    && |s.waitQueue| == |s.slots| + SumBy(s.workers, EmptyHanded)
    && (forall w :: 0 <= w < |s.workers| && (s.workers[w].Ticketed? || s.workers[w].Swapping?) ==>
          s.workers[w].slot < |s.slots|)
    && (forall p :: 0 <= p < |s.posters| && s.posters[p].Aiming? ==> s.posters[p].slot < |s.slots|)
    && (forall p :: 0 <= p < |s.posters| && s.posters[p].Pushing? ==> InRange(s, s.posters[p].queue))
    && s.posted == s.ran + Stored(s.contents) + Aimed(s.posters)
  }
}
