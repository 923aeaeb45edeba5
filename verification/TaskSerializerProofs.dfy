/** No task is lost and no object runs twice at once, in every interleaving of posters and workers. */
module TaskSerializerProofs {
  import opened Wrappers
  import opened TaggedPointers
  import opened Counting
  import opened Sequences
  import Queue = LockFreeQueue
  import QueueProofs = LockFreeQueueProofs
  import opened TaskSerializer

  // ---------------------------------------------------------------- counting workers

  lemma AloneSums(ws: seq<Worker>, w: nat)
    requires w < |ws| && forall v :: 0 <= v < |ws| && v != w ==> ws[v].Away?
    ensures SumBy(ws, Busy) == Busy(ws[w]) && SumBy(ws, InPop) == InPop(ws[w])
    ensures SumBy(ws, Executed) == Executed(ws[w]) && SumBy(ws, Unsubtracted) == Unsubtracted(ws[w])
  {
    SumSingle(ws, w, Busy);
    SumSingle(ws, w, InPop);
    SumSingle(ws, w, Executed);
    SumSingle(ws, w, Unsubtracted);
  }

  /** A busy worker is the only token: nobody else runs, or is about to run, the object. */
  lemma Alone(s: State, w: nat)
    requires TokenOk(s) && w < |s.workers| && !s.workers[w].Away?
    ensures s.taskCount >= 1 && s.scheduled == 0 && SumBy(s.posters, ToSchedule) == 0
    ensures forall v :: 0 <= v < |s.workers| && v != w ==> s.workers[v].Away?
    ensures SumBy(s.workers, InPop) == InPop(s.workers[w])
    ensures SumBy(s.workers, Executed) == Executed(s.workers[w])
    ensures SumBy(s.workers, Unsubtracted) == Unsubtracted(s.workers[w])
  {
    SumAtLeast(s.workers, w, Busy);
    forall v | 0 <= v < |s.workers| && v != w ensures s.workers[v].Away? {
      SumPair(s.workers, if v < w then v else w, if v < w then w else v, Busy);
    }
    AloneSums(s.workers, w);
  }

  // ---------------------------------------------------------------- what was posted

  lemma Swap(a: multiset<Task>, b: multiset<Task>, c: multiset<Task>)
    ensures (a + b) + c == (c + b) + a
  {
  }

  lemma {:induction false} PendingUpdate(ps: seq<Queue.Pusher<Task>>, t: nat, p: Queue.Pusher<Task>)
    requires t < |ps|
    ensures Pending(ps[t := p]) + InHand(ps[t]) == Pending(ps) + InHand(p)
  {
    hide InHand;
    if t == 0 {
      assert ps[t := p][1..] == ps[1..];
      Swap(InHand(p), Pending(ps[1..]), InHand(ps[0]));
    } else {
      assert ps[t := p][1..] == ps[1..][t - 1 := p];
      PendingUpdate(ps[1..], t - 1, p);
      Regroup(InHand(ps[0]), Pending(ps[1..][t - 1 := p]), InHand(ps[t]));
      Regroup(InHand(ps[0]), Pending(ps[1..]), InHand(p));
    }
  }

  lemma {:induction false} NothingPending(ps: seq<Queue.Pusher<Task>>)
    requires forall t :: 0 <= t < |ps| ==> ps[t].Idle?
    ensures Pending(ps) == multiset{}
  {
    if ps != [] {
      NothingPending(ps[1..]);
    }
  }

  /** A push hands its item over exactly when it links. */
  lemma HandOver(q: Queue.State<Task>, t: nat)
    requires Queue.Enabled(q, Queue.PushStep(t))
    ensures var r, e := Queue.Step(q, Queue.PushStep(t)), Queue.EventOf(q, Queue.PushStep(t));
      && t < |q.pushers| && t < |r.pushers| && r.pushers == q.pushers[t := r.pushers[t]]
      && (e.Silent? || e.Enqueue?)
      && HandsOver(q.pushers[t], e, r.pushers[t])
  {
  }

  ghost predicate HandsOver(before: Queue.Pusher<Task>, e: Queue.Event<Task>, after: Queue.Pusher<Task>) {
    if e.Enqueue? then before.Unlinked() && before.item == e.item && !after.Unlinked()
    else (before.Unlinked() <==> after.Unlinked()) && (before.Unlinked() ==> before.item == after.item)
  }

  lemma HandedOver(before: Queue.Pusher<Task>, e: Queue.Event<Task>, after: Queue.Pusher<Task>)
    requires HandsOver(before, e, after)
    ensures InHand(after) + multiset(QueueProofs.In(e)) == InHand(before)
  {
  }

  lemma Links(linked: multiset<Task>, pending: multiset<Task>, after: multiset<Task>, posted: multiset<Task>,
              item: multiset<Task>, hand: multiset<Task>, handAfter: multiset<Task>)
    requires linked + pending == posted && after + hand == pending + handAfter && handAfter + item == hand
    ensures linked + item + after == posted
  {
    forall x: Task ensures (linked + item + after)[x] == posted[x] {
      assert (linked + pending)[x] == posted[x];
      assert (after + hand)[x] == (pending + handAfter)[x] && (handAfter + item)[x] == hand[x];
    }
  }

  lemma PushPosted(s: State, t: nat)
    requires PostedOk(s) && Enabled(s, PushStep(t))
    ensures PostedOk(Step(s, PushStep(t)))
  {
    hide Queue.Step, Queue.EventOf, Queue.Enabled, InHand, Pending, HandsOver;
    var q, r := s.queue, Step(s, PushStep(t));
    HandOver(q, t);
    PendingUpdate(q.pushers, t, r.queue.pushers[t]);
    var items := QueueProofs.In(Queue.EventOf(q, Queue.PushStep(t)));
    HandedOver(q.pushers[t], Queue.EventOf(q, Queue.PushStep(t)), r.queue.pushers[t]);
    assert r.linked == s.linked + items;
    assert multiset(r.linked) == multiset(s.linked) + multiset(items);
    Links(multiset(s.linked), Pending(q.pushers), Pending(r.queue.pushers), s.posted, multiset(items),
          InHand(q.pushers[t]), InHand(r.queue.pushers[t]));
  }

  lemma PostPosted(s: State, t: nat, task: Task, node: Ptr)
    requires PostedOk(s) && Enabled(s, Post(t, task, node))
    ensures PostedOk(Step(s, Post(t, task, node)))
  {
    var r := Step(s, Post(t, task, node));
    PendingUpdate(s.queue.pushers, t, r.queue.pushers[t]);
    assert InHand(s.queue.pushers[t]) == multiset{} && InHand(r.queue.pushers[t]) == multiset{task};
    assert Pending(r.queue.pushers) == Pending(s.queue.pushers) + multiset{task};
  }

  // ---------------------------------------------------------------- posters

  lemma InitCore(posters: nat, workers: nat)
    ensures Core(Init(posters, workers))
  {
    var s := Init(posters, workers);
    QueueProofs.InitInv<Task>(posters);
    SumZero(s.queue.pushers, Queue.Unsized);
    SumZero(s.posters, Uncounted);
    SumZero(s.posters, ToSchedule);
    SumZero(s.workers, Busy);
    SumZero(s.workers, InPop);
    SumZero(s.workers, Executed);
    SumZero(s.workers, Unsubtracted);
  }

  lemma InitPosted(posters: nat, workers: nat)
    ensures PostedOk(Init(posters, workers))
  {
    NothingPending(Init(posters, workers).queue.pushers);
  }

  lemma PosterSums(s: State, t: nat, p: Poster)
    requires t < |s.posters|
    ensures SumBy(s.posters[t := p], Uncounted) + Uncounted(s.posters[t]) == SumBy(s.posters, Uncounted) + Uncounted(p)
    ensures SumBy(s.posters[t := p], ToSchedule) + ToSchedule(s.posters[t])
         == SumBy(s.posters, ToSchedule) + ToSchedule(p)
  {
    SumUpdate(s.posters, t, p, Uncounted);
    SumUpdate(s.posters, t, p, ToSchedule);
  }

  lemma PostInv(s: State, t: nat, task: Task, node: Ptr)
    requires Core(s) && Enabled(s, Post(t, task, node))
    ensures Core(Step(s, Post(t, task, node)))
  {
    hide Queue.Chained, Queue.TailNearEnd, Queue.Filled, Queue.PusherOk, Queue.PopperOk, Queue.NodesApart;
    hide Queue.SizeOk, Queue.Contents;
    var r := Step(s, Post(t, task, node));
    QueueProofs.StepRefinesFifo(s.queue, Queue.BeginPush(t, task, node));
    PosterSums(s, t, Pushing);
    SumUpdate(s.queue.pushers, t, r.queue.pushers[t], Queue.Unsized);
    assert QueueOk(r);
  }

  lemma PushCounts(s: State, t: nat)
    requires Core(s) && Enabled(s, PushStep(t))
    ensures QueueOk(Step(s, PushStep(t))) && CountOk(Step(s, PushStep(t))) && TokenOk(Step(s, PushStep(t)))
  {
    hide Queue.Chained, Queue.TailNearEnd, Queue.Filled, Queue.PusherOk, Queue.PopperOk, Queue.NodesApart;
    hide Queue.SizeOk, Queue.Contents;
    var r := Step(s, PushStep(t));
    QueueProofs.PushOutcome(s.queue, t, r.queue);
    PosterSums(s, t, Counting);
    assert QueueOk(r);
  }

  lemma PushWorkers(s: State, t: nat)
    requires Core(s) && Enabled(s, PushStep(t)) && QueueOk(Step(s, PushStep(t)))
    ensures forall w :: 0 <= w < |s.workers| ==> WorkerOk(Step(s, PushStep(t)), s.workers[w])
  {
    var r := Step(s, PushStep(t));
    QueueProofs.PushOutcome(s.queue, t, r.queue);
    forall w | 0 <= w < |s.workers| ensures WorkerOk(r, s.workers[w]) {
      assert WorkerOk(s, s.workers[w]);
    }
  }

  lemma Append<A>(all: seq<A>, front: seq<A>, before: seq<A>, x: A)
    requires all == front + before
    ensures all + [x] == front + (before + [x])
  {
  }

  lemma PushHistory(s: State, t: nat)
    requires Core(s) && Enabled(s, PushStep(t)) && QueueOk(Step(s, PushStep(t)))
    ensures HistoryOk(Step(s, PushStep(t)))
  {
    hide Queue.Chained, Queue.TailNearEnd, Queue.Filled, Queue.PusherOk, Queue.PopperOk, Queue.NodesApart;
    hide Queue.SizeOk, Queue.Contents;
    var r := Step(s, PushStep(t));
    QueueProofs.PushOutcome(s.queue, t, r.queue);
    var before := Queue.Contents(s.queue);
    if Queue.EventOf(s.queue, Queue.PushStep(t)).Enqueue? {
      var x := Queue.EventOf(s.queue, Queue.PushStep(t)).item;
      forall w | 0 <= w < |r.workers| && r.workers[w].Holding? && r.workers[w].task.Some?
        ensures r.linked == r.ran + [r.workers[w].task.value] + Queue.Contents(r.queue)
      {
        Append(s.linked, s.ran + [s.workers[w].task.value], before, x);
      }
      if forall w :: 0 <= w < |s.workers| ==> !s.workers[w].Holding? {
        Append(s.linked, s.ran + Taken(s.queue.popper), before, x);
      }
    }
  }

  lemma PushInv(s: State, t: nat)
    requires Core(s) && Enabled(s, PushStep(t))
    ensures Core(Step(s, PushStep(t)))
  {
    PushCounts(s, t);
    PushWorkers(s, t);
    PushHistory(s, t);
  }

  lemma CountInv(s: State, t: nat)
    requires Core(s) && Enabled(s, Count(t))
    ensures Core(Step(s, Count(t)))
  {
    PosterSums(s, t, OnPost(s.taskCount + 1));
    assert QueueOk(Step(s, Count(t)));
  }

  lemma ScheduleInv(s: State, t: nat)
    requires Core(s) && Enabled(s, Schedule(t))
    ensures Core(Step(s, Schedule(t)))
  {
    PosterSums(s, t, Idle);
    assert QueueOk(Step(s, Schedule(t)));
  }

  lemma RecycleInv(s: State, node: Ptr, memory: Queue.Node<Task>)
    requires Core(s) && Enabled(s, Recycle(node, memory))
    ensures Core(Step(s, Recycle(node, memory)))
  {
    QueueProofs.StepRefinesFifo(s.queue, Queue.Recycle(node, memory));
    assert QueueOk(Step(s, Recycle(node, memory)));
  }

  // ---------------------------------------------------------------- workers

  lemma TakeInv(s: State, w: nat)
    requires Core(s) && Enabled(s, Take(w))
    ensures Core(Step(s, Take(w)))
  {
    hide Queue.Chained, Queue.TailNearEnd, Queue.Filled, Queue.PusherOk, Queue.PopperOk, Queue.NodesApart;
    hide Queue.SizeOk, Queue.Contents;
    var r := Step(s, Take(w));
    SumUpdate(s.workers, w, Starting, Busy);
    SumUpdate(s.workers, w, Starting, InPop);
    SumUpdate(s.workers, w, Starting, Executed);
    SumUpdate(s.workers, w, Starting, Unsubtracted);
    assert QueueOk(r);
    forall v | 0 <= v < |r.workers| ensures WorkerOk(r, r.workers[v]) {
      assert v != w ==> WorkerOk(s, s.workers[v]);
    }
    assert forall v :: 0 <= v < |s.workers| && v != w ==> r.workers[v] == s.workers[v];
  }

  /** The snapshot covers every counted task, so a run always has work to do. */
  lemma SnapshotCoversCount(s: State, w: nat)
    requires Core(s) && w < |s.workers| && s.workers[w].Starting?
    ensures 1 <= s.taskCount <= s.queue.size <= |Queue.Contents(s.queue)|
  {
    Alone(s, w);
  }

  lemma StartInv(s: State, w: nat)
    requires Core(s) && Enabled(s, WorkerStep(w)) && s.workers[w].Starting?
    ensures Core(Step(s, WorkerStep(w)))
  {
    var r := Step(s, WorkerStep(w));
    Alone(s, w);
    SnapshotCoversCount(s, w);
    AloneSums(r.workers, w);
    assert QueueOk(r);
  }

  lemma LoopInv(s: State, w: nat)
    requires Core(s) && Enabled(s, WorkerStep(w)) && s.workers[w].Looping?
    ensures Core(Step(s, WorkerStep(w)))
  {
    hide Queue.Chained, Queue.TailNearEnd, Queue.Filled, Queue.PusherOk, Queue.PopperOk, Queue.NodesApart;
    hide Queue.SizeOk, Queue.Contents;
    var r := Step(s, WorkerStep(w));
    Alone(s, w);
    AloneSums(r.workers, w);
    assert WorkerOk(s, s.workers[w]);
    if s.workers[w].i < s.workers[w].size {
      QueueProofs.StepRefinesFifo(s.queue, Queue.BeginPop);
    }
    assert QueueOk(r);
  }

  lemma PopCounts(s: State, w: nat)
    requires Core(s) && Enabled(s, WorkerStep(w)) && s.workers[w].Popping? && !s.queue.popper.PopDone?
    ensures QueueOk(Step(s, WorkerStep(w))) && CountOk(Step(s, WorkerStep(w))) && TokenOk(Step(s, WorkerStep(w)))
  {
    hide Queue.Chained, Queue.TailNearEnd, Queue.Filled, Queue.PusherOk, Queue.PopperOk, Queue.NodesApart;
    hide Queue.SizeOk, Queue.Contents;
    var r := Step(s, WorkerStep(w));
    QueueProofs.PopOutcome(s.queue, r.queue);
    Alone(s, w);
    assert QueueOk(r);
  }

  lemma PopWorkers(s: State, w: nat)
    requires Core(s) && Enabled(s, WorkerStep(w)) && s.workers[w].Popping? && !s.queue.popper.PopDone?
    requires QueueOk(Step(s, WorkerStep(w)))
    ensures var r := Step(s, WorkerStep(w)); forall v :: 0 <= v < |r.workers| ==> WorkerOk(r, r.workers[v])
  {
    hide Queue.Chained, Queue.TailNearEnd, Queue.Filled, Queue.PusherOk, Queue.PopperOk, Queue.NodesApart;
    hide Queue.SizeOk, Queue.Contents, CountOk, HistoryOk;
    var r := Step(s, WorkerStep(w));
    Alone(s, w);
    assert WorkerOk(s, s.workers[w]);
    QueueProofs.PopOutcome(s.queue, r.queue);
    assert WorkerOk(r, r.workers[w]);
  }

  lemma PopHistory(s: State, w: nat)
    requires Core(s) && Enabled(s, WorkerStep(w)) && s.workers[w].Popping? && !s.queue.popper.PopDone?
    requires QueueOk(Step(s, WorkerStep(w)))
    ensures HistoryOk(Step(s, WorkerStep(w)))
  {
    hide Queue.Chained, Queue.TailNearEnd, Queue.Filled, Queue.PusherOk, Queue.PopperOk, Queue.NodesApart;
    hide Queue.SizeOk, Queue.Contents, CountOk, WorkerOk;
    var r := Step(s, WorkerStep(w));
    Alone(s, w);
    QueueProofs.PopOutcome(s.queue, r.queue);
    if s.queue.popper.PopMoveHead? {
      assert Taken(s.queue.popper) == [];
      TakenIsFront(s.linked, s.ran, Queue.Contents(s.queue), Queue.Contents(r.queue));
    }
  }

  lemma TakenIsFront<A>(all: seq<A>, front: seq<A>, before: seq<A>, after: seq<A>)
    requires all == front + [] + before && before != [] && after == before[1..]
    ensures all == front + [before[0]] + after
  {
    assert before == [before[0]] + after;
  }

  lemma PopInv(s: State, w: nat)
    requires Core(s) && Enabled(s, WorkerStep(w)) && s.workers[w].Popping? && !s.queue.popper.PopDone?
    ensures Core(Step(s, WorkerStep(w)))
  {
    hide QueueOk, CountOk, TokenOk, WorkerOk, HistoryOk, Step;
    PopCounts(s, w);
    PopWorkers(s, w);
    PopHistory(s, w);
  }

  lemma PopReturnsInv(s: State, w: nat)
    requires Core(s) && Enabled(s, WorkerStep(w)) && s.workers[w].Popping? && s.queue.popper.PopDone?
    ensures s.queue.popper.value.Some?
    ensures Core(Step(s, WorkerStep(w)))
  {
    hide Queue.Chained, Queue.TailNearEnd, Queue.Filled, Queue.PusherOk, Queue.PopperOk, Queue.NodesApart;
    hide Queue.SizeOk, Queue.Contents;
    var r := Step(s, WorkerStep(w));
    Alone(s, w);
    AloneSums(r.workers, w);
    assert WorkerOk(s, s.workers[w]);
    QueueProofs.StepRefinesFifo(s.queue, Queue.EndPop);
    assert QueueOk(r);
    assert forall v :: 0 <= v < |s.workers| ==> !s.workers[v].Holding?;
    assert HistoryOk(r);
  }

  lemma RunTaskInv(s: State, w: nat)
    requires Core(s) && Enabled(s, WorkerStep(w)) && s.workers[w].Holding?
    ensures Core(Step(s, WorkerStep(w)))
  {
    var r := Step(s, WorkerStep(w));
    Alone(s, w);
    AloneSums(r.workers, w);
    assert WorkerOk(s, s.workers[w]);
    assert QueueOk(r);
    assert s.queue.popper.PopIdle?;
    assert r.ran + [] == r.ran;
    assert HistoryOk(r);
  }

  lemma SubtractInv(s: State, w: nat)
    requires Core(s) && Enabled(s, WorkerStep(w)) && s.workers[w].Subtracting?
    requires s.taskCount - s.workers[w].executed != TASKSERIALIZER_ERROR
    ensures Core(Step(s, WorkerStep(w)))
  {
    var r := Step(s, WorkerStep(w));
    Alone(s, w);
    AloneSums(r.workers, w);
    assert WorkerOk(s, s.workers[w]);
    assert QueueOk(r);
    assert HistoryOk(r);
  }

  lemma RescheduleInv(s: State, w: nat)
    requires Core(s) && Enabled(s, WorkerStep(w)) && s.workers[w].Rescheduling?
    ensures Core(Step(s, WorkerStep(w)))
  {
    var r := Step(s, WorkerStep(w));
    Alone(s, w);
    AloneSums(r.workers, w);
    assert QueueOk(r);
    assert HistoryOk(r);
  }

  // ---------------------------------------------------------------- every step

  /** `OnRun` would be handed the error sentinel. */
  predicate HitsSentinel(s: State, a: Action)
    requires Enabled(s, a)
  {
    a.WorkerStep? && s.workers[a.w].Subtracting? && s.taskCount - s.workers[a.w].executed == TASKSERIALIZER_ERROR
  }

  lemma StepPosted(s: State, a: Action)
    requires PostedOk(s) && Enabled(s, a)
    ensures PostedOk(Step(s, a))
  {
    hide PostedOk;
    match a
    case Post(t, task, node) => PostPosted(s, t, task, node);
    case PushStep(t) => PushPosted(s, t);
    case _ => PostedFrame(s, Step(s, a));
  }

  lemma PostedFrame(s: State, r: State)
    requires PostedOk(s) && r.posted == s.posted && r.linked == s.linked && r.linkers == s.linkers
    requires r.queue.pushers == s.queue.pushers
    ensures PostedOk(r)
  {
  }

  lemma StepInv(s: State, a: Action)
    requires Inv(s) && Enabled(s, a) && !HitsSentinel(s, a)
    ensures Inv(Step(s, a))
  {
    hide QueueOk, CountOk, TokenOk, HistoryOk, WorkerOk, PostedOk;
    StepPosted(s, a);
    match a
    case Post(t, task, node) => PostInv(s, t, task, node);
    case PushStep(t) => PushInv(s, t);
    case Count(t) => CountInv(s, t);
    case Schedule(t) => ScheduleInv(s, t);
    case Take(w) => TakeInv(s, w);
    case Recycle(node, memory) => RecycleInv(s, node, memory);
    case WorkerStep(w) =>
      match s.workers[w]
      case Starting => StartInv(s, w);
      case Looping(_, _, _) => LoopInv(s, w);
      case Popping(_, _, _) => if s.queue.popper.PopDone? { PopReturnsInv(s, w); } else { PopInv(s, w); }
      case Holding(_, _, _, _) => RunTaskInv(s, w);
      case Subtracting(_, _) => SubtractInv(s, w);
      case Rescheduling => RescheduleInv(s, w);
  }

  function TaskOf(a: Action): multiset<Task> {
    if a.Post? then multiset{a.task} else multiset{}
  }

  function TasksOf(actions: seq<Action>): multiset<Task> {
    if actions == [] then multiset{} else TaskOf(actions[0]) + TasksOf(actions[1..])
  }

  /** The history of posts is what the posters did. */
  lemma {:induction false} PostedIsWhatWasPosted(s: State, actions: seq<Action>)
    requires Legal(s, actions)
    ensures Exec(s, actions).posted == s.posted + TasksOf(actions)
    decreases actions
  {
    hide Step;
    if actions == [] {
      assert s.posted + multiset{} == s.posted;
    } else {
      PostedByOne(s, actions[0]);
      PostedIsWhatWasPosted(Step(s, actions[0]), actions[1..]);
      Regroup(s.posted, TaskOf(actions[0]), TasksOf(actions[1..]));
    }
  }

  lemma PostedByOne(s: State, a: Action)
    requires Enabled(s, a)
    ensures Step(s, a).posted == s.posted + TaskOf(a)
  {
    assert s.posted + multiset{} == s.posted;
  }

  lemma InitInv(posters: nat, workers: nat)
    ensures Inv(Init(posters, workers))
  {
    InitCore(posters, workers);
    InitPosted(posters, workers);
  }

  /** What is handed to `OnRun` never exceeds the tasks linked so far. */
  lemma RemainderIsBounded(s: State, w: nat)
    requires Inv(s) && w < |s.workers| && s.workers[w].Subtracting?
    ensures s.taskCount - s.workers[w].executed <= |s.linked|
  {
    hide PostedOk;
    Alone(s, w);
    assert WorkerOk(s, s.workers[w]);
    assert forall v :: 0 <= v < |s.workers| ==> !s.workers[v].Holding?;
  }

  /** Token and count part ways at the end of a run exactly when the remainder equals the sentinel. */
  lemma SentinelDropsTheToken(s: State, w: nat)
    requires Inv(s) && Enabled(s, WorkerStep(w)) && s.workers[w].Subtracting?
    ensures TokenOk(Step(s, WorkerStep(w))) <==> s.taskCount - s.workers[w].executed != TASKSERIALIZER_ERROR
  {
    hide PostedOk;
    var r := Step(s, WorkerStep(w));
    Alone(s, w);
    AloneSums(r.workers, w);
    if s.taskCount - s.workers[w].executed != TASKSERIALIZER_ERROR {
      SubtractInv(s, w);
    }
  }

  lemma {:induction false} LinkedGrows(s: State, actions: seq<Action>)
    requires Legal(s, actions)
    ensures s.linked <= Exec(s, actions).linked
    decreases actions
  {
    if actions != [] {
      assert s.linked <= Step(s, actions[0]).linked;
      LinkedGrows(Step(s, actions[0]), actions[1..]);
    }
  }

  /** The invariant holds throughout every run that links fewer tasks than the sentinel. */
  lemma {:induction false} RunInv(s: State, actions: seq<Action>)
    requires Inv(s) && Legal(s, actions) && |Exec(s, actions).linked| < TASKSERIALIZER_ERROR
    ensures Inv(Exec(s, actions))
    decreases actions
  {
    if actions != [] {
      var a := actions[0];
      LinkedGrows(s, actions);
      if a.WorkerStep? && s.workers[a.w].Subtracting? {
        RemainderIsBounded(s, a.w);
      }
      StepInv(s, a);
      RunInv(Step(s, a), actions[1..]);
    }
  }

  // ---------------------------------------------------------------- theorems

  predicate Reached(posters: nat, workers: nat, actions: seq<Action>, s: State) {
    && Legal(Init(posters, workers), actions)
    && s == Exec(Init(posters, workers), actions)
    && |s.linked| < TASKSERIALIZER_ERROR
  }

  lemma ReachedInv(posters: nat, workers: nat, actions: seq<Action>, s: State)
    requires Reached(posters, workers, actions, s)
    ensures Inv(s)
  {
    InitInv(posters, workers);
    RunInv(Init(posters, workers), actions);
  }

  /**
   At most one place in the whole system runs, or will run, the object, and there is one exactly
   while `_taskCount` is positive. So no two workers run it at once, and whoever is about to pop
   finds the queue's single-consumer side free.
   */
  lemma OneToken(posters: nat, workers: nat, actions: seq<Action>, s: State)
    requires Reached(posters, workers, actions, s)
    ensures Tokens(s) == if s.taskCount >= 1 then 1 else 0
    ensures forall v, w :: 0 <= v < w < |s.workers| ==> s.workers[v].Away? || s.workers[w].Away?
    ensures forall w :: 0 <= w < |s.workers| && s.workers[w].Looping? ==> s.queue.popper.PopIdle?
  {
    hide PostedOk;
    ReachedInv(posters, workers, actions, s);
    forall w | 0 <= w < |s.workers| && !s.workers[w].Away?
      ensures forall v :: 0 <= v < |s.workers| && v != w ==> s.workers[v].Away?
      ensures s.workers[w].Looping? ==> s.queue.popper.PopIdle?
    {
      Alone(s, w);
    }
  }

  ghost predicate NoPostInFlight(s: State) {
    forall t :: 0 <= t < |s.posters| ==> s.posters[t].Idle?
  }

  /** The count is exact up to posts and runs in flight, and tasks run in link order. */
  ghost predicate Accounted(s: State)
    requires QueueOk(s)
  {
    && s.taskCount
       == |Queue.Contents(s.queue)| + |Taken(s.queue.popper)| + SumBy(s.workers, Unsubtracted) - Late(s)
    && s.ran <= s.linked
    && (Tokens(s) == 0 ==> |Queue.Contents(s.queue)| <= Late(s))
    && (Tokens(s) == 0 && NoPostInFlight(s) ==>
          Queue.Contents(s.queue) == [] && s.taskCount == 0 && s.ran == s.linked)
  }

  lemma BusyAccounts(s: State, w: nat)
    requires Core(s) && w < |s.workers| && !s.workers[w].Away?
    ensures Accounted(s)
  {
    Alone(s, w);
    assert WorkerOk(s, s.workers[w]);
    SumAtLeast(s.workers, w, Busy);
  }

  lemma QuietAccounts(s: State)
    requires Core(s) && forall w :: 0 <= w < |s.workers| ==> s.workers[w].Away?
    ensures Accounted(s)
  {
    SumZero(s.workers, Unsubtracted);
    SumZero(s.workers, InPop);
    if NoPostInFlight(s) {
      SumZero(s.posters, Uncounted);
      SumZero(s.queue.pushers, Queue.Unsized);
    }
  }

  lemma EverythingPostedIsLinked(s: State)
    requires PostedOk(s) && QueueOk(s) && NoPostInFlight(s)
    ensures multiset(s.linked) == s.posted
  {
    NothingPending(s.queue.pushers);
    assert multiset(s.linked) + multiset{} == multiset(s.linked);
  }

  lemma EveryTaskIsAccountedFor(s: State)
    requires Inv(s)
    ensures QueueOk(s) && Accounted(s)
    ensures multiset(s.linked) + Pending(s.queue.pushers) == s.posted
    ensures Tokens(s) == 0 && NoPostInFlight(s) ==> s.ran == s.linked && multiset(s.ran) == s.posted
  {
    hide QueueOk, CountOk, TokenOk, WorkerOk, HistoryOk, Pending;
    if exists w :: 0 <= w < |s.workers| && !s.workers[w].Away? {
      var w :| 0 <= w < |s.workers| && !s.workers[w].Away?;
      BusyAccounts(s, w);
    } else {
      QuietAccounts(s);
    }
    if NoPostInFlight(s) { EverythingPostedIsLinked(s); }
  }

  /**
   Every task posted is linked once or still in its poster's hands; linked tasks run in link order
   without repetition; and the count is exact up to posts and runs in flight. Once no post is in
   flight and nobody holds the token, exactly the tasks posted have run, each once.
   */
  lemma NoTaskIsLost(posters: nat, workers: nat, actions: seq<Action>, s: State)
    requires Reached(posters, workers, actions, s)
    ensures QueueOk(s) && Accounted(s)
    ensures multiset(s.linked) + Pending(s.queue.pushers) == s.posted
    ensures Tokens(s) == 0 && NoPostInFlight(s) ==> s.ran == s.linked && multiset(s.ran) == s.posted
  {
    hide Inv, Accounted, Tokens;
    ReachedInv(posters, workers, actions, s);
    EveryTaskIsAccountedFor(s);
  }

  /**
   A run starts with `_size >= _taskCount >= 1`, each of its pops yields a task, so the `break` is
   never taken, and it executes exactly its snapshot. Runs never outnumber the tasks posted.
   */
  lemma RunsDrainTheirSnapshot(posters: nat, workers: nat, actions: seq<Action>, s: State)
    requires Reached(posters, workers, actions, s)
    ensures forall w :: 0 <= w < |s.workers| && s.workers[w].Starting? ==> s.queue.size >= s.taskCount >= 1
    ensures forall w :: 0 <= w < |s.workers| && s.workers[w].Starting? ==>
      StepWorker(s, w).workers[w] == Looping(s.queue.size, 0, 0)
    ensures forall w :: 0 <= w < |s.workers| && s.workers[w].Popping? && s.queue.popper.PopDone? ==>
      s.queue.popper.value.Some?
    ensures forall w :: 0 <= w < |s.workers| && s.workers[w].Subtracting? ==>
      s.workers[w].executed == s.workers[w].size >= 1
    ensures s.runs <= |s.ran| <= |s.linked|
  {
    hide PostedOk;
    ReachedInv(posters, workers, actions, s);
    NoTaskIsLost(posters, workers, actions, s);
    forall w | 0 <= w < |s.workers|
      ensures s.workers[w].Starting? ==> s.queue.size >= s.taskCount >= 1
      ensures s.workers[w].Popping? && s.queue.popper.PopDone? ==> s.queue.popper.value.Some?
      ensures s.workers[w].Subtracting? ==> s.workers[w].executed == s.workers[w].size >= 1
    {
      assert WorkerOk(s, s.workers[w]);
      if s.workers[w].Starting? { SnapshotCoversCount(s, w); }
    }
  }

  /** Own steps a worker that has taken its snapshot still needs, at most. */
  function RunMeasure(s: State, w: Worker): int {
    match w
    case Looping(size, i, _) => 16 * (size - i) + 3
    case Popping(size, i, _) => 16 * (size - i - 1) + 5 + QueueProofs.PopMeasure(s.queue)
    case Holding(size, i, _, _) => 16 * (size - i - 1) + 4
    case Subtracting(_, _) => 2
    case Rescheduling => 1
    case _ => 0
  }

  /** Only the worker inside the run makes `_size` smaller. */
  lemma OthersKeepSize(s: State, a: Action, w: nat)
    requires Inv(s) && Enabled(s, a) && w < |s.workers| && !s.workers[w].Away? && a != WorkerStep(w)
    ensures Step(s, a).queue.size >= s.queue.size && Step(s, a).ran == s.ran
  {
    hide PostedOk;
    Alone(s, w);
  }

  /** When a run starts, `_size` is the number of tasks linked and not run, less those linked and not sized. */
  lemma StartCounts(s: State, w: nat)
    requires Inv(s) && w < |s.workers| && s.workers[w].Starting?
    ensures s.queue.size == |s.linked| - |s.ran| - SumBy(s.queue.pushers, Queue.Unsized)
  {
    hide PostedOk;
    Alone(s, w);
    assert forall v :: 0 <= v < |s.workers| ==> !s.workers[v].Holding?;
  }

  /** Worker `w` stays in one and the same run, from its start up to the subtraction. */
  predicate Throughout(s: State, actions: seq<Action>, w: nat)
    requires Legal(s, actions)
    decreases actions
  {
    && w < |s.workers| && (s.workers[w].Starting? || s.workers[w].Drains())
    && (actions != [] ==> Throughout(Step(s, actions[0]), actions[1..], w))
  }

  function SnapshotOf(w: Worker): int {
    match w
    case Looping(size, _, _) => size
    case Popping(size, _, _) => size
    case Holding(size, _, _, _) => size
    case Subtracting(size, _) => size
    case _ => 0
  }

  /**
   From a state in which worker `w` is about to read `_size`, whatever everybody does: when it gets to
   the subtraction it has executed as many tasks as the snapshot said, and the snapshot was at least
   what `_size` is now.
   */
  lemma {:induction false} RunExecutesWhatSizeCounts(s: State, actions: seq<Action>, w: nat)
    requires Inv(s) && Legal(s, actions) && Throughout(s, actions, w)
    requires var r := Exec(s, actions); w < |r.workers| && r.workers[w].Subtracting?
    ensures var r := Exec(s, actions); var x := r.workers[w];
      && x.executed == SnapshotOf(x)
      && (s.workers[w].Starting? ==> x.executed >= s.queue.size && |r.ran| == |s.ran| + x.executed)
      && (s.workers[w].Drains() ==>
            x.executed == SnapshotOf(s.workers[w])
            && |r.ran| - x.executed == |s.ran| - Executed(s.workers[w]))
    decreases actions
  {
    hide PostedOk, CountOk, HistoryOk, Step, Enabled, WorkerOk, QueueOk;
    if actions == [] {
      SubtractsSnapshot(s, w);
    } else {
      var a, m := actions[0], Step(s, actions[0]);
      NoSentinelInRun(s, a, w);
      StepInv(s, a);
      StepOfRun(s, a, w);
      RunExecutesWhatSizeCounts(m, actions[1..], w);
    }
  }

  lemma SubtractsSnapshot(s: State, w: nat)
    requires Inv(s) && w < |s.workers| && s.workers[w].Subtracting?
    ensures s.workers[w].executed == SnapshotOf(s.workers[w])
  {
    assert WorkerOk(s, s.workers[w]);
  }

  lemma NoSentinelInRun(s: State, a: Action, w: nat)
    requires Inv(s) && Enabled(s, a) && w < |s.workers| && !s.workers[w].Away?
    requires w < |Step(s, a).workers| && !Step(s, a).workers[w].Away?
    ensures !HitsSentinel(s, a)
  {
    hide PostedOk, CountOk, HistoryOk, WorkerOk;
    Alone(s, w);
  }

  lemma StepOfRun(s: State, a: Action, w: nat)
    requires Inv(s) && Enabled(s, a) && w < |s.workers| && (s.workers[w].Starting? || s.workers[w].Drains())
    requires w < |Step(s, a).workers| && (Step(s, a).workers[w].Starting? || Step(s, a).workers[w].Drains())
    ensures var r := Step(s, a);
      && (s.workers[w].Starting? && r.workers[w].Starting? ==> r.ran == s.ran && r.queue.size >= s.queue.size)
      && (s.workers[w].Starting? && r.workers[w].Drains() ==>
            r.ran == s.ran && Executed(r.workers[w]) == 0 && SnapshotOf(r.workers[w]) == s.queue.size)
      && (s.workers[w].Drains() ==>
            r.workers[w].Drains() && SnapshotOf(r.workers[w]) == SnapshotOf(s.workers[w])
            && |r.ran| - Executed(r.workers[w]) == |s.ran| - Executed(s.workers[w]))
  {
    hide PostedOk, CountOk, HistoryOk;
    Alone(s, w);
    if a != WorkerStep(w) { OthersKeepSize(s, a, w); }
    assert WorkerOk(s, s.workers[w]);
  }

  /** Once the snapshot is read the run ends within a bound that no poster can push back. */
  lemma RunIsWaitFree(s: State, a: Action, w: nat)
    requires Inv(s) && Enabled(s, a) && w < |s.workers| && !s.workers[w].Away? && !s.workers[w].Starting?
    ensures RunMeasure(s, s.workers[w]) > 0
    ensures |Step(s, a).workers| == |s.workers|
    ensures !HitsSentinel(s, a) ==> var r := Step(s, a);
      if a == WorkerStep(w) then 0 <= RunMeasure(r, r.workers[w]) < RunMeasure(s, s.workers[w])
      else r.workers[w] == s.workers[w] && RunMeasure(r, r.workers[w]) <= RunMeasure(s, s.workers[w])
  {
    hide PostedOk;
    Alone(s, w);
    assert WorkerOk(s, s.workers[w]);
    match a
    case PushStep(t) => QueueProofs.PopIsWaitFree(s.queue, Queue.PushStep(t));
    case Post(t, task, node) => QueueProofs.PopIsWaitFree(s.queue, Queue.BeginPush(t, task, node));
    case Recycle(node, memory) => QueueProofs.PopIsWaitFree(s.queue, Queue.Recycle(node, memory));
    case WorkerStep(_) =>
      if QueueAction(s, w).Some? { QueueProofs.PopIsWaitFree(s.queue, QueueAction(s, w).value); }
    case _ =>
  }
}
