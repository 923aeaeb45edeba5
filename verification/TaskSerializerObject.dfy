/**
 `TaskSerializer::Run` itself, with posters doing whatever they like between any two of its
 accesses. `others` holds what they are going to do; how much of it happens at each point is
 arbitrary.
 */
module TaskSerializerObject {
  import opened Wrappers
  import opened TaggedPointers
  import Counting
  import Queue = LockFreeQueue
  import QueueProofs = LockFreeQueueProofs
  import opened TaskSerializer
  import opened TaskSerializerProofs

  /** A step of anybody but the busy worker `w`. */
  lemma OthersKeep(s: State, a: Action, w: nat)
    requires Inv(s) && Enabled(s, a) && !HitsSentinel(s, a)
    requires w < |s.workers| && !s.workers[w].Away? && a != WorkerStep(w)
    ensures var r := Step(s, a);
      && Inv(r) && r.workers == s.workers && r.ran == s.ran && s.linked <= r.linked && r.taskCount >= s.taskCount
      && r.queue.size >= s.queue.size
      && (!s.workers[w].Starting? ==> RunMeasure(r, r.workers[w]) <= RunMeasure(s, s.workers[w]))
  {
    hide QueueOk, CountOk, TokenOk, HistoryOk, WorkerOk, PostedOk, RunMeasure;
    StepInv(s, a);
    Alone(s, w);
    if !s.workers[w].Starting? { RunIsWaitFree(s, a, w); }
    OthersKeepSize(s, a, w);
  }

  lemma CanStep(s: State, w: nat)
    requires Inv(s) && w < |s.workers| && !s.workers[w].Away?
    ensures Enabled(s, WorkerStep(w)) && s.scheduled == 0
    ensures s.workers[w].Popping? && s.queue.popper.PopDone? ==> s.queue.popper.value.Some?
    ensures s.workers[w].Starting? ==> s.queue.size >= s.taskCount >= 1
    ensures s.workers[w].Looping? ==> s.workers[w].i == s.workers[w].executed <= s.workers[w].size
    ensures s.workers[w].Subtracting? ==> s.taskCount - s.workers[w].executed <= |s.linked|
    ensures s.workers[w].Holding? ==> s.workers[w].task.Some?
  {
    Alone(s, w);
    assert WorkerOk(s, s.workers[w]);
    QueueProofs.CanStep(s.queue);
    if s.workers[w].Starting? { SnapshotCoversCount(s, w); }
    if s.workers[w].Subtracting? { RemainderIsBounded(s, w); }
  }

  lemma OnlyScheduled(s: State, w: nat)
    requires Inv(s) && w < |s.workers| && s.workers[w].Away?
    requires s.scheduled == 1 || s.taskCount <= 0
    ensures s.scheduled == (if s.taskCount >= 1 then 1 else 0) && s.ran <= s.linked
  {
    if exists v :: 0 <= v < |s.workers| && s.workers[v].Holding? {
      var v :| 0 <= v < |s.workers| && s.workers[v].Holding?;
      assert WorkerOk(s, s.workers[v]);
    }
  }

  // ---------------------------------------------------------------- posters

  predicate StepsPoster(a: Action, t: nat) {
    (a.Post? || a.PushStep? || a.Count? || a.Schedule?) && a.t == t
  }

  /** The access to the queue that `a` makes, if any. */
  function UnderlyingAction(s: State, a: Action): Option<Queue.Action<Task>>
    requires Enabled(s, a)
  {
    match a
    case Post(t, task, node) => Some(Queue.BeginPush(t, task, node))
    case PushStep(t) => Some(Queue.PushStep(t))
    case WorkerStep(w) => QueueAction(s, w)
    case Recycle(node, memory) => Some(Queue.Recycle(node, memory))
    case _ => None
  }

  lemma QueueInv(s: State)
    requires Inv(s)
    ensures Queue.Inv(s.queue) && |s.queue.pushers| == |s.posters| && |s.linkers| == |s.linked|
    ensures forall t :: 0 <= t < |s.posters| ==> (s.posters[t].Pushing? <==> !s.queue.pushers[t].Idle?)
  {
  }

  /** What poster `t` has linked, in order, and then what it is on its way to linking. */
  ghost function Due(s: State, t: nat): seq<Task>
    requires t < |s.queue.pushers| && |s.linkers| == |s.linked|
  {
    var p := s.queue.pushers[t];
    QueueProofs.LinkedBy(s.linked, s.linkers, t) + (if p.Unlinked() then [p.item] else [])
  }

  lemma DueStays(s: State, a: Action, t: nat)
    requires Enabled(s, a) && t < |s.queue.pushers| && |s.linkers| == |s.linked|
    requires a == PushStep(t) || !StepsPoster(a, t)
    ensures var r := Step(s, a); |r.queue.pushers| == |s.queue.pushers| && |r.linkers| == |r.linked|
    ensures Due(Step(s, a), t) == Due(s, t)
  {
    hide QueueProofs.LinkedBy, Queue.Step, Queue.EventOf, Queue.Enabled, HandsOver;
    match a
    case PushStep(u) =>
      HandOver(s.queue, u);
      var e := Queue.EventOf(s.queue, Queue.PushStep(u));
      if e.Enqueue? { QueueProofs.LinkedByOne(s.linked, s.linkers, e.item, u, t); }
      if u == t { DueHandsOver(s, e, Step(s, a), t); }
    case _ =>
      OtherPushersStay(s, a);
  }

  lemma OtherPushersStay(s: State, a: Action)
    requires Enabled(s, a) && !a.PushStep?
    ensures forall t :: 0 <= t < |s.queue.pushers| && !StepsPoster(a, t) ==>
      |Step(s, a).queue.pushers| == |s.queue.pushers| && Step(s, a).queue.pushers[t] == s.queue.pushers[t]
    ensures |Step(s, a).queue.pushers| == |s.queue.pushers|
    ensures Step(s, a).linked == s.linked && Step(s, a).linkers == s.linkers
  {
  }

  lemma DueHandsOver(s: State, e: Queue.Event<Task>, r: State, t: nat)
    requires t < |s.queue.pushers| == |r.queue.pushers| && |s.linkers| == |s.linked| && |r.linkers| == |r.linked|
    requires HandsOver(s.queue.pushers[t], e, r.queue.pushers[t])
    requires QueueProofs.LinkedBy(r.linked, r.linkers, t)
      == QueueProofs.LinkedBy(s.linked, s.linkers, t) + (if e.Enqueue? then [e.item] else [])
    ensures Due(r, t) == Due(s, t)
  {
  }

  lemma NothingDue(s: State, t: nat)
    requires Inv(s) && t < |s.posters| && !s.posters[t].Pushing?
    requires t < |s.queue.pushers| && |s.linkers| == |s.linked|
    ensures Due(s, t) == QueueProofs.LinkedBy(s.linked, s.linkers, t)
  {
    QueueInv(s);
  }

  lemma SentinelTakesManyTasks(s: State, a: Action)
    requires Inv(s) && Enabled(s, a) && HitsSentinel(s, a)
    ensures Step(s, a).linked == s.linked && |s.linked| >= TASKSERIALIZER_ERROR
  {
    hide Inv;
    RemainderIsBounded(s, a.w);
  }

  /** Own steps that poster `t`'s push still needs if left alone. */
  ghost function PushLeft(s: State, t: nat): nat
    requires Inv(s) && t < |s.posters|
  {
    QueueProofs.TailIsMapped(s.queue, t);
    QueueProofs.PushMeasure(s.queue, s.queue.pushers[t])
  }

  /** A step of anybody but poster `t`. */
  lemma OthersKeepPoster(s: State, a: Action, t: nat)
    requires Inv(s) && Enabled(s, a) && !HitsSentinel(s, a) && t < |s.posters| && !StepsPoster(a, t)
    requires t < |s.queue.pushers| && |s.linkers| == |s.linked|
    ensures var r := Step(s, a);
      && Inv(r) && |r.posters| == |s.posters| && r.posters[t] == s.posters[t] && s.linked <= r.linked
      && t < |r.queue.pushers| && |r.linkers| == |r.linked|
      && PushLeft(r, t) <= PushLeft(s, t) + 15 && Due(r, t) == Due(s, t)
  {
    hide QueueOk, CountOk, TokenOk, HistoryOk, WorkerOk, PostedOk, Queue.Inv, Queue.Step, Due;
    StepInv(s, a);
    QueueInv(s);
    QueueInv(Step(s, a));
    DueStays(s, a, t);
    var b := UnderlyingAction(s, a);
    if b.Some? {
      QueueProofs.PushIsLockFree(s.queue, b.value, t);
    } else {
      QueueProofs.TailIsMapped(s.queue, t);
    }
  }

  lemma PostBegins(s: State, t: nat, task: Task, node: Ptr)
    requires Inv(s) && Enabled(s, Post(t, task, node)) && t < |s.queue.pushers| && |s.linkers| == |s.linked|
    ensures var r := Step(s, Post(t, task, node));
      && Inv(r) && |r.posters| == |s.posters| && r.posters[t].Pushing? && r.linked == s.linked
      && t < |r.queue.pushers| && |r.linkers| == |r.linked|
      && Due(r, t) == QueueProofs.LinkedBy(s.linked, s.linkers, t) + [task]
  {
    hide Inv, QueueProofs.LinkedBy;
    QueueInv(s);
    StepInv(s, Post(t, task, node));
  }

  lemma OwnPush(s: State, t: nat)
    requires Inv(s) && t < |s.posters| && s.posters[t].Pushing?
    requires t < |s.queue.pushers| && |s.linkers| == |s.linked|
    ensures Enabled(s, PushStep(t)) && Inv(Step(s, PushStep(t)))
    ensures var r := Step(s, PushStep(t));
      && |r.posters| == |s.posters| && (r.posters[t].Pushing? || r.posters[t].Counting?)
      && t < |r.queue.pushers| && |r.linkers| == |r.linked|
      && s.linked <= r.linked && PushLeft(r, t) < PushLeft(s, t) && Due(r, t) == Due(s, t)
  {
    hide CountOk, TokenOk, HistoryOk, WorkerOk, PostedOk, Queue.Inv, Due;
    QueueInv(s);
    QueueProofs.CanStep(s.queue);
    StepInv(s, PushStep(t));
    DueStays(s, PushStep(t), t);
    QueueProofs.PushIsLockFree(s.queue, Queue.PushStep(t), t);
  }

  class Serializer {
    var queue: Queue.State<Task>
    var taskCount: int

    // the context's view of this object, where every thread stands, and the history
    var scheduled: nat
    var posters: seq<Poster>
    var workers: seq<Worker>
    var posted: multiset<Task>
    var linked: seq<Task>
    var linkers: seq<nat>
    var ran: seq<Task>
    var runs: nat
    var others: seq<Action>

    function View(): State
      reads this
    {
      State(queue, taskCount, posters, scheduled, workers, posted, linked, linkers, ran, runs)
    }

    ghost predicate Valid()
      reads this
    {
      Inv(View())
    }

    ghost predicate Running(w: nat)
      reads this
    {
      Valid() && w < |workers| && !workers[w].Away?
    }

    constructor (posters: nat, workers: nat, others: seq<Action>)
      ensures Valid() && View() == Init(posters, workers)
    {
      queue, taskCount, scheduled := Queue.Init(posters), 0, 0;
      this.posters, this.workers := seq(posters, _ => Idle), seq(workers, _ => Away);
      posted, linked, linkers, ran, runs, this.others := multiset{}, [], [], [], 0, others;
      new;
      InitInv(posters, workers);
    }

    method Become(r: State)
      modifies `queue, `taskCount, `scheduled, `posters, `workers, `posted, `linked, `linkers, `ran, `runs
      ensures View() == r
    {
      queue, taskCount, scheduled, posters := r.queue, r.taskCount, r.scheduled, r.posters;
      workers, posted, linked, linkers, ran, runs := r.workers, r.posted, r.linked, r.linkers, r.ran, r.runs;
    }

    /** Some of what the other threads have in mind happens, possibly none. */
    method Interfere(w: nat)
      requires Running(w)
      modifies this
      ensures Running(w) && workers == old(workers) && ran == old(ran)
      ensures old(linked) <= linked && taskCount >= old(taskCount) && queue.size >= old(queue.size)
      ensures !workers[w].Starting? ==>
        RunMeasure(View(), workers[w]) <= old(RunMeasure(View(), workers[w]))
    {
      hide Inv, Enabled, Step, HitsSentinel, RunMeasure;
      var k: nat :| k <= |others|;
      while k > 0 && others != []
        invariant Running(w) && workers == old(workers) && ran == old(ran)
        invariant old(linked) <= linked && taskCount >= old(taskCount) && queue.size >= old(queue.size)
        invariant !workers[w].Starting? ==>
          RunMeasure(View(), workers[w]) <= old(RunMeasure(View(), workers[w]))
      {
        var a := others[0];
        others, k := others[1..], k - 1;
        var s := View();
        if a != WorkerStep(w) && Enabled(s, a) && !HitsSentinel(s, a) {
          OthersKeep(s, a, w);
          Become(Step(s, a));
        }
      }
    }

    /** Books the access the worker just made to `queue`, `taskCount` or `scheduled`. */
    method Record(w: nat, s: State)
      requires Inv(s) && Enabled(s, WorkerStep(w)) && !HitsSentinel(s, WorkerStep(w))
      requires posters == s.posters && workers == s.workers
      requires posted == s.posted && linked == s.linked && linkers == s.linkers && ran == s.ran && runs == s.runs
      requires var r := StepWorker(s, w); queue == r.queue && taskCount == r.taskCount && scheduled == r.scheduled
      modifies `workers, `ran, `runs
      ensures Valid() && View() == StepWorker(s, w)
    {
      hide Inv, Enabled, HitsSentinel;
      StepInv(s, WorkerStep(w));
      var r := StepWorker(s, w);
      workers, ran, runs := r.workers, r.ran, r.runs;
    }

    /** `_que.GetSize`: the snapshot is `_size`, and covers every counted task and every sized one. */
    method GetSize(w: nat) returns (size: int)
      requires Running(w) && workers[w].Starting?
      modifies this
      ensures Running(w) && workers[w] == Looping(size, 0, 0) && size >= old(taskCount) && size >= 1
      ensures size == queue.size >= old(queue.size)
      ensures ran == old(ran) && old(linked) <= linked && taskCount >= old(taskCount)
    {
      hide Inv;
      Interfere(w);
      CanStep(View(), w);
      size := queue.size;
      Record(w, View());
    }

    /** `_que.Pop`, one access after the other: it always comes back with a task. */
    method Pop(w: nat, size: int, i: nat) returns (task: Option<Task>)
      requires Running(w) && workers[w] == Looping(size, i, i) && i < size
      modifies this
      ensures task.Some? && Running(w) && workers[w] == Holding(size, i, i, task)
      ensures ran == old(ran) && old(linked) <= linked && taskCount >= old(taskCount)
    {
      hide Inv, RunMeasure, Queue.Enabled, Queue.Step;
      Interfere(w);
      CanStep(View(), w);
      var s := View();
      queue := Queue.Step(queue, Queue.BeginPop);
      Record(w, s);
      while true
        invariant Running(w) && workers[w] == Popping(size, i, i)
        invariant ran == old(ran) && old(linked) <= linked && taskCount >= old(taskCount)
        decreases RunMeasure(View(), workers[w])
      {
        Interfere(w);
        s := View();
        CanStep(s, w);
        RunIsWaitFree(s, WorkerStep(w), w);
        if queue.popper.PopDone? {
          task := queue.popper.value;
          queue := Queue.Step(queue, Queue.EndPop);
          Record(w, s);
          return;
        }
        queue := Queue.Step(queue, Queue.PopStep);
        Record(w, s);
      }
    }

    /** `task.Run`. */
    method Execute(w: nat, task: Task)
      requires Running(w) && workers[w].Holding? && workers[w].task == Some(task)
      modifies this
      ensures Running(w) && workers[w] == old(Looping(workers[w].size, workers[w].i + 1, workers[w].executed + 1))
      ensures ran == old(ran) + [task] && old(linked) <= linked && taskCount >= old(taskCount)
    {
      hide Inv;
      Interfere(w);
      CanStep(View(), w);
      Record(w, View());
    }

    /** Drops out of the loop. */
    method Leave(w: nat)
      requires Running(w) && workers[w].Looping? && workers[w].i >= workers[w].size
      modifies this
      ensures Running(w) && workers[w] == old(Subtracting(workers[w].size, workers[w].executed))
      ensures ran == old(ran) && linked == old(linked) && taskCount == old(taskCount)
    {
      hide Inv;
      CanStep(View(), w);
      Record(w, View());
    }

    /** `_taskCount.fetch_sub`, then `OnRun`, which schedules the object exactly if tasks remain. */
    method Subtract(w: nat, executeCount: int) returns (ghost remain: int)
      requires Running(w) && workers[w].Subtracting? && workers[w].executed == executeCount
      modifies this
      ensures ran == old(ran) && old(linked) <= linked
      ensures remain <= |linked|
      ensures remain != TASKSERIALIZER_ERROR ==>
        && Valid() && w < |workers| && workers[w].Away? && ran <= linked
        && scheduled == if taskCount >= 1 then 1 else 0
    {
      hide Inv;
      Interfere(w);
      CanStep(View(), w);
      var s := View();
      taskCount := taskCount - executeCount;
      remain := taskCount;
      if HitsSentinel(s, WorkerStep(w)) {
        Become(StepWorker(s, w));
        return;
      }
      Record(w, s);
      if workers[w].Rescheduling? {
        Interfere(w);
        CanStep(View(), w);
        s := View();
        scheduled := scheduled + 1;
        Record(w, s);
      }
      OnlyScheduled(View(), w);
    }

    /**
     Executes exactly as many tasks as `_size` said, so at least as many as it said, or as were
     counted, when it was called: all tasks linked by then but as many as were linked and not yet
     sized. They are the next ones in link order. On leaving, the object is scheduled again exactly if
     `_taskCount` is still positive.
     */
    method Run(w: nat) returns (executeCount: int)
      requires Running(w) && workers[w].Starting?
      modifies this
      ensures executeCount >= 1 && executeCount >= old(taskCount) && executeCount >= old(queue.size)
      ensures |ran| >= old(|linked|) - old(Counting.SumBy(queue.pushers, Queue.Unsized))
      ensures |ran| == old(|ran|) + executeCount && old(ran) <= ran && old(linked) <= linked
      ensures |linked| < TASKSERIALIZER_ERROR ==>
        && Valid() && w < |workers| && workers[w].Away? && ran <= linked
        && scheduled == (if taskCount >= 1 then 1 else 0)
    {
      hide Inv;
      StartCounts(View(), w);
      executeCount := 0;
      var size := GetSize(w);
      var i := 0;
      while i < size
        invariant i == executeCount <= size && Running(w) && workers[w] == Looping(size, i, executeCount)
        invariant |ran| == old(|ran|) + executeCount && old(ran) <= ran && old(linked) <= linked
      {
        var task := Pop(w, size, i);
        if task.Some? {
          Execute(w, task.value);
          executeCount := executeCount + 1;
        } else {
          break;
        }
        i := i + 1;
      }
      Leave(w);
      ghost var remain := Subtract(w, executeCount);
    }

    // ---------------------------------------------------------------- posting

    /** What poster `t` has linked, in order. */
    ghost function LinkedHere(t: nat): seq<Task>
      reads this
      requires Valid()
    {
      QueueInv(View());
      QueueProofs.LinkedBy(linked, linkers, t)
    }

    /** Poster `t` exists, and has linked or is to link `due`, in this order. */
    ghost predicate Owes(t: nat, due: seq<Task>)
      reads this
    {
      && Valid() && t < |posters| && t < |queue.pushers| && |linkers| == |linked|
      && Due(View(), t) == due
    }

    /**
     As `Interfere`, seen by poster `t`. If a worker meets the error sentinel, which takes 2^60 linked
     tasks, `ok` is false and nothing more is claimed.
     */
    method InterfereWithPoster(t: nat, ghost due: seq<Task>) returns (ok: bool)
      requires Owes(t, due)
      modifies this
      ensures old(linked) <= linked && (!ok ==> |linked| >= TASKSERIALIZER_ERROR)
      ensures ok ==>
        && Owes(t, due) && |posters| == old(|posters|) && posters[t] == old(posters[t])
        && PushLeft(View(), t) + 16 * |others| <= old(PushLeft(View(), t) + 16 * |others|)
    {
      hide Inv, Enabled, Step, HitsSentinel, PushLeft, Due;
      var k: nat :| k <= |others|;
      while k > 0 && others != []
        invariant Owes(t, due) && |posters| == old(|posters|) && posters[t] == old(posters[t])
        invariant old(linked) <= linked
        invariant PushLeft(View(), t) + 16 * |others| <= old(PushLeft(View(), t) + 16 * |others|)
      {
        var a := others[0];
        others, k := others[1..], k - 1;
        var s := View();
        if !StepsPoster(a, t) && Enabled(s, a) {
          if HitsSentinel(s, a) {
            SentinelTakesManyTasks(s, a);
            Become(Step(s, a));
            return false;
          }
          OthersKeepPoster(s, a, t);
          Become(Step(s, a));
        }
      }
      return true;
    }

    /** `_que.Push`, one access after the other. */
    method PushTask(t: nat, task: Task, node: Ptr) returns (ok: bool)
      requires Valid() && t < |posters| && posters[t].Idle?
      requires Enabled(View(), Action.Post(t, task, node))
      modifies this
      ensures old(linked) <= linked && (!ok ==> |linked| >= TASKSERIALIZER_ERROR)
      ensures ok ==>
        && Owes(t, old(LinkedHere(t)) + [task])
        && |posters| == old(|posters|) && posters[t].Counting?
    {
      hide Inv, PushLeft, Due, QueueProofs.LinkedBy;
      QueueInv(View());
      ghost var due := QueueProofs.LinkedBy(linked, linkers, t) + [task];
      PostBegins(View(), t, task, node);
      Become(Step(View(), Action.Post(t, task, node)));
      while posters[t].Pushing?
        invariant Owes(t, due) && |posters| == old(|posters|) && (posters[t].Pushing? || posters[t].Counting?)
        invariant old(linked) <= linked
        decreases PushLeft(View(), t) + 16 * |others|
      {
        ok := InterfereWithPoster(t, due);
        if !ok { return; }
        OwnPush(View(), t);
        Become(Step(View(), PushStep(t)));
      }
      ok := true;
    }

    /**
     `Post`: link the task, count it, and schedule the object if the count came back as 1. The task
     is linked once by this call, after what this poster linked before; and the invariant that none
     is lost and no token doubled survives whatever happens in between, short of a worker that meets
     the error sentinel, for which 2^60 tasks must have been linked.
     */
    method Post(t: nat, task: Task, node: Ptr) returns (ok: bool)
      requires Valid() && t < |posters| && posters[t].Idle?
      requires Enabled(View(), Action.Post(t, task, node))
      modifies this
      ensures old(linked) <= linked && (!ok ==> |linked| >= TASKSERIALIZER_ERROR)
      ensures ok ==>
        && Valid() && |posters| == old(|posters|) && posters[t].Idle?
        && LinkedHere(t) == old(LinkedHere(t)) + [task]
    {
      hide Inv, PushLeft, QueueProofs.LinkedBy, Due;
      ghost var due := LinkedHere(t) + [task];
      ok := PushTask(t, task, node);
      if !ok { return; }
      ok := AddCount(t, due);
      if !ok { return; }
      if posters[t].Scheduling? {
        ok := Schedule(t, due);
        if !ok { return; }
      }
      NothingDue(View(), t);
    }

    /** `_taskCount.fetch_add`, and what `OnPost` decides. */
    method AddCount(t: nat, ghost due: seq<Task>) returns (ok: bool)
      requires Owes(t, due) && posters[t].Counting?
      modifies this
      ensures old(linked) <= linked && (!ok ==> |linked| >= TASKSERIALIZER_ERROR)
      ensures ok ==> Owes(t, due) && |posters| == old(|posters|) && posters[t] == OnPost(taskCount)
    {
      hide Inv, PushLeft, QueueProofs.LinkedBy;
      ok := InterfereWithPoster(t, due);
      if !ok { return; }
      StepInv(View(), Count(t));
      taskCount := taskCount + 1;
      posters := posters[t := OnPost(taskCount)];
    }

    /** `_context->Post`. */
    method Schedule(t: nat, ghost due: seq<Task>) returns (ok: bool)
      requires Owes(t, due) && posters[t].Scheduling?
      modifies this
      ensures old(linked) <= linked && (!ok ==> |linked| >= TASKSERIALIZER_ERROR)
      ensures ok ==> Owes(t, due) && |posters| == old(|posters|) && posters[t].Idle?
    {
      hide Inv, PushLeft, QueueProofs.LinkedBy;
      ok := InterfereWithPoster(t, due);
      if !ok { return; }
      StepInv(View(), Action.Schedule(t));
      scheduled := scheduled + 1;
      posters := posters[t := Idle];
    }
  }
}
