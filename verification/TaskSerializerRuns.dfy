/**
 Runs that show what can happen. The count goes below zero; a run leaves a task whose push had
 returned before it began; and a run leaves exactly 2^60 tasks, after which the object is forgotten.
 */
module TaskSerializerRuns {
  import opened TaggedPointers
  import Counting
  import Queue = LockFreeQueue
  import opened TaskSerializer
  import opened TaskSerializerProofs
  import opened TaskSerializerObject

  ghost predicate Reaches(s: State, r: State) {
    exists actions :: Legal(s, actions) && Exec(s, actions) == r
  }

  lemma Stays(s: State)
    ensures Reaches(s, s)
  {
    assert Legal(s, []) && Exec(s, []) == s;
  }

  lemma OneMore(s: State, m: State, a: Action)
    requires Reaches(s, m) && Enabled(m, a)
    ensures Reaches(s, Step(m, a))
  {
    var actions :| Legal(s, actions) && Exec(s, actions) == m;
    ExecAppend(s, actions, a);
  }

  lemma {:induction false} ExecAppend(s: State, actions: seq<Action>, a: Action)
    requires Legal(s, actions) && Enabled(Exec(s, actions), a)
    ensures Legal(s, actions + [a]) && Exec(s, actions + [a]) == Step(Exec(s, actions), a)
    decreases actions
  {
    hide Step, Enabled;
    if actions == [] {
      assert Legal(Step(s, a), []);
      assert ([] + [a])[1..] == [];
    } else {
      assert (actions + [a])[1..] == actions[1..] + [a];
      ExecAppend(Step(s, actions[0]), actions[1..], a);
    }
  }

  // ---------------------------------------------------------------- one poster, undisturbed

  /** The tail is not lagging. */
  predicate Calm(q: Queue.State<Task>) {
    q.tail.ptr in q.heap && q.heap[q.tail.ptr].next == NULL_HANDLE
  }

  lemma FreshNode(s: State, t: nat) returns (node: Ptr)
    requires Inv(s) && t < |s.posters| && s.posters[t].Idle?
    ensures node !in s.queue.heap && forall task :: Enabled(s, Post(t, task, node))
    ensures t < |s.queue.pushers| && |s.linkers| == |s.linked|
  {
    var bound := SystemHasMemory(s.queue.heap.Keys);
    node := bound + 1;
    assert node !in s.queue.heap.Keys;
    forall u | 0 <= u < |s.queue.pushers| ensures !s.queue.pushers[u].Owns(node) && !s.queue.pushers[u].Holds(node) {
      assert Queue.PusherOk(s.queue, s.queue.pushers[u]);
    }
  }

  /** Poster `t`'s push up to the moment before it counts in `_size`: the task is linked. */
  lemma PushAlmost(s: State, t: nat, task: Task) returns (r: State)
    requires Inv(s) && Calm(s.queue) && t < |s.posters| && s.posters[t].Idle?
    ensures Reaches(s, r) && Inv(r) && Calm(r.queue) && t < |s.queue.pushers|
    ensures r.posters == s.posters[t := Pushing] && r.queue.pushers == s.queue.pushers[t := Queue.AddSize]
    ensures r.queue.size == s.queue.size && r.queue.popper == s.queue.popper
    ensures r.taskCount == s.taskCount && r.workers == s.workers && r.scheduled == s.scheduled
    ensures r.linked == s.linked + [task] && r.linkers == s.linkers + [t] && r.ran == s.ran
  {
    hide Inv, Legal, Exec;
    var node := FreshNode(s, t);
    var p := PushStep(t);
    var s1 := Step(s, Post(t, task, node));
    var tail, pushers := s.queue.tail, s.queue.pushers;
    assert s1.queue.pushers == pushers[t := Queue.LoadTail(node, task)];
    var s2 := Step(s1, p);
    assert s2.queue.pushers == pushers[t := Queue.LoadNext(node, task, tail)];
    var s3 := Step(s2, p);
    assert s3.queue.pushers == pushers[t := Queue.CheckTail(node, task, tail, NULL_HANDLE)];
    var s4 := Step(s3, p);
    assert s4.queue.pushers == pushers[t := Queue.LinkNext(node, task, tail)];
    var s5 := Step(s4, p);
    assert s5.queue.pushers == pushers[t := Queue.SwingTail(node, tail)];
    r := Step(s5, p);
    assert r.queue.pushers == pushers[t := Queue.AddSize];
    Stays(s);
    StepInv(s, Post(t, task, node)); OneMore(s, s, Post(t, task, node));
    StepInv(s1, p); OneMore(s, s1, p);
    StepInv(s2, p); OneMore(s, s2, p);
    StepInv(s3, p); OneMore(s, s3, p);
    StepInv(s4, p); OneMore(s, s4, p);
    StepInv(s5, p); OneMore(s, s5, p);
  }

  /** The rest of it; the poster is about to count its task. */
  lemma PushReturns(s: State, t: nat) returns (r: State)
    requires Inv(s) && t < |s.posters| && s.posters[t].Pushing?
    requires t < |s.queue.pushers| && s.queue.pushers[t].AddSize?
    ensures Reaches(s, r) && Inv(r) && (Calm(s.queue) ==> Calm(r.queue))
    ensures r.posters == s.posters[t := Counting] && r.queue.pushers == s.queue.pushers[t := Queue.Idle]
    ensures r.queue.size == s.queue.size + 1 && r.queue.popper == s.queue.popper
    ensures r.taskCount == s.taskCount && r.workers == s.workers && r.scheduled == s.scheduled
    ensures r.linked == s.linked && r.linkers == s.linkers && r.ran == s.ran
  {
    hide Inv, Legal, Exec;
    r := Step(s, PushStep(t));
    Stays(s);
    StepInv(s, PushStep(t));
    OneMore(s, s, PushStep(t));
  }

  /** A task is pushed by poster `t`, who is about to count it. */
  lemma PushWhole(s: State, t: nat, task: Task) returns (r: State)
    requires Inv(s) && Calm(s.queue) && t < |s.posters| && s.posters[t].Idle?
    ensures Reaches(s, r) && Inv(r) && Calm(r.queue) && t < |s.queue.pushers|
    ensures r.posters == s.posters[t := Counting] && r.queue.pushers == s.queue.pushers[t := Queue.Idle]
    ensures r.queue.size == s.queue.size + 1 && r.queue.popper == s.queue.popper
    ensures r.taskCount == s.taskCount && r.workers == s.workers && r.scheduled == s.scheduled
    ensures r.linked == s.linked + [task] && r.linkers == s.linkers + [t] && r.ran == s.ran
  {
    hide Inv, Legal, Exec, Reaches, Calm;
    var m := PushAlmost(s, t, task);
    r := PushReturns(m, t);
    assert r.posters == s.posters[t := Counting];
    Onwards(s, m, r);
  }

  lemma Onwards(s: State, m: State, r: State)
    requires Reaches(s, m) && Reaches(m, r)
    ensures Reaches(s, r)
  {
    var first :| Legal(s, first) && Exec(s, first) == m;
    var second :| Legal(m, second) && Exec(m, second) == r;
    ExecJoin(s, first, second);
  }

  lemma {:induction false} ExecJoin(s: State, first: seq<Action>, second: seq<Action>)
    requires Legal(s, first) && Legal(Exec(s, first), second)
    ensures Legal(s, first + second) && Exec(s, first + second) == Exec(Exec(s, first), second)
    decreases first
  {
    hide Step, Enabled;
    if first == [] {
      assert first + second == second;
    } else {
      assert (first + second)[1..] == first[1..] + second;
      ExecJoin(Step(s, first[0]), first[1..], second);
    }
  }

  /** One whole post to an object that has counted tasks: nobody is scheduled. */
  lemma PostRound(s: State, task: Task) returns (r: State)
    requires Inv(s) && Calm(s.queue) && s.posters == [Idle] && s.taskCount >= 1
    ensures Reaches(s, r) && Inv(r) && Calm(r.queue) && r.posters == [Idle] && r.taskCount == s.taskCount + 1
    ensures r.queue.popper == s.queue.popper && r.workers == s.workers && r.scheduled == s.scheduled
  {
    hide Inv, Legal, Exec, Reaches;
    var m := PushWhole(s, 0, task);
    StepInv(m, Count(0));
    r := Step(m, Count(0));
    assert r.posters == [Idle];
    OneMore(s, m, Count(0));
  }

  lemma {:induction false} ManyPosts(s: State, n: nat) returns (r: State)
    requires Inv(s) && Calm(s.queue) && s.posters == [Idle] && s.taskCount >= 1
    ensures Reaches(s, r) && Inv(r) && Calm(r.queue) && r.posters == [Idle] && r.taskCount == s.taskCount + n
    ensures r.queue.popper == s.queue.popper && r.workers == s.workers && r.scheduled == s.scheduled
    decreases n
  {
    hide Inv, Legal, Exec, Reaches, Calm;
    if n == 0 {
      Stays(s);
      r := s;
    } else {
      var m := ManyPosts(s, n - 1);
      r := PostRound(m, 0);
      Onwards(s, m, r);
    }
  }

  // ---------------------------------------------------------------- one worker, undisturbed

  /** Left alone, a worker in its loop gets to the subtraction. */
  lemma {:induction false} RunsToSubtract(s: State) returns (r: State)
    requires Inv(s) && |s.workers| == 1 && s.workers[0].Drains()
    ensures Reaches(s, r) && Inv(r) && |r.workers| == 1 && r.workers[0].Subtracting?
    ensures r.taskCount == s.taskCount && SnapshotOf(r.workers[0]) == SnapshotOf(s.workers[0])
    ensures r.posters == s.posters && r.linked == s.linked
    ensures |r.ran| - r.workers[0].executed == |s.ran| - Executed(s.workers[0])
    decreases RunMeasure(s, s.workers[0])
  {
    hide Inv, Legal, Exec, Reaches, Queue.Step, Queue.Enabled;
    if s.workers[0].Subtracting? {
      Stays(s);
      r := s;
    } else {
      CanStep(s, 0);
      var m := Step(s, WorkerStep(0));
      RunIsWaitFree(s, WorkerStep(0), 0);
      StepInv(s, WorkerStep(0));
      Stays(s);
      OneMore(s, s, WorkerStep(0));
      StepOfRun(s, WorkerStep(0), 0);
      r := RunsToSubtract(m);
      Onwards(s, m, r);
    }
  }

  // ---------------------------------------------------------------- the run

  /** The first task is posted by poster `t` and scheduled, and the worker has taken the object. */
  lemma FirstTaskIsTaken(s: State, t: nat, task: Task) returns (r: State)
    requires Inv(s) && Calm(s.queue) && t < |s.posters| && s.posters[t].Idle?
    requires s.taskCount == 0 && s.scheduled == 0 && s.workers == [Away]
    ensures Reaches(s, r) && Inv(r) && Calm(r.queue) && t < |s.queue.pushers|
    ensures r.posters == s.posters && r.queue.pushers == s.queue.pushers[t := Queue.Idle]
    ensures r.taskCount == 1 && r.workers == [Starting] && r.queue.size == s.queue.size + 1
    ensures r.linked == s.linked + [task] && r.linkers == s.linkers + [t] && r.ran == s.ran
  {
    hide Inv, Legal, Exec, Reaches;
    var s1 := PushWhole(s, t, task);
    var s2 := Step(s1, Count(t));
    assert s2.posters == s.posters[t := Scheduling];
    var s3 := Step(s2, Schedule(t));
    assert s3.posters == s.posters;
    r := Step(s3, Take(0));
    assert r.workers == [Starting];
    StepInv(s1, Count(t)); OneMore(s, s1, Count(t));
    StepInv(s2, Schedule(t)); OneMore(s, s2, Schedule(t));
    StepInv(s3, Take(0)); OneMore(s, s3, Take(0));
  }

  lemma InitIsCalm(posters: nat)
    ensures var s := Init(posters, 1);
      && Inv(s) && Calm(s.queue) && s.taskCount == 0 && s.scheduled == 0 && s.workers == [Away]
      && s.queue.size == 0 && s.linked == [] && s.linkers == [] && s.ran == []
      && |s.posters| == |s.queue.pushers| == posters
      && forall t :: 0 <= t < posters ==> s.posters[t].Idle? && s.queue.pushers[t].Idle?
  {
    InitInv(posters, 1);
  }

  /** The worker has read `_size == 1`. */
  lemma FirstRunBegins() returns (r: State)
    ensures Reaches(Init(1, 1), r) && Inv(r) && Calm(r.queue) && r.posters == [Idle]
    ensures r.taskCount == 1 && r.workers == [Looping(1, 0, 0)]
  {
    hide Inv, Legal, Exec, Reaches;
    InitIsCalm(1);
    var m := FirstTaskIsTaken(Init(1, 1), 0, 0);
    r := Step(m, WorkerStep(0));
    StepInv(m, WorkerStep(0));
    OneMore(Init(1, 1), m, WorkerStep(0));
  }

  /**
   The count goes below zero: a run executes a task that is pushed and not yet counted, and subtracts
   it first. Nothing is lost by it, and nobody is scheduled.
   */
  lemma CountGoesNegative() returns (s: State)
    ensures Reaches(Init(1, 1), s) && Inv(s) && s.taskCount == -1 && Tokens(s) == 0
    ensures s.posters == [Counting] && |s.ran| == 2
  {
    hide Inv, Legal, Exec, Reaches, Tokens;
    InitIsCalm(1);
    var s0 := Init(1, 1);
    var s1 := FirstTaskIsTaken(s0, 0, 0);
    assert s1.posters == [Idle];
    var s2 := PushWhole(s1, 0, 1);
    Onwards(s0, s1, s2);
    var s3 := Step(s2, WorkerStep(0));
    StepInv(s2, WorkerStep(0));
    OneMore(s0, s2, WorkerStep(0));
    assert s3.workers == [Looping(2, 0, 0)];
    var s4 := RunsToSubtract(s3);
    Onwards(s0, s3, s4);
    RunDrains(s4);
    CanStep(s4, 0);
    s := Step(s4, WorkerStep(0));
    StepInv(s4, WorkerStep(0));
    OneMore(s0, s4, WorkerStep(0));
    NegativeMeansNoToken(s);
  }

  lemma NegativeMeansNoToken(s: State)
    requires Inv(s) && s.taskCount < 1
    ensures Tokens(s) == 0
  {
  }

  /** While one task runs, 2^60 others are posted: the remainder handed to `OnRun` is the sentinel. */
  lemma SentinelIsReached() returns (s: State)
    ensures Reaches(Init(1, 1), s) && Inv(s)
    ensures Enabled(s, WorkerStep(0)) && HitsSentinel(s, WorkerStep(0))
    ensures Tokens(Step(s, WorkerStep(0))) == 0 && Step(s, WorkerStep(0)).taskCount == TASKSERIALIZER_ERROR
    ensures Forgotten(Step(s, WorkerStep(0)))
  {
    hide Inv, Legal, Exec, Reaches;
    var first := FirstRunBegins();
    var posted := ManyPosts(first, TASKSERIALIZER_ERROR);
    Onwards(Init(1, 1), first, posted);
    s := RunsToSubtract(posted);
    Onwards(Init(1, 1), posted, s);
    CanStep(s, 0);
    RunDrains(s);
    TokenIsGone(s);
  }

  lemma RunDrains(s: State)
    requires Inv(s) && |s.workers| == 1 && s.workers[0].Subtracting?
    ensures s.workers[0].executed == SnapshotOf(s.workers[0])
  {
    assert WorkerOk(s, s.workers[0]);
  }

  lemma TokenIsGone(s: State)
    requires Inv(s) && Enabled(s, WorkerStep(0)) && HitsSentinel(s, WorkerStep(0))
    requires |s.workers| == 1 && s.posters == [Idle]
    ensures Tokens(Step(s, WorkerStep(0))) == 0 && Forgotten(Step(s, WorkerStep(0)))
  {
    Alone(s, 0);
    Counting.SumZero(Step(s, WorkerStep(0)).workers, Busy);
  }

  // ---------------------------------------------------------------- and what follows

  /** Tasks are counted and nobody runs, or is about to schedule, the object. */
  predicate Forgotten(s: State) {
    && s.taskCount >= 1 && s.scheduled == 0
    && (forall w :: 0 <= w < |s.workers| ==> s.workers[w].Away?)
    && (forall t :: 0 <= t < |s.posters| ==> !s.posters[t].Scheduling?)
  }

  /** A forgotten object stays forgotten, whatever is posted to it: not one more task runs. */
  lemma {:induction false} ForgottenForGood(s: State, actions: seq<Action>)
    requires Forgotten(s) && Legal(s, actions)
    ensures Forgotten(Exec(s, actions)) && Exec(s, actions).ran == s.ran
    decreases actions
  {
    hide Queue.Step, Queue.Enabled, Queue.EventOf;
    if actions != [] {
      ForgottenForGood(Step(s, actions[0]), actions[1..]);
    }
  }
}
