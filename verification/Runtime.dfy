/**
 The two halves together: objects with their tasks, and the context whose queues carry the objects
 from whoever schedules them to the workers that run them. A thread that calls `Context::Post` is from
 then on poster `p` of the context; that it may take other steps before that post is finished allows
 more than the code does.
 */
module Runtime {
  import Counting
  import C = ContextMachine
  import CP = ContextProofs
  import T = TaskSerializer
  import TP = TaskSerializerProofs

  /** Object `o` is `objects[o]`; worker `w` of the context is worker `w` of every object. */
  datatype State = State(context: C.State, objects: seq<T.State>)

  datatype Action =
    | Inner(o: nat, step: T.Action)              // a step of an object that leaves the context alone
    | Schedules(o: nat, step: T.Action, p: nat)  // `_context->Post`, begun by `p`
    | Outer(move: C.Action)                      // a step of the context that leaves the objects alone
    | Takes(w: nat)                              // a worker pops an object and starts to run it

  function Init(slots: nat, workers: nat, contextPosters: nat, objects: nat, posters: nat): State {
    State(C.Init(slots, workers, contextPosters), seq(objects, _ => T.Init(posters, workers)))
  }

  /** The step ends in `_context->Post`: that of a poster who counted 1, or of a run that left tasks. */
  predicate CallsContext(s: T.State, a: T.Action)
    requires T.Enabled(s, a)
  {
    a.Schedule? || (a.WorkerStep? && s.workers[a.w].Rescheduling?)
  }

  /** Worker `w` is not inside the run of an object. */
  predicate Free(s: State, w: nat) {
    forall o :: 0 <= o < |s.objects| && w < |s.objects[o].workers| ==> s.objects[o].workers[w].Away?
  }

  /** Worker `w` is about to pop an object from the queue it drains. */
  predicate Pops(c: C.State, w: nat) {
    && C.Enabled(c, C.WorkerStep(w)) && c.workers[w].Draining?
    && c.contents[c.workers[w].local] != []
  }

  function Popped(c: C.State, w: nat): nat
    requires Pops(c, w)
  {
    c.contents[c.workers[w].local][0]
  }

  predicate Enabled(s: State, a: Action) {
    match a
    case Inner(o, step) =>
      && o < |s.objects| && !step.Take? && T.Enabled(s.objects[o], step) && !CallsContext(s.objects[o], step)
    case Schedules(o, step, p) =>
      && o < |s.objects| && T.Enabled(s.objects[o], step) && CallsContext(s.objects[o], step)
      && C.Enabled(s.context, C.Post(p, o))
    case Outer(move) =>
      && C.Enabled(s.context, move) && !move.Post?
      && (move.WorkerStep? ==> Free(s, move.w) && !Pops(s.context, move.w))
    case Takes(w) =>
      && Pops(s.context, w) && Free(s, w)
      && Popped(s.context, w) < |s.objects| && T.Enabled(s.objects[Popped(s.context, w)], T.Take(w))
  }

  function Step(s: State, a: Action): State
    requires Enabled(s, a)
  {
    match a
    case Inner(o, step) => s.(objects := s.objects[o := T.Step(s.objects[o], step)])
    case Schedules(o, step, p) =>
      State(C.Step(s.context, C.Post(p, o)), s.objects[o := T.Step(s.objects[o], step)])
    case Outer(move) => s.(context := C.Step(s.context, move))
    case Takes(w) =>
      var o := Popped(s.context, w);
      State(C.Step(s.context, C.WorkerStep(w)), s.objects[o := T.Step(s.objects[o], T.Take(w))])
  }

  predicate Legal(s: State, actions: seq<Action>)
    decreases actions
  {
    actions == [] || (Enabled(s, actions[0]) && Legal(Step(s, actions[0]), actions[1..]))
  }

  function Exec(s: State, actions: seq<Action>): State
    requires Legal(s, actions)
    decreases actions
  {
    if actions == [] then s else Exec(Step(s, actions[0]), actions[1..])
  }

  // ---------------------------------------------------------------- invariant

  /** The objects on their way through the context: in a queue, or in the hands of a poster. */
  function Outstanding(c: C.State): multiset<nat> {
    C.Stored(c.contents) + C.Aimed(c.posters)
  }

  ghost predicate Inv(s: State) {
    && C.Inv(s.context)
    && (forall o :: 0 <= o < |s.objects| ==> ObjectOk(s, s.objects[o]))
    && Linked(Outstanding(s.context), s.objects)
  }

  ghost predicate ObjectOk(s: State, x: T.State) {
    T.Inv(x) && |x.workers| == |s.context.workers|
  }

  /** The context holds each object as often as the object's own protocol says it is scheduled. */
  ghost predicate Linked(outstanding: multiset<nat>, objects: seq<T.State>) {
    forall o: nat :: outstanding[o] == if o < |objects| then objects[o].scheduled else 0
  }

  lemma ObjectStep(s: T.State, a: T.Action)
    requires T.Enabled(s, a)
    ensures |T.Step(s, a).workers| == |s.workers| && s.linked <= T.Step(s, a).linked
    ensures a.Take? ==> T.Step(s, a).scheduled == s.scheduled - 1
    ensures !a.Take? ==> T.Step(s, a).scheduled == s.scheduled + (if CallsContext(s, a) then 1 else 0)
  {
    hide T.Queue.Step, T.Queue.EventOf, T.Queue.Enabled;
  }

  function Posted(a: C.Action): multiset<nat> {
    if a.Post? then multiset{a.obj} else multiset{}
  }

  function Ran(c: C.State, a: C.Action): multiset<nat>
    requires C.Enabled(c, a)
  {
    if a.WorkerStep? && Pops(c, a.w) then multiset{Popped(c, a.w)} else multiset{}
  }

  /** Posts and pops are the only steps of the context that change what is on its way through it. */
  lemma ContextStep(c: C.State, a: C.Action)
    requires C.Inv(c) && C.Enabled(c, a)
    ensures var r := C.Step(c, a);
      C.Inv(r) && |r.workers| == |c.workers| && Outstanding(r) + Ran(c, a) == Outstanding(c) + Posted(a)
  {
    hide C.Inv, C.OnePlaceEach, C.Stored, C.Aimed, C.Step, Ran, Posted;
    var r := C.Step(c, a);
    CP.StepInv(c, a);
    HistoryStep(c, a);
    Balance(c);
    Balance(r);
    Solve(c.posted, c.ran, Outstanding(c), Outstanding(r), Posted(a), Ran(c, a));
  }

  lemma Balance(c: C.State)
    requires C.Inv(c)
    ensures c.posted == c.ran + Outstanding(c)
  {
    assert c.posted == c.ran + C.Stored(c.contents) + C.Aimed(c.posters);
  }

  lemma HistoryStep(c: C.State, a: C.Action)
    requires C.Enabled(c, a)
    ensures var r := C.Step(c, a);
      |r.workers| == |c.workers| && r.posted == c.posted + Posted(a) && r.ran == c.ran + Ran(c, a)
  {
  }

  lemma Solve(posted: multiset<nat>, ran: multiset<nat>, before: multiset<nat>, after: multiset<nat>,
              came: multiset<nat>, went: multiset<nat>)
    requires posted == ran + before && posted + came == ran + went + after
    ensures after + went == before + came
  {
    forall o: nat ensures (after + went)[o] == (before + came)[o] {
      assert posted[o] == (ran + before)[o];
      assert (posted + came)[o] == (ran + went + after)[o];
    }
  }

  // ---------------------------------------------------------------- every step

  /** The object is handed the error sentinel. */
  predicate HitsSentinel(s: State, a: Action)
    requires Enabled(s, a)
  {
    a.Inner? && TP.HitsSentinel(s.objects[a.o], a.step)
  }

  /** Object `o` has moved to `x`, and the context to `c` with it. */
  lemma Rejoin(s: State, c: C.State, o: nat, x: T.State)
    requires Inv(s) && o < |s.objects|
    requires C.Inv(c) && |c.workers| == |s.context.workers| && T.Inv(x) && |x.workers| == |s.objects[o].workers|
    requires forall i: nat ::
      Outstanding(c)[i] == if i == o then x.scheduled else Outstanding(s.context)[i]
    ensures Inv(State(c, s.objects[o := x]))
  {
    hide C.Inv, T.Inv, Outstanding;
    assert ObjectOk(s, s.objects[o]);
    var r := State(c, s.objects[o := x]);
    forall i | 0 <= i < |r.objects| ensures ObjectOk(r, r.objects[i]) {
      assert i != o ==> ObjectOk(s, s.objects[i]);
    }
  }

  lemma OuterInv(s: State, move: C.Action)
    requires Inv(s) && Enabled(s, Outer(move))
    ensures Inv(Step(s, Outer(move)))
  {
    hide C.Inv, T.Inv, C.Step, C.Enabled, Outstanding, Linked;
    ContextStep(s.context, move);
    var r := Step(s, Outer(move));
    assert Outstanding(r.context) + multiset{} == Outstanding(r.context);
    assert Outstanding(s.context) + multiset{} == Outstanding(s.context);
    forall i | 0 <= i < |r.objects| ensures ObjectOk(r, r.objects[i]) {
      assert ObjectOk(s, s.objects[i]);
    }
  }

  lemma InnerInv(s: State, o: nat, step: T.Action)
    requires Inv(s) && Enabled(s, Inner(o, step)) && !HitsSentinel(s, Inner(o, step))
    ensures Inv(Step(s, Inner(o, step)))
  {
    hide C.Inv, T.Inv, T.Step, T.Enabled, TP.HitsSentinel, Outstanding, CallsContext;
    assert ObjectOk(s, s.objects[o]);
    TP.StepInv(s.objects[o], step);
    ObjectStep(s.objects[o], step);
    Rejoin(s, s.context, o, T.Step(s.objects[o], step));
  }

  lemma SchedulesInv(s: State, o: nat, step: T.Action, p: nat)
    requires Inv(s) && Enabled(s, Schedules(o, step, p))
    ensures Inv(Step(s, Schedules(o, step, p)))
  {
    hide C.Inv, T.Inv, C.Step, C.Enabled, T.Step, T.Enabled, Outstanding;
    assert ObjectOk(s, s.objects[o]);
    TP.StepInv(s.objects[o], step);
    ObjectStep(s.objects[o], step);
    var c, r := s.context, C.Step(s.context, C.Post(p, o));
    ContextStep(c, C.Post(p, o));
    forall i: nat ensures Outstanding(r)[i] == Outstanding(c)[i] + (if i == o then 1 else 0) {
      assert (Outstanding(r) + multiset{})[i] == (Outstanding(c) + multiset{o})[i];
    }
    Rejoin(s, r, o, T.Step(s.objects[o], step));
  }

  lemma TakesInv(s: State, w: nat)
    requires Inv(s) && Enabled(s, Takes(w))
    ensures Inv(Step(s, Takes(w)))
  {
    hide C.Inv, T.Inv, C.Step, T.Step, T.Enabled, Outstanding, Free;
    var o := Popped(s.context, w);
    assert ObjectOk(s, s.objects[o]);
    TP.StepInv(s.objects[o], T.Take(w));
    ObjectStep(s.objects[o], T.Take(w));
    var c, r := s.context, C.Step(s.context, C.WorkerStep(w));
    ContextStep(c, C.WorkerStep(w));
    forall i: nat ensures Outstanding(r)[i] + (if i == o then 1 else 0) == Outstanding(c)[i] {
      assert (Outstanding(r) + multiset{o})[i] == (Outstanding(c) + multiset{})[i];
    }
    Rejoin(s, r, o, T.Step(s.objects[o], T.Take(w)));
  }

  lemma StepInv(s: State, a: Action)
    requires Inv(s) && Enabled(s, a) && !HitsSentinel(s, a)
    ensures Inv(Step(s, a))
  {
    hide Inv, Enabled, Step, HitsSentinel;
    match a
    case Inner(o, step) => InnerInv(s, o, step);
    case Schedules(o, step, p) => SchedulesInv(s, o, step, p);
    case Outer(move) => OuterInv(s, move);
    case Takes(w) => TakesInv(s, w);
  }

  /**
   The halves fit: whenever a free worker pops anything, it is an object, and that object is ready to
   be taken.
   */
  lemma PoppedObjectIsReady(s: State, w: nat)
    requires Inv(s) && Pops(s.context, w) && Free(s, w)
    ensures Enabled(s, Takes(w))
  {
    hide C.Inv, T.Inv, C.Step, C.Aimed;
    var o := Popped(s.context, w);
    StoredHas(s.context.contents, s.context.workers[w].local);
    assert Outstanding(s.context)[o] >= 1;
    assert o < |s.objects| && s.objects[o].scheduled >= 1;
    assert ObjectOk(s, s.objects[o]);
  }

  lemma {:induction false} StoredHas(contents: seq<seq<nat>>, q: nat)
    requires q < |contents| && contents[q] != []
    ensures C.Stored(contents)[contents[q][0]] >= 1
  {
    if q == 0 {
      assert contents[0][0] in multiset(contents[0]);
    } else {
      StoredHas(contents[1..], q - 1);
    }
  }

  lemma {:induction false} NothingStoredNorAimed(n: nat, posters: nat)
    ensures C.Stored(seq(n, _ => [])) == multiset{} && C.Aimed(seq(posters, _ => C.Idle)) == multiset{}
  {
    CP.NothingStored(n);
    CP.NothingAimed(posters);
  }

  lemma InitInv(slots: nat, workers: nat, contextPosters: nat, objects: nat, posters: nat)
    requires slots > 0
    ensures Inv(Init(slots, workers, contextPosters, objects, posters))
  {
    hide C.Inv, T.Inv, C.Stored, C.Aimed;
    CP.InitInv(slots, workers, contextPosters);
    TP.InitInv(posters, workers);
    NothingStoredNorAimed(2 * slots, contextPosters);
  }

  lemma {:induction false} LinkedGrows(s: State, actions: seq<Action>, o: nat)
    requires Legal(s, actions) && o < |s.objects|
    ensures |Exec(s, actions).objects| == |s.objects| && s.objects[o].linked <= Exec(s, actions).objects[o].linked
    decreases actions
  {
    hide T.Step, T.Enabled, C.Step, C.Enabled;
    if actions != [] {
      var a := actions[0];
      if a.Inner? || a.Schedules? { ObjectStep(s.objects[a.o], a.step); }
      if a.Takes? { ObjectStep(s.objects[Popped(s.context, a.w)], T.Take(a.w)); }
      assert s.objects[o].linked <= Step(s, a).objects[o].linked;
      LinkedGrows(Step(s, a), actions[1..], o);
    }
  }

  /** No object has more tasks linked than the sentinel. */
  predicate FewTasks(s: State) {
    forall o :: 0 <= o < |s.objects| ==> |s.objects[o].linked| < T.TASKSERIALIZER_ERROR
  }

  lemma NoSentinel(s: State, actions: seq<Action>)
    requires Inv(s) && Legal(s, actions) && actions != [] && FewTasks(Exec(s, actions))
    ensures !HitsSentinel(s, actions[0])
  {
    hide T.Inv, C.Inv, T.Step, C.Step, C.Enabled, Outstanding, Linked, Step;
    var a := actions[0];
    if a.Inner? {
      LinkedGrows(s, actions, a.o);
      assert ObjectOk(s, s.objects[a.o]);
      if TP.HitsSentinel(s.objects[a.o], a.step) { TP.RemainderIsBounded(s.objects[a.o], a.step.w); }
    }
  }

  lemma {:induction false} RunInv(s: State, actions: seq<Action>)
    requires Inv(s) && Legal(s, actions) && FewTasks(Exec(s, actions))
    ensures Inv(Exec(s, actions))
    decreases actions
  {
    hide Inv, Enabled, Step, HitsSentinel, FewTasks;
    if actions != [] {
      NoSentinel(s, actions);
      StepInv(s, actions[0]);
      RunInv(Step(s, actions[0]), actions[1..]);
    }
  }

  // ---------------------------------------------------------------- the promise

  /** Threads that are scheduling the object or running it. */
  function InHands(x: T.State): nat {
    Counting.SumBy(x.posters, T.ToSchedule) + Counting.SumBy(x.workers, T.Busy)
  }

  /** What the runtime owes an object. */
  ghost predicate Served(s: State, o: nat)
    requires o < |s.objects|
  {
    var x := s.objects[o];
    // on its way through the context, about to be, or running: in one place, exactly while it has tasks
    && Outstanding(s.context)[o] + InHands(x) == (if x.taskCount >= 1 then 1 else 0)
    // one thread at a time, and tasks in order
    && (forall v, w :: 0 <= v < w < |x.workers| ==> x.workers[v].Away? || x.workers[w].Away?)
    && x.ran <= x.linked
    // with tasks and in nobody's hands, it waits in a queue that is still going round
    && (x.taskCount >= 1 && InHands(x) == 0 && C.Aimed(s.context.posters)[o] == 0 ==> Waits(s.context, o))
    // at rest, everything posted to it has run, once
    && (Outstanding(s.context)[o] + InHands(x) == 0 && TP.NoPostInFlight(x) ==> multiset(x.ran) == x.posted)
  }

  /** The object is in a queue, and that queue is in a slot, in the wait queue or in a worker's hands. */
  ghost predicate Waits(c: C.State, o: nat) {
    exists q :: 0 <= q < |c.contents| && o in c.contents[q] && C.Places(c, q) == 1
  }

  lemma {:induction false} StoredSomewhere(contents: seq<seq<nat>>, o: nat) returns (q: nat)
    requires C.Stored(contents)[o] >= 1
    ensures q < |contents| && o in contents[q]
  {
    if o in contents[0] {
      q := 0;
    } else {
      assert multiset(contents[0])[o] == 0;
      q := StoredSomewhere(contents[1..], o);
      q := q + 1;
    }
  }

  lemma ObjectIsServed(s: State, o: nat)
    requires Inv(s) && o < |s.objects|
    ensures Served(s, o)
  {
    hide C.Stored, C.Aimed, T.QueueOk, T.CountOk, T.HistoryOk, T.WorkerOk, T.PostedOk;
    var x := s.objects[o];
    assert ObjectOk(s, x);
    assert Outstanding(s.context)[o] == x.scheduled;
    TP.EveryTaskIsAccountedFor(x);
    forall w | 0 <= w < |x.workers| && !x.workers[w].Away?
      ensures forall v :: 0 <= v < |x.workers| && v != w ==> x.workers[v].Away?
    {
      TP.Alone(x, w);
    }
    if x.taskCount >= 1 && InHands(x) == 0 && C.Aimed(s.context.posters)[o] == 0 {
      var q := StoredSomewhere(s.context.contents, o);
      assert C.InRange(s.context, q) && C.Places(s.context, q) == 1;
    }
  }

  /**
   The runtime as a whole. With any number of objects, posters, workers and queues, in every
   interleaving: each object is scheduled, or being scheduled, or running in exactly one place while
   it has counted tasks and in none otherwise; an object with tasks that nobody is handling waits in
   a queue that is still in circulation; and at rest everything posted has run, once and in order.
   */
  lemma EveryObjectIsServed(slots: nat, workers: nat, contextPosters: nat, objects: nat, posters: nat,
                            actions: seq<Action>, s: State)
    requires slots > 0 && Legal(Init(slots, workers, contextPosters, objects, posters), actions)
    requires s == Exec(Init(slots, workers, contextPosters, objects, posters), actions) && FewTasks(s)
    ensures forall o :: 0 <= o < |s.objects| ==> Served(s, o)
  {
    hide Inv, Served, FewTasks, Init;
    InitInv(slots, workers, contextPosters, objects, posters);
    RunInv(Init(slots, workers, contextPosters, objects, posters), actions);
    forall o | 0 <= o < |s.objects| ensures Served(s, o) {
      ObjectIsServed(s, o);
    }
  }
}
