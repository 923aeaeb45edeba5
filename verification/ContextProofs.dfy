/** Queues are never duplicated or lost, and neither are scheduled objects. */
module ContextProofs {
  import opened Counting
  import opened Sequences
  import opened ContextMachine

  function One(b: bool): nat { if b then 1 else 0 }

  lemma {:induction false} HandsUpdate(ws: seq<Worker>, w: nat, x: Worker, q: QueueId)
    requires w < |ws|
    ensures Hands(ws[w := x], q) + One(ws[w].Holds(q)) == Hands(ws, q) + One(x.Holds(q))
  {
    if w == 0 {
      assert ws[w := x][1..] == ws[1..];
    } else {
      assert ws[w := x][1..] == ws[1..][w - 1 := x];
      HandsUpdate(ws[1..], w - 1, x, q);
    }
  }

  lemma {:induction false} HandsAtLeast(ws: seq<Worker>, v: nat, w: nat, q: QueueId)
    requires v <= w < |ws| && ws[v].Holds(q) && ws[w].Holds(q)
    ensures Hands(ws, q) >= if v == w then 1 else 2
  {
    if v > 0 {
      HandsAtLeast(ws[1..], v - 1, w - 1, q);
    } else if w > 0 {
      HandsAtLeast(ws[1..], w - 1, w - 1, q);
    }
  }

  lemma {:induction false} NoHands(ws: seq<Worker>, q: QueueId)
    requires forall w :: 0 <= w < |ws| ==> !ws[w].Holds(q)
    ensures Hands(ws, q) == 0
  {
    if ws != [] {
      NoHands(ws[1..], q);
    }
  }

  lemma {:induction false} StoredUpdate(contents: seq<seq<Obj>>, q: nat, x: seq<Obj>)
    requires q < |contents|
    ensures Stored(contents[q := x]) + multiset(contents[q]) == Stored(contents) + multiset(x)
  {
    if q == 0 {
      assert contents[q := x][1..] == contents[1..];
    } else {
      assert contents[q := x][1..] == contents[1..][q - 1 := x];
      StoredUpdate(contents[1..], q - 1, x);
      Regroup(multiset(contents[0]), Stored(contents[1..][q - 1 := x]), multiset(contents[q]));
      Regroup(multiset(contents[0]), Stored(contents[1..]), multiset(x));
    }
  }

  lemma {:induction false} StoredAppend(contents: seq<seq<Obj>>)
    ensures Stored(contents + [[]]) == Stored(contents)
  {
    if contents == [] {
      assert contents + [[]] == [[]];
      assert Stored([[]][1..]) == multiset{};
    } else {
      assert (contents + [[]])[1..] == contents[1..] + [[]];
      StoredAppend(contents[1..]);
    }
  }

  lemma {:induction false} AimedUpdate(posters: seq<Poster>, p: nat, x: Poster)
    requires p < |posters|
    ensures Aimed(posters[p := x]) + InHand(posters[p]) == Aimed(posters) + InHand(x)
  {
    if p == 0 {
      assert posters[p := x][1..] == posters[1..];
    } else {
      assert posters[p := x][1..] == posters[1..][p - 1 := x];
      AimedUpdate(posters[1..], p - 1, x);
      Regroup(InHand(posters[0]), Aimed(posters[1..][p - 1 := x]), InHand(posters[p]));
      Regroup(InHand(posters[0]), Aimed(posters[1..]), InHand(x));
    }
  }

  lemma {:induction false} NothingStored(n: nat)
    ensures Stored(seq(n, _ => [])) == multiset{}
  {
    if n > 0 {
      assert seq<seq<Obj>>(n, _ => [])[1..] == seq<seq<Obj>>(n - 1, _ => []);
      NothingStored(n - 1);
    }
  }

  lemma {:induction false} NothingAimed(n: nat)
    ensures Aimed(seq(n, _ => Idle)) == multiset{}
  {
    if n > 0 {
      assert seq<Poster>(n, _ => Idle)[1..] == seq<Poster>(n - 1, _ => Idle);
      NothingAimed(n - 1);
    }
  }

  lemma CountUpdate(slots: seq<QueueId>, slot: nat, x: QueueId, q: QueueId)
    requires slot < |slots|
    ensures multiset(slots[slot := x])[q] + One(slots[slot] == q) == multiset(slots)[q] + One(x == q)
  {
    assert slots == slots[..slot] + [slots[slot]] + slots[slot + 1..];
    assert slots[slot := x] == slots[..slot] + [x] + slots[slot + 1..];
  }

  lemma CountFront(queues: seq<QueueId>, q: QueueId)
    requires queues != []
    ensures multiset(queues)[q] == One(queues[0] == q) + multiset(queues[1..])[q]
  {
    assert queues == [queues[0]] + queues[1..];
  }

  // ---------------------------------------------------------------- preservation

  lemma InitInv(n: nat, workers: nat, posters: nat)
    requires n > 0
    ensures Inv(Init(n, workers, posters))
  {
    hide OnePlaceEach, Stored, Aimed;
    var s := Init(n, workers, posters);
    InitPlaces(n, workers, posters);
    SumZero(s.workers, EmptyHanded);
    NothingStored(2 * n);
    NothingAimed(posters);
  }

  lemma InitPlaces(n: nat, workers: nat, posters: nat)
    requires n > 0
    ensures OnePlaceEach(Init(n, workers, posters))
  {
    hide Hands;
    var s := Init(n, workers, posters);
    forall q: QueueId ensures Places(s, q) == if InRange(s, q) then 1 else 0 {
      DistinctCount(s.slots, q);
      DistinctCount(s.waitQueue, q);
      NoHands(s.workers, q);
      if q < 2 * n {
        if q % 2 == 0 { assert s.slots[q / 2] == q; } else { assert s.waitQueue[q / 2] == q; }
      }
    }
  }

  /** Worker `w` alone has queue `q`, and no poster or worker can find it in a slot or in the wait queue. */
  ghost predicate Exclusive(s: State, w: nat, q: QueueId) {
    && q !in s.slots && q !in s.waitQueue
    && (forall v :: 0 <= v < |s.workers| && v != w ==> !s.workers[v].Holds(q))
  }

  /** A queue in a worker's hands is nowhere else, and no other worker has it. */
  lemma HeldIsExclusive(s: State, w: nat, q: QueueId)
    requires OnePlaceEach(s) && w < |s.workers| && s.workers[w].Holds(q)
    ensures InRange(s, q) && Exclusive(s, w, q)
  {
    HandsAtLeast(s.workers, w, w, q);
    assert Places(s, q) >= 1;
    forall v | 0 <= v < |s.workers| && v != w ensures !s.workers[v].Holds(q) {
      if s.workers[v].Holds(q) {
        HandsAtLeast(s.workers, if v < w then v else w, if v < w then w else v, q);
      }
    }
  }

  lemma PlacesKept(s: State, w: nat, x: Worker)
    requires OnePlaceEach(s) && w < |s.workers|
    requires forall q: QueueId :: s.workers[w].Holds(q) <==> x.Holds(q)
    ensures forall q: QueueId :: Hands(s.workers[w := x], q) == Hands(s.workers, q)
  {
    forall q: QueueId ensures Hands(s.workers[w := x], q) == Hands(s.workers, q) {
      HandsUpdate(s.workers, w, x, q);
    }
  }

  lemma StartInv(s: State, w: nat)
    requires Inv(s) && Enabled(s, Start(w))
    ensures Inv(Step(s, Start(w)))
  {
    var r := Step(s, Start(w));
    SumUpdate(s.workers, w, r.workers[w], EmptyHanded);
    StoredAppend(s.contents);
    forall q: QueueId ensures Places(r, q) == if InRange(r, q) then 1 else 0 {
      assert Places(s, q) == if InRange(s, q) then 1 else 0;
      HandsUpdate(s.workers, w, r.workers[w], q);
    }
  }

  lemma SwapInv(s: State, w: nat)
    requires Inv(s) && Enabled(s, WorkerStep(w)) && s.workers[w].Swapping?
    requires s.slots[s.workers[w].slot] == s.workers[w].expected
    ensures Inv(Step(s, WorkerStep(w)))
  {
    hide Stored, Aimed;
    var r := Step(s, WorkerStep(w));
    var Swapping(local, slot, taken) := s.workers[w];
    SumUpdate(s.workers, w, r.workers[w], EmptyHanded);
    forall q: QueueId ensures Places(r, q) == if InRange(r, q) then 1 else 0 {
      assert Places(s, q) == if InRange(s, q) then 1 else 0;
      CountUpdate(s.slots, slot, local, q);
      HandsUpdate(s.workers, w, r.workers[w], q);
    }
  }

  lemma PushWaitInv(s: State, w: nat)
    requires Inv(s) && Enabled(s, WorkerStep(w)) && s.workers[w].Swapped?
    ensures Inv(Step(s, WorkerStep(w)))
  {
    hide Stored, Aimed;
    var r := Step(s, WorkerStep(w));
    SumUpdate(s.workers, w, r.workers[w], EmptyHanded);
    forall q: QueueId ensures Places(r, q) == if InRange(r, q) then 1 else 0 {
      assert Places(s, q) == if InRange(s, q) then 1 else 0;
      HandsUpdate(s.workers, w, r.workers[w], q);
    }
  }

  /** `_waitQue.Pop` in `Run` always finds a queue. */
  lemma WaitQueueServes(s: State, w: nat)
    requires Inv(s) && w < |s.workers| && s.workers[w].Waiting?
    ensures |s.waitQueue| > |s.slots|
  {
    SumAtLeast(s.workers, w, EmptyHanded);
  }

  lemma PopWaitInv(s: State, w: nat)
    requires Inv(s) && Enabled(s, WorkerStep(w)) && s.workers[w].Waiting?
    ensures Inv(Step(s, WorkerStep(w)))
  {
    hide Stored, Aimed;
    var r := Step(s, WorkerStep(w));
    WaitQueueServes(s, w);
    SumUpdate(s.workers, w, r.workers[w], EmptyHanded);
    forall q: QueueId ensures Places(r, q) == if InRange(r, q) then 1 else 0 {
      assert Places(s, q) == if InRange(s, q) then 1 else 0;
      CountFront(s.waitQueue, q);
      HandsUpdate(s.workers, w, r.workers[w], q);
    }
  }

  lemma LocalStepInv(s: State, w: nat)
    requires Inv(s) && Enabled(s, WorkerStep(w))
    requires s.workers[w].Ready? || s.workers[w].Ticketed?
      || (s.workers[w].Swapping? && s.slots[s.workers[w].slot] != s.workers[w].expected)
      || (s.workers[w].Draining? && s.contents[s.workers[w].local] == [])
    ensures Inv(Step(s, WorkerStep(w)))
  {
    hide Stored, Aimed;
    var r := Step(s, WorkerStep(w));
    SumUpdate(s.workers, w, r.workers[w], EmptyHanded);
    PlacesKept(s, w, r.workers[w]);
    assert forall q: QueueId :: Places(r, q) == Places(s, q);
  }

  lemma Runs(posted: multiset<Obj>, ran: multiset<Obj>, x: multiset<Obj>, stored: multiset<Obj>, aimed: multiset<Obj>)
    requires posted == ran + (x + stored) + aimed
    ensures posted == (ran + x) + stored + aimed
  {
  }

  lemma Lands(posted: multiset<Obj>, ran: multiset<Obj>, x: multiset<Obj>, stored: multiset<Obj>, aimed: multiset<Obj>)
    requires posted == ran + stored + (x + aimed)
    ensures posted == ran + (x + stored) + aimed
  {
  }

  lemma Cancel(a: multiset<Obj>, b: multiset<Obj>, x: multiset<Obj>, rest: multiset<Obj>)
    requires a + (x + rest) == b + rest
    ensures b == x + a
  {
    forall o: Obj ensures b[o] == (x + a)[o] {
      assert (a + (x + rest))[o] == (b + rest)[o];
    }
  }

  lemma DrainInv(s: State, w: nat)
    requires Inv(s) && Enabled(s, WorkerStep(w)) && s.workers[w].Draining?
    requires s.contents[s.workers[w].local] != []
    ensures Inv(Step(s, WorkerStep(w)))
  {
    var r := Step(s, WorkerStep(w));
    var q := s.workers[w].local;
    TakeFirst(s.contents, q);
    Runs(s.posted, s.ran, multiset{s.contents[q][0]}, Stored(r.contents), Aimed(s.posters));
    assert forall x: QueueId :: Places(r, x) == Places(s, x);
  }

  lemma TakeFirst(contents: seq<seq<Obj>>, q: nat)
    requires q < |contents| && contents[q] != []
    ensures Stored(contents) == multiset{contents[q][0]} + Stored(contents[q := contents[q][1..]])
  {
    var first, rest := contents[q][0], contents[q][1..];
    StoredUpdate(contents, q, rest);
    assert contents[q] == [first] + rest;
    Cancel(Stored(contents[q := rest]), Stored(contents), multiset{first}, multiset(rest));
  }

  lemma AddLast(contents: seq<seq<Obj>>, q: nat, obj: Obj)
    requires q < |contents|
    ensures Stored(contents[q := contents[q] + [obj]]) == multiset{obj} + Stored(contents)
  {
    StoredUpdate(contents, q, contents[q] + [obj]);
    assert multiset(contents[q] + [obj]) == multiset{obj} + multiset(contents[q]);
    Cancel(Stored(contents), Stored(contents[q := contents[q] + [obj]]), multiset{obj}, multiset(contents[q]));
  }

  lemma SameHand(posters: seq<Poster>, p: nat, x: Poster)
    requires p < |posters| && InHand(posters[p]) == InHand(x)
    ensures Aimed(posters[p := x]) == Aimed(posters)
  {
    AimedUpdate(posters, p, x);
    Cancel(Aimed(posters), Aimed(posters[p := x]), multiset{}, InHand(x));
  }

  lemma Arms(posters: seq<Poster>, p: nat, x: Poster)
    requires p < |posters| && posters[p].Idle?
    ensures Aimed(posters[p := x]) == InHand(x) + Aimed(posters)
  {
    AimedUpdate(posters, p, x);
    Cancel(Aimed(posters), Aimed(posters[p := x]), InHand(x), multiset{});
  }

  lemma Posts(posted: multiset<Obj>, x: multiset<Obj>, elsewhere: multiset<Obj>, aimed: multiset<Obj>)
    requires posted == elsewhere + aimed
    ensures posted + x == elsewhere + (x + aimed)
  {
  }

  lemma SamePlaces(s: State, r: State)
    requires OnePlaceEach(s) && |r.contents| == |s.contents|
    requires r.slots == s.slots && r.waitQueue == s.waitQueue && r.workers == s.workers
    ensures OnePlaceEach(r)
  {
    assert forall x: QueueId :: Places(r, x) == Places(s, x);
  }

  lemma SlotsHoldQueues(s: State, slot: nat)
    requires OnePlaceEach(s) && slot < |s.slots|
    ensures InRange(s, s.slots[slot])
  {
    assert s.slots[slot] in multiset(s.slots);
    assert Places(s, s.slots[slot]) >= 1;
  }

  lemma AimInv(s: State, p: nat)
    requires Inv(s) && Enabled(s, PosterStep(p)) && s.posters[p].Aiming?
    ensures Inv(Step(s, PosterStep(p)))
  {
    hide OnePlaceEach, Stored, Aimed;
    var r := Step(s, PosterStep(p));
    SameHand(s.posters, p, r.posters[p]);
    SamePlaces(s, r);
    SlotsHoldQueues(s, s.posters[p].slot);
  }

  lemma LandInv(s: State, p: nat)
    requires Inv(s) && Enabled(s, PosterStep(p)) && s.posters[p].Pushing?
    ensures Inv(Step(s, PosterStep(p)))
  {
    hide OnePlaceEach, Stored, Aimed;
    var r := Step(s, PosterStep(p));
    var Pushing(obj, q) := s.posters[p];
    AimedUpdate(s.posters, p, Idle);
    Cancel(Aimed(r.posters), Aimed(s.posters), multiset{obj}, multiset{});
    AddLast(s.contents, q, obj);
    Lands(s.posted, s.ran, multiset{obj}, Stored(s.contents), Aimed(r.posters));
    SamePlaces(s, r);
  }

  lemma PostInv(s: State, p: nat, obj: Obj)
    requires Inv(s) && Enabled(s, Post(p, obj))
    ensures Inv(Step(s, Post(p, obj)))
  {
    var r := Step(s, Post(p, obj));
    assert r.posters[p].slot < |r.slots|;
    assert OnePlaceEach(r) by {
      assert forall x: QueueId :: Places(r, x) == Places(s, x);
    }
    assert r.posted == r.ran + Stored(r.contents) + Aimed(r.posters) by {
      Arms(s.posters, p, r.posters[p]);
      Posts(s.posted, multiset{obj}, s.ran + Stored(s.contents), Aimed(s.posters));
    }
  }

  lemma StepInv(s: State, a: Action)
    requires Inv(s) && Enabled(s, a)
    ensures Inv(Step(s, a))
  {
    match a
    case Start(w) => StartInv(s, w);
    case Post(p, obj) => PostInv(s, p, obj);
    case PosterStep(p) => if s.posters[p].Aiming? { AimInv(s, p); } else { LandInv(s, p); }
    case WorkerStep(w) =>
      match s.workers[w]
      case Swapping(_, slot, expected) =>
        if s.slots[slot] == expected { SwapInv(s, w); } else { LocalStepInv(s, w); }
      case Swapped(_, _) => PushWaitInv(s, w);
      case Waiting(_) => PopWaitInv(s, w);
      case Draining(local) => if s.contents[local] == [] { LocalStepInv(s, w); } else { DrainInv(s, w); }
      case _ => LocalStepInv(s, w);
  }

  lemma {:induction false} RunInv(s: State, actions: seq<Action>)
    requires Inv(s) && Legal(s, actions)
    ensures Inv(Exec(s, actions))
    decreases actions
  {
    if actions != [] {
      StepInv(s, actions[0]);
      RunInv(Step(s, actions[0]), actions[1..]);
    }
  }

  // ---------------------------------------------------------------- theorems

  /**
   With any number of workers and posters interleaving, each queue is in exactly one slot, wait
   queue position or worker's hands; the wait queue holds one queue per slot plus one per
   empty-handed worker, so taking from it never fails; and no two workers ever have one queue.
   */
  lemma QueuesCirculate(n: nat, workers: nat, posters: nat, actions: seq<Action>)
    requires n > 0 && Legal(Init(n, workers, posters), actions)
    ensures var s := Exec(Init(n, workers, posters), actions);
      && (forall q: QueueId :: Places(s, q) == if InRange(s, q) then 1 else 0)
      && |s.waitQueue| == |s.slots| + SumBy(s.workers, EmptyHanded)
      && (forall w :: 0 <= w < |s.workers| && s.workers[w].Waiting? ==> s.waitQueue != [])
      && (forall w, q :: 0 <= w < |s.workers| && s.workers[w].Holds(q) ==> Exclusive(s, w, q))
  {
    InitInv(n, workers, posters);
    RunInv(Init(n, workers, posters), actions);
    var s := Exec(Init(n, workers, posters), actions);
    forall w | 0 <= w < |s.workers| && s.workers[w].Waiting? ensures s.waitQueue != [] {
      WaitQueueServes(s, w);
    }
    forall w, q | 0 <= w < |s.workers| && s.workers[w].Holds(q) ensures Exclusive(s, w, q) {
      HeldIsExclusive(s, w, q);
    }
  }

  /**
   Every object posted has been run, is in the poster's hands, or is stored in a queue; and the
   queue a poster loaded is still in circulation when it pushes, however far it has travelled.
   */
  lemma NoScheduleIsDropped(n: nat, workers: nat, posters: nat, actions: seq<Action>)
    requires n > 0 && Legal(Init(n, workers, posters), actions)
    ensures var s := Exec(Init(n, workers, posters), actions);
      && s.posted == s.ran + Stored(s.contents) + Aimed(s.posters)
      && (forall p :: 0 <= p < |s.posters| && s.posters[p].Pushing? ==> Places(s, s.posters[p].queue) == 1)
  {
    InitInv(n, workers, posters);
    RunInv(Init(n, workers, posters), actions);
  }

  /** A queue is first in first out, and only the worker draining it takes anything out. */
  lemma OnlyTheDrainerTakes(s: State, a: Action, q: QueueId)
    requires Inv(s) && Enabled(s, a) && InRange(s, q)
    ensures InRange(Step(s, a), q)
    ensures s.contents[q] <= Step(s, a).contents[q]
      || (&& a.WorkerStep? && s.workers[a.w] == Draining(q) && s.contents[q] != []
          && Step(s, a).contents[q] == s.contents[q][1..]
          && Step(s, a).ran == s.ran + multiset{s.contents[q][0]})
  {
    hide OnePlaceEach, Stored, Aimed;
  }

  function Bound(q: QueueId): Poster -> nat {
    (p: Poster) => if p.Pushing? && p.queue == q then 1 else 0
  }

  /** Pops the drainer of `q` still has before it. */
  function DrainMeasure(s: State, q: QueueId): nat
    requires InRange(s, q)
  {
    |s.contents[q]| + SumBy(s.posters, Bound(q))
  }

  /** The drainer of `q` leaves if `q` is empty and is one pop nearer if not; others cost it nothing. */
  ghost predicate DrainAdvances(s: State, a: Action, r: State, w: nat, q: QueueId)
    requires InRange(s, q)
  {
    && InRange(r, q) && w < |r.workers|
    && if a == WorkerStep(w) && s.contents[q] == [] then r.workers[w] == Ready(q)
       else if a == WorkerStep(w) then r.workers[w] == Draining(q) && DrainMeasure(r, q) < DrainMeasure(s, q)
       else r.workers[w] == Draining(q) && DrainMeasure(r, q) <= DrainMeasure(s, q)
  }

  /**
   `SerializerQueue::Run` terminates: while a worker drains a queue no step of anybody else
   lengthens what is before it, because the queue is in no slot and no new poster can find it.
   */
  lemma DrainTerminates(s: State, a: Action, w: nat, q: QueueId)
    requires Inv(s) && Enabled(s, a) && w < |s.workers| && s.workers[w] == Draining(q) && InRange(s, q)
    ensures DrainAdvances(s, a, Step(s, a), w, q)
  {
    hide OnePlaceEach, Stored, Aimed;
    var r := Step(s, a);
    assert s.workers[w].Holds(q);
    HeldIsExclusive(s, w, q);
    match a
    case PosterStep(p) =>
      assert s.posters[p].Aiming? ==> s.slots[s.posters[p].slot] in s.slots;
      SumUpdate(s.posters, p, r.posters[p], Bound(q));
    case Post(p, _) => SumUpdate(s.posters, p, r.posters[p], Bound(q));
    case WorkerStep(v) =>
      if v != w && s.workers[v].Draining? { assert s.workers[v].Holds(s.workers[v].local); }
    case _ =>
  }
}
