/**
 Which tasks a run is sure to execute. `_size` says how many, and tasks leave in link order; but a
 push that has linked and not yet sized its task makes `_size` one short, so a task whose push had
 returned can be left to a later run. When that cannot happen is said exactly here.
 */
module TaskSerializerSnapshot {
  import Counting
  import Queue = LockFreeQueue
  import opened TaskSerializer
  import opened TaskSerializerProofs
  import opened TaskSerializerObject
  import opened TaskSerializerRuns

  /** The linked task at `i` is the last of its poster's, who has not yet counted it in `_size`. */
  predicate StillOut(s: State, i: nat) {
    && i < |s.linkers| && s.linkers[i] < |s.queue.pushers|
    && Queue.Unsized(s.queue.pushers[s.linkers[i]]) == 1
    && forall j :: i < j < |s.linkers| ==> s.linkers[j] != s.linkers[i]
  }

  /** The push of the linked task at `i` has returned, or is about to. */
  predicate Returned(s: State, i: nat) {
    i < |s.linkers| && !StillOut(s, i)
  }

  /** Whoever is between link and size has linked. */
  ghost predicate LinkersOk(s: State) {
    && |s.linkers| == |s.linked|
    && (forall i :: 0 <= i < |s.linkers| ==> s.linkers[i] < |s.queue.pushers|)
    && (forall t :: 0 <= t < |s.queue.pushers| && Queue.Unsized(s.queue.pushers[t]) == 1 ==> t in s.linkers)
  }

  lemma LinkersStep(s: State, a: Action)
    requires LinkersOk(s) && Enabled(s, a)
    ensures LinkersOk(Step(s, a))
  {
    match a
    case PushStep(t) =>
      var r, e := Step(s, a), Queue.EventOf(s.queue, Queue.PushStep(t));
      UnsizedStep(s, t);
      assert r.linkers == if e.Enqueue? then s.linkers + [t] else s.linkers;
      forall u | 0 <= u < |r.queue.pushers| && Queue.Unsized(r.queue.pushers[u]) == 1 ensures u in r.linkers {
        assert u != t ==> u in s.linkers;
      }
    case Post(t, task, node) =>
      var r := Step(s, a);
      assert r.queue.pushers == s.queue.pushers[t := Queue.LoadTail(node, task)];
    case _ =>
      OtherPushersStay(s, a);
  }

  lemma UnsizedStep(s: State, t: nat)
    requires Enabled(s, PushStep(t))
    ensures var q, e := Queue.Step(s.queue, Queue.PushStep(t)), Queue.EventOf(s.queue, Queue.PushStep(t));
      && t < |q.pushers| && q.pushers == s.queue.pushers[t := q.pushers[t]] && (e.Silent? || e.Enqueue?)
      && (Queue.Unsized(q.pushers[t]) == 1 ==> e.Enqueue? || Queue.Unsized(s.queue.pushers[t]) == 1)
  {
  }

  lemma {:induction false} LinkersRun(s: State, actions: seq<Action>)
    requires LinkersOk(s) && Legal(s, actions)
    ensures LinkersOk(Exec(s, actions))
    decreases actions
  {
    hide LinkersOk, Step, Enabled;
    if actions != [] {
      LinkersStep(s, actions[0]);
      LinkersRun(Step(s, actions[0]), actions[1..]);
    }
  }

  // ---------------------------------------------------------------- how many are still out

  /** The linked tasks still out whose posters are numbered from `k` on. */
  ghost function OutFrom(s: State, k: nat): set<nat> {
    set i: nat | i < |s.linkers| && StillOut(s, i) && s.linkers[i] >= k
  }

  lemma LastOf(linkers: seq<nat>, t: nat) returns (i: nat)
    requires t in linkers
    ensures i < |linkers| && linkers[i] == t && forall j :: i < j < |linkers| ==> linkers[j] != t
  {
    var n := |linkers|;
    while linkers[n - 1] != t
      invariant 0 < n <= |linkers| && t in linkers[..n]
      invariant forall j :: n <= j < |linkers| ==> linkers[j] != t
      decreases n
    {
      n := n - 1;
    }
    i := n - 1;
  }

  /** There are as many as posters between link and size. */
  lemma {:induction false} OutAreUnsized(s: State, k: nat)
    requires LinkersOk(s) && k <= |s.queue.pushers|
    ensures |OutFrom(s, k)| == Counting.SumBy(s.queue.pushers[k..], Queue.Unsized)
    decreases |s.queue.pushers| - k
  {
    hide StillOut, Queue.Unsized;
    var ps := s.queue.pushers;
    if k == |ps| {
      assert OutFrom(s, k) == {};
    } else {
      OutAreUnsized(s, k + 1);
      assert ps[k..][1..] == ps[k + 1..];
      var i := OneOut(s, k);
      if Queue.Unsized(ps[k]) == 1 {
        assert OutFrom(s, k) == OutFrom(s, k + 1) + {i};
      } else {
        UnsizedIsOne(ps[k]);
        assert OutFrom(s, k) == OutFrom(s, k + 1);
      }
    }
  }

  lemma UnsizedIsOne(p: Queue.Pusher<Task>)
    ensures Queue.Unsized(p) == 0 || Queue.Unsized(p) == 1
  {
  }

  /** Of poster `k`'s tasks one is still out if the poster is between link and size, and else none. */
  lemma OneOut(s: State, k: nat) returns (i: nat)
    requires LinkersOk(s) && k < |s.queue.pushers|
    ensures Queue.Unsized(s.queue.pushers[k]) == 1 ==> i < |s.linkers| && StillOut(s, i) && s.linkers[i] == k
    ensures forall x: nat :: x < |s.linkers| && s.linkers[x] == k && StillOut(s, x) ==>
      x == i && Queue.Unsized(s.queue.pushers[k]) == 1
  {
    i := 0;
    if k in s.linkers { i := LastOf(s.linkers, k); }
  }

  lemma {:induction false} Between(x: set<nat>, a: nat, b: nat)
    requires a <= b && forall i :: i in x ==> a <= i < b
    ensures |x| <= b - a
    decreases b - a
  {
    if a < b {
      Between(x - {a}, a + 1, b);
      assert a !in x ==> x - {a} == x;
    } else {
      assert x == {};
    }
  }

  lemma {:induction false} Contains(x: set<nat>, a: nat, b: nat)
    requires a <= b && forall i :: a <= i < b ==> i in x
    ensures |x| >= b - a
    decreases b - a
  {
    if a < b { Contains(x - {a}, a + 1, b); }
  }

  // ---------------------------------------------------------------- the exact condition

  /** Every task whose push has returned is among those a run that starts now executes. */
  ghost predicate RunCoversReturned(s: State) {
    forall i :: 0 <= i < |s.linked| && Returned(s, i) ==> i < |s.ran| + s.queue.size
  }

  /** No push that has returned was linked after one that is still out. */
  ghost predicate NoneOvertaken(s: State) {
    forall i, j :: 0 <= i < j < |s.linked| && Returned(s, j) ==> Returned(s, i)
  }

  /**
   A run executes every task whose push has returned when it reads `_size` if and only if none of them
   was linked after a task that is still out.
   */
  lemma RunCoversReturnedIffNoneOvertaken(s: State, w: nat)
    requires Inv(s) && LinkersOk(s) && w < |s.workers| && s.workers[w].Starting?
    ensures RunCoversReturned(s) <==> NoneOvertaken(s)
  {
    hide Inv, StillOut;
    StartCounts(s, w);
    OutAreUnsized(s, 0);
    var out, n := OutFrom(s, 0), |s.linked|;
    assert s.queue.pushers[0..] == s.queue.pushers;
    var k := n - |out|;
    assert k == |s.ran| + s.queue.size;
    assert forall i: nat :: i < n ==> (i in out <==> !Returned(s, i));
    if NoneOvertaken(s) {
      forall i | 0 <= i < n && Returned(s, i) ensures i < k {
        Between(out, i + 1, n);
      }
    }
    if RunCoversReturned(s) {
      Between(out, 0, n);
      NothingBelow(out, k, n);
      forall i, j | 0 <= i < j < n && Returned(s, j) ensures Returned(s, i) {
        assert j < k;
      }
    }
  }

  /** As many elements as the interval has, and the whole interval among them: nothing else. */
  lemma NothingBelow(x: set<nat>, k: nat, n: nat)
    requires k <= n && |x| == n - k && forall i :: k <= i < n ==> i in x
    ensures forall i :: i in x && i < n ==> i >= k
  {
    forall i | i in x && i < n ensures i >= k {
      if i < k { Contains(x - {i}, k, n); }
    }
  }

  /** In every reachable state, and in particular: if no push is between link and size, all are covered. */
  lemma ReachedRunCovers(posters: nat, workers: nat, actions: seq<Action>, s: State, w: nat)
    requires Reached(posters, workers, actions, s) && w < |s.workers| && s.workers[w].Starting?
    ensures RunCoversReturned(s) <==> NoneOvertaken(s)
    ensures (forall t :: 0 <= t < |s.queue.pushers| ==> Queue.Unsized(s.queue.pushers[t]) == 0) ==> RunCoversReturned(s)
  {
    hide Inv;
    ReachedInv(posters, workers, actions, s);
    InitLinkers(posters, workers);
    LinkersRun(Init(posters, workers), actions);
    RunCoversReturnedIffNoneOvertaken(s, w);
  }

  lemma InitLinkers(posters: nat, workers: nat)
    ensures LinkersOk(Init(posters, workers))
  {
  }

  /**
   The condition is needed: a reachable state in which a run is about to start, a task's push has
   returned and its poster has even counted it and scheduled the object, and yet the run will execute
   another task only, linked before it by a poster who is not done.
   */
  lemma ReturnedPushIsLeftBehind() returns (s: State, r: State)
    ensures Reaches(Init(2, 1), s) && Inv(s) && s.workers == [Starting]
    ensures |s.linked| == 2 && s.taskCount == 1 && Returned(s, 1) && StillOut(s, 0) && !RunCoversReturned(s)
    ensures Reaches(s, r) && Inv(r) && |r.workers| == 1 && r.workers[0].Subtracting? && r.linked == s.linked
    ensures |r.ran| == 1
  {
    hide Inv, Legal, Exec, Reaches, Calm;
    InitIsCalm(2);
    var s0 := Init(2, 1);
    var s1 := PushAlmost(s0, 1, 7);
    s := FirstTaskIsTaken(s1, 0, 8);
    Onwards(s0, s1, s);
    assert s.linkers == [1, 0];
    StillOutNow(s);
    var m := Step(s, WorkerStep(0));
    StepInv(s, WorkerStep(0));
    Stays(s);
    OneMore(s, s, WorkerStep(0));
    assert m.workers == [Looping(1, 0, 0)];
    r := RunsToSubtract(m);
    Onwards(s, m, r);
    RunDrains(r);
  }

  lemma StillOutNow(s: State)
    requires s.linkers == [1, 0] && |s.linked| == 2 && |s.queue.pushers| == 2 && s.ran == [] && s.queue.size == 1
    requires s.queue.pushers[0].Idle? && s.queue.pushers[1].AddSize?
    ensures Returned(s, 1) && StillOut(s, 0) && !RunCoversReturned(s)
  {
    assert StillOut(s, 0);
    assert Returned(s, 1);
  }
}
