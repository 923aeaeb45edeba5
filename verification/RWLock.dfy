/**
 `RWLockObject`: a writer-preferring reader-writer lock on one mutex and two condition variables.
 Every critical section is one step; sleeping and woken threads are explicit, and a sleeper may
 also wake for no reason.
 */
module RWLock {
  import opened Counting

  datatype Place =
    | Outside
    | ReadSleeping | ReadAwake | Reading
    | WriteSleeping | WriteAwake | Writing

  datatype State = State(readerCount: int, writerCount: int, writerActive: bool, threads: seq<Place>)

  /** `wake` is the sleeper `notify_one` picks, when there is one. */
  datatype Action =
    | LockRead(t: nat)
    | ResumeRead(t: nat)
    | LockWrite(t: nat)
    | ResumeWrite(t: nat)
    | UnlockRead(t: nat, wake: nat)
    | UnlockWrite(t: nat, wake: nat)
    | SpuriousWake(t: nat)

  function Init(threads: nat): State {
    State(0, 0, false, seq(threads, _ => Outside))
  }

  predicate SleepingWriter(threads: seq<Place>, t: nat) {
    t < |threads| && threads[t].WriteSleeping?
  }

  predicate NoSleepingWriter(threads: seq<Place>) {
    forall t :: 0 <= t < |threads| ==> !threads[t].WriteSleeping?
  }

  predicate Enabled(s: State, a: Action) {
    && a.t < |s.threads|
    && match a
       case LockRead(t) => s.threads[t].Outside?
       case ResumeRead(t) => s.threads[t].ReadAwake?
       case LockWrite(t) => s.threads[t].Outside?
       case ResumeWrite(t) => s.threads[t].WriteAwake?
       case UnlockRead(t, wake) =>
         s.threads[t].Reading? && (SleepingWriter(s.threads, wake) || NoSleepingWriter(s.threads))
       case UnlockWrite(t, wake) =>
         s.threads[t].Writing? && (SleepingWriter(s.threads, wake) || NoSleepingWriter(s.threads))
       case SpuriousWake(t) => s.threads[t].ReadSleeping? || s.threads[t].WriteSleeping?
  }

  function Awaken(p: Place): Place {
    match p
    case ReadSleeping => ReadAwake
    case WriteSleeping => WriteAwake
    case _ => p
  }

  /** `_writerCV.notify_one`. */
  function NotifyOne(threads: seq<Place>, wake: nat): seq<Place> {
    if SleepingWriter(threads, wake) then threads[wake := WriteAwake] else threads
  }

  /** `_readerCV.notify_all`. */
  function NotifyReaders(threads: seq<Place>): (woken: seq<Place>)
    ensures |woken| == |threads|
  {
    seq(|threads|, i requires 0 <= i < |threads| =>
      if threads[i].ReadSleeping? then ReadAwake else threads[i])
  }

  /** The wait loop of `LockRead`: admitted, or back to sleep. */
  function TryRead(s: State, t: nat): State
    requires t < |s.threads|
  {
    if s.writerCount == 0 then s.(readerCount := s.readerCount + 1, threads := s.threads[t := Reading])
    else s.(threads := s.threads[t := ReadSleeping])
  }

  /** The wait loop of `LockWrite`. */
  function TryWrite(s: State, t: nat): State
    requires t < |s.threads|
  {
    if s.readerCount == 0 && !s.writerActive then s.(writerActive := true, threads := s.threads[t := Writing])
    else s.(threads := s.threads[t := WriteSleeping])
  }

  function Step(s: State, a: Action): State
    requires Enabled(s, a)
  {
    match a
    case LockRead(t) => TryRead(s, t)
    case ResumeRead(t) => TryRead(s, t)
    case LockWrite(t) => TryWrite(s.(writerCount := s.writerCount + 1), t)
    case ResumeWrite(t) => TryWrite(s, t)
    case UnlockRead(t, wake) =>
      var left := s.threads[t := Outside];
      s.(readerCount := s.readerCount - 1,
         threads := if s.readerCount - 1 == 0 then NotifyOne(left, wake) else left)
    case UnlockWrite(t, wake) =>
      var left := s.threads[t := Outside];
      s.(writerActive := false, writerCount := s.writerCount - 1,
         threads := if s.writerCount - 1 > 0 then NotifyOne(left, wake) else NotifyReaders(left))
    case SpuriousWake(t) => s.(threads := s.threads[t := Awaken(s.threads[t])])
  }

  predicate Legal(s: State, actions: seq<Action>)
    decreases actions
  {
    actions == [] || (Enabled(s, actions[0]) && Legal(Step(s, actions[0]), actions[1..]))
  }

  function Exec(s: State, actions: seq<Action>): State
    requires Legal(s, actions)
    decreases actions
  {
    if actions == [] then s else Exec(Step(s, actions[0]), actions[1..])
  }

  // ---------------------------------------------------------------- invariant

  function IsReading(p: Place): nat { if p.Reading? then 1 else 0 }

  function IsWriting(p: Place): nat { if p.Writing? then 1 else 0 }

  /** Inside `LockWrite`, or holding the write guard. */
  function IsWriter(p: Place): nat { if p.WriteSleeping? || p.WriteAwake? || p.Writing? then 1 else 0 }

  predicate Free(s: State) { s.readerCount == 0 && !s.writerActive }

  ghost predicate CountsOk(s: State) {
    && s.readerCount == SumBy(s.threads, IsReading)
    && s.writerCount == SumBy(s.threads, IsWriter)
    && SumBy(s.threads, IsWriting) == (if s.writerActive then 1 else 0)
    && (s.writerActive ==> s.readerCount == 0 && s.writerCount > 0)
  }

  ghost predicate WakeupsOk(s: State) {
    && (forall t :: 0 <= t < |s.threads| && s.threads[t].ReadSleeping? ==> s.writerCount > 0)
    && (Free(s) && s.writerCount > 0 ==> exists t :: 0 <= t < |s.threads| && s.threads[t].WriteAwake?)
  }

  ghost predicate Inv(s: State) { CountsOk(s) && WakeupsOk(s) }

  lemma PlaceSums(threads: seq<Place>, t: nat, p: Place)
    requires t < |threads|
    ensures var after := threads[t := p];
      && SumBy(after, IsReading) + IsReading(threads[t]) == SumBy(threads, IsReading) + IsReading(p)
      && SumBy(after, IsWriter) + IsWriter(threads[t]) == SumBy(threads, IsWriter) + IsWriter(p)
      && SumBy(after, IsWriting) + IsWriting(threads[t]) == SumBy(threads, IsWriting) + IsWriting(p)
    ensures IsReading(threads[t]) <= SumBy(threads, IsReading)
    ensures IsWriter(threads[t]) <= SumBy(threads, IsWriter)
    ensures IsWriting(threads[t]) <= SumBy(threads, IsWriting)
  {
    SumUpdate(threads, t, p, IsReading);
    SumUpdate(threads, t, p, IsWriter);
    SumUpdate(threads, t, p, IsWriting);
    SumAtLeast(threads, t, IsReading);
    SumAtLeast(threads, t, IsWriter);
    SumAtLeast(threads, t, IsWriting);
  }

  lemma {:induction false} NotifyReadersSums(threads: seq<Place>)
    ensures SumBy(NotifyReaders(threads), IsReading) == SumBy(threads, IsReading)
    ensures SumBy(NotifyReaders(threads), IsWriter) == SumBy(threads, IsWriter)
    ensures SumBy(NotifyReaders(threads), IsWriting) == SumBy(threads, IsWriting)
  {
    if threads != [] {
      assert NotifyReaders(threads)[1..] == NotifyReaders(threads[1..]);
      NotifyReadersSums(threads[1..]);
    }
  }

  lemma NotifyOneSums(threads: seq<Place>, wake: nat)
    ensures SumBy(NotifyOne(threads, wake), IsReading) == SumBy(threads, IsReading)
    ensures SumBy(NotifyOne(threads, wake), IsWriter) == SumBy(threads, IsWriter)
    ensures SumBy(NotifyOne(threads, wake), IsWriting) == SumBy(threads, IsWriting)
  {
    if SleepingWriter(threads, wake) { PlaceSums(threads, wake, WriteAwake); }
  }

  /** Nobody asleep among the writers and somebody registered but not writing: that one is awake. */
  lemma AwakeWriter(threads: seq<Place>)
    requires SumBy(threads, IsWriter) > 0 && SumBy(threads, IsWriting) == 0 && NoSleepingWriter(threads)
    ensures exists t :: 0 <= t < |threads| && threads[t].WriteAwake?
  {
    var t := SumWitness(threads, IsWriter);
    SumAtLeast(threads, t, IsWriting);
  }

  lemma LockInv(s: State, a: Action)
    requires Inv(s) && Enabled(s, a)
    requires a.LockRead? || a.ResumeRead? || a.LockWrite? || a.ResumeWrite? || a.SpuriousWake?
    ensures Inv(Step(s, a))
  {
    var r := Step(s, a);
    PlaceSums(s.threads, a.t, r.threads[a.t]);
    if Free(r) && r.writerCount > 0 {
      var u :| 0 <= u < |s.threads| && s.threads[u].WriteAwake?;
      assert r.threads[u].WriteAwake?;
    }
  }

  lemma UnlockReadInv(s: State, t: nat, wake: nat)
    requires Inv(s) && Enabled(s, UnlockRead(t, wake))
    ensures Inv(Step(s, UnlockRead(t, wake)))
  {
    var r := Step(s, UnlockRead(t, wake));
    var left := s.threads[t := Outside];
    PlaceSums(s.threads, t, Outside);
    NotifyOneSums(left, wake);
    if Free(r) && r.writerCount > 0 {
      if SleepingWriter(left, wake) { assert r.threads[wake].WriteAwake?; } else { AwakeWriter(r.threads); }
    }
  }

  lemma UnlockWriteInv(s: State, t: nat, wake: nat)
    requires Inv(s) && Enabled(s, UnlockWrite(t, wake))
    ensures Inv(Step(s, UnlockWrite(t, wake)))
  {
    var r := Step(s, UnlockWrite(t, wake));
    var left := s.threads[t := Outside];
    PlaceSums(s.threads, t, Outside);
    NotifyOneSums(left, wake);
    NotifyReadersSums(left);
    if r.writerCount > 0 {
      if SleepingWriter(left, wake) { assert r.threads[wake].WriteAwake?; } else { AwakeWriter(r.threads); }
    }
  }

  lemma StepInv(s: State, a: Action)
    requires Inv(s) && Enabled(s, a)
    ensures Inv(Step(s, a))
  {
    match a
    case UnlockRead(t, wake) => UnlockReadInv(s, t, wake);
    case UnlockWrite(t, wake) => UnlockWriteInv(s, t, wake);
    case _ => LockInv(s, a);
  }

  lemma {:induction false} RunInv(s: State, actions: seq<Action>)
    requires Inv(s) && Legal(s, actions)
    ensures Inv(Exec(s, actions))
    decreases actions
  {
    if actions != [] {
      StepInv(s, actions[0]);
      RunInv(Step(s, actions[0]), actions[1..]);
    }
  }

  lemma ReachedInv(threads: nat, actions: seq<Action>)
    requires Legal(Init(threads), actions)
    ensures Inv(Exec(Init(threads), actions))
  {
    SumZero(Init(threads).threads, IsReading);
    SumZero(Init(threads).threads, IsWriter);
    SumZero(Init(threads).threads, IsWriting);
    RunInv(Init(threads), actions);
  }

  // ---------------------------------------------------------------- theorems

  /** A writer excludes every reader and every other writer; the counters count what they say. */
  lemma Exclusion(threads: nat, actions: seq<Action>)
    requires Legal(Init(threads), actions)
    ensures var s := Exec(Init(threads), actions);
      && s.readerCount == SumBy(s.threads, IsReading)
      && s.writerCount == SumBy(s.threads, IsWriter)
      && (forall t, u :: 0 <= t < |s.threads| && 0 <= u < |s.threads| && t != u && s.threads[t].Writing? ==>
            !s.threads[u].Writing? && !s.threads[u].Reading?)
  {
    ReachedInv(threads, actions);
    var s := Exec(Init(threads), actions);
    forall t, u | 0 <= t < |s.threads| && 0 <= u < |s.threads| && t != u && s.threads[t].Writing?
      ensures !s.threads[u].Writing? && !s.threads[u].Reading?
    {
      SumAtLeast(s.threads, t, IsWriting);
      SumAtLeast(s.threads, u, IsReading);
      SumPair(s.threads, if t < u then t else u, if t < u then u else t, IsWriting);
    }
  }

  /** A writer is registered in every state of the run but perhaps the last. */
  predicate WriterThroughout(s: State, actions: seq<Action>)
    requires Legal(s, actions)
    decreases actions
  {
    actions == [] || (s.writerCount > 0 && WriterThroughout(Step(s, actions[0]), actions[1..]))
  }

  /** Writer preference: from the moment a writer registers until none is left, no reader gets in. */
  lemma {:induction false} NoReaderOvertakesAWriter(s: State, actions: seq<Action>, t: nat)
    requires Legal(s, actions) && WriterThroughout(s, actions) && t < |s.threads|
    ensures |Exec(s, actions).threads| == |s.threads|
    ensures Exec(s, actions).threads[t].Reading? ==> s.threads[t].Reading?
    ensures Exec(s, actions).readerCount <= s.readerCount
    decreases actions
  {
    if actions != [] {
      NoReaderOvertakesAWriter(Step(s, actions[0]), actions[1..], t);
    }
  }

  /**
   A reader that calls, or wakes, is reading after that very step exactly if no writer is registered,
   however many readers are inside already; otherwise it sleeps. Nobody else is moved.
   */
  lemma ReaderEntersIffNoWriter(s: State, a: Action)
    requires Enabled(s, a) && (a.LockRead? || a.ResumeRead?)
    ensures var r := Step(s, a);
      && |r.threads| == |s.threads|
      && (r.threads[a.t].Reading? <==> s.writerCount == 0)
      && (r.threads[a.t].ReadSleeping? <==> s.writerCount != 0)
      && r.readerCount == s.readerCount + (if s.writerCount == 0 then 1 else 0)
      && forall u :: 0 <= u < |s.threads| && u != a.t ==> r.threads[u] == s.threads[u]
  {
  }

  /**
   A writer that calls, or wakes, holds the lock after that very step exactly if it is free; otherwise
   it sleeps. It is registered from its call on.
   */
  lemma WriterEntersIffFree(s: State, a: Action)
    requires Enabled(s, a) && (a.LockWrite? || a.ResumeWrite?)
    ensures var r := Step(s, a);
      && |r.threads| == |s.threads|
      && (r.threads[a.t].Writing? <==> s.readerCount == 0 && !s.writerActive)
      && (r.threads[a.t].WriteSleeping? <==> s.readerCount != 0 || s.writerActive)
      && r.writerCount == s.writerCount + (if a.LockWrite? then 1 else 0)
      && forall u :: 0 <= u < |s.threads| && u != a.t ==> r.threads[u] == s.threads[u]
  {
  }

  function Outsiders(p: Place): nat { if p.Outside? then 1 else 0 }

  /**
   Readers share: from any state without writers, all threads that are outside can come in, one
   after the other, and then all of them and all who were reading before are reading at once.
   */
  lemma {:induction false} ReadersShare(s: State) returns (actions: seq<Action>)
    requires Inv(s) && s.writerCount == 0
    ensures Legal(s, actions) && Inv(Exec(s, actions))
    ensures var r := Exec(s, actions);
      && |r.threads| == |s.threads| && r.writerCount == 0
      && (forall t :: 0 <= t < |s.threads| ==>
            r.threads[t] == if s.threads[t].Outside? then Reading else s.threads[t])
      && r.readerCount == s.readerCount + SumBy(s.threads, Outsiders)
    decreases SumBy(s.threads, Outsiders)
  {
    if t :| 0 <= t < |s.threads| && s.threads[t].Outside? {
      var a := LockRead(t);
      var m := Step(s, a);
      StepInv(s, a);
      ReaderEntersIffNoWriter(s, a);
      SumUpdate(s.threads, t, Reading, Outsiders);
      var rest := ReadersShare(m);
      actions := [a] + rest;
      assert actions[1..] == rest;
    } else {
      SumZero(s.threads, Outsiders);
      actions := [];
    }
  }

  /** In every reachable state without writers, whoever of the readers runs next gets in. */
  lemma NoReaderWaitsForReaders(threads: nat, actions: seq<Action>)
    requires Legal(Init(threads), actions)
    ensures var s := Exec(Init(threads), actions);
      s.writerCount == 0 ==>
        (forall t :: 0 <= t < |s.threads| ==> !s.threads[t].ReadSleeping?)
        && forall a :: Enabled(s, a) && (a.LockRead? || a.ResumeRead?) ==> Step(s, a).threads[a.t].Reading?
  {
    ReachedInv(threads, actions);
  }

  predicate InLock(p: Place) { p.ReadSleeping? || p.ReadAwake? || p.WriteSleeping? || p.WriteAwake? }

  /** Thread `t` is awake and gets the lock the next time it runs. */
  predicate CanEnter(s: State, t: nat) {
    && t < |s.threads|
    && (s.threads[t].ReadAwake? || s.threads[t].WriteAwake?)
    && (s.threads[t].ReadAwake? ==> Step(s, ResumeRead(t)).threads[t].Reading?)
    && (s.threads[t].WriteAwake? ==> Step(s, ResumeWrite(t)).threads[t].Writing?)
  }

  /**
   No wake-up is lost: whenever the lock is free and some thread is inside `LockRead` or
   `LockWrite`, one of them is awake and will get it. A reader stays asleep only behind a writer.
   */
  lemma NoLostWakeup(threads: nat, actions: seq<Action>)
    requires Legal(Init(threads), actions)
    ensures var s := Exec(Init(threads), actions);
      && (Free(s) && (exists t :: 0 <= t < |s.threads| && InLock(s.threads[t])) ==> exists t :: CanEnter(s, t))
      && (forall t :: 0 <= t < |s.threads| && s.threads[t].ReadSleeping? ==> s.writerCount > 0)
  {
    ReachedInv(threads, actions);
    var s := Exec(Init(threads), actions);
    if Free(s) && exists t :: 0 <= t < |s.threads| && InLock(s.threads[t]) {
      var t :| 0 <= t < |s.threads| && InLock(s.threads[t]);
      if s.writerCount > 0 {
        var u :| 0 <= u < |s.threads| && s.threads[u].WriteAwake?;
        assert CanEnter(s, u);
      } else {
        SumAtLeast(s.threads, t, IsWriter);
        assert CanEnter(s, t);
      }
    }
  }

  // ---------------------------------------------------------------- the monitor itself

  class RWLockObject {
    var readerCount: int
    var writerCount: int
    var writerActive: bool
    var threads: seq<Place>

    ghost function View(): State
      reads this
    {
      State(readerCount, writerCount, writerActive, threads)
    }

    constructor (n: nat)
      ensures View() == Init(n) && Inv(View())
    {
      readerCount, writerCount, writerActive := 0, 0, false;
      threads := seq(n, _ => Outside);
      new;
      ReachedInv(n, []);
    }

    method LockRead(t: nat)
      requires Inv(View()) && t < |threads| && (threads[t].Outside? || threads[t].ReadAwake?)
      modifies this
      ensures Inv(View())
      ensures View() == Step(old(View()), if old(threads[t]).Outside? then Action.LockRead(t) else ResumeRead(t))
      ensures threads[t] == if old(writerCount) == 0 then Reading else ReadSleeping
      ensures readerCount == old(readerCount) + if old(writerCount) == 0 then 1 else 0
    {
      StepInv(View(), if threads[t].Outside? then Action.LockRead(t) else ResumeRead(t));
      if writerCount == 0 {
        readerCount := readerCount + 1;
        threads := threads[t := Reading];
      } else {
        threads := threads[t := ReadSleeping];
      }
    }

    method LockWrite(t: nat)
      requires Inv(View()) && t < |threads| && (threads[t].Outside? || threads[t].WriteAwake?)
      modifies this
      ensures Inv(View())
      ensures View() == Step(old(View()), if old(threads[t]).Outside? then Action.LockWrite(t) else ResumeWrite(t))
      ensures threads[t] == if old(readerCount == 0 && !writerActive) then Writing else WriteSleeping
      ensures writerCount == old(writerCount) + if old(threads[t]).Outside? then 1 else 0
    {
      StepInv(View(), if threads[t].Outside? then Action.LockWrite(t) else ResumeWrite(t));
      if threads[t].Outside? {
        writerCount := writerCount + 1;
      }
      if readerCount == 0 && !writerActive {
        writerActive := true;
        threads := threads[t := Writing];
      } else {
        threads := threads[t := WriteSleeping];
      }
    }

    method UnLockRead(t: nat) returns (ghost wake: nat)
      requires Inv(View()) && t < |threads| && threads[t].Reading?
      modifies this
      ensures Inv(View())
      ensures Enabled(old(View()), UnlockRead(t, wake)) && View() == Step(old(View()), UnlockRead(t, wake))
      ensures threads[t].Outside? && readerCount == old(readerCount) - 1
    {
      var sleeper := FindSleepingWriter();
      wake := sleeper;
      UnlockReadInv(View(), t, wake);
      readerCount := readerCount - 1;
      threads := threads[t := Outside];
      if readerCount == 0 && sleeper < |threads| {
        threads := threads[sleeper := WriteAwake];
      }
    }

    method UnLockWrite(t: nat) returns (ghost wake: nat)
      requires Inv(View()) && t < |threads| && threads[t].Writing?
      modifies this
      ensures Inv(View())
      ensures Enabled(old(View()), UnlockWrite(t, wake)) && View() == Step(old(View()), UnlockWrite(t, wake))
      ensures threads[t].Outside? && !writerActive && writerCount == old(writerCount) - 1
    {
      var sleeper := FindSleepingWriter();
      wake := sleeper;
      UnlockWriteInv(View(), t, wake);
      writerActive := false;
      threads := threads[t := Outside];
      writerCount := writerCount - 1;
      if writerCount > 0 {
        if sleeper < |threads| {
          threads := threads[sleeper := WriteAwake];
        }
      } else {
        threads := NotifyReaders(threads);
      }
    }

    /** Some sleeping writer, as `notify_one` may choose; `|threads|` when there is none. */
    method FindSleepingWriter() returns (t: nat)
      ensures t < |threads| ==> threads[t].WriteSleeping?
      ensures t >= |threads| ==> NoSleepingWriter(threads)
    {
      if u: nat :| u < |threads| && threads[u].WriteSleeping? {
        t := u;
      } else {
        t := |threads|;
      }
    }
  }
}
