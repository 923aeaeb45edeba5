/** Worker iterations of `Context::Run` taken one after another: the rotation and its fairness. */
module ContextRotation {
  import opened Arithmetic
  import opened Sequences
  import opened ContextMachine
  import opened ContextPosting

  /** What the rotation depends on, at an iteration boundary. */
  datatype Rotation = Rotation(slots: seq<QueueId>, waitQueue: seq<QueueId>, locals: seq<QueueId>, ticket: nat)
  {
    ghost predicate Valid() {
      slots != [] && |waitQueue| == |slots|
    }

    /** Every queue in the rotation. */
    function All(): multiset<QueueId> { multiset(slots) + multiset(waitQueue) + multiset(locals) }
  }

  /** One iteration by worker `w`: swap with the ticketed slot, queue what came out, take the front. */
  function Turn(r: Rotation, w: nat): (next: Rotation)
    requires r.Valid() && w < |r.locals|
    ensures next.Valid() && |next.locals| == |r.locals| && |next.slots| == |r.slots|
  {
    var slot := r.ticket % |r.slots|;
    var waiting := r.waitQueue + [r.slots[slot]];
    Rotation(r.slots[slot := r.locals[w]], waiting[1..], r.locals[w := waiting[0]], r.ticket + 1)
  }

  predicate Workers(r: Rotation, ws: seq<nat>) {
    forall i :: 0 <= i < |ws| ==> ws[i] < |r.locals|
  }

  /** The queues drained, iteration by iteration. */
  function Drained(r: Rotation, ws: seq<nat>): (queues: seq<QueueId>)
    requires r.Valid() && Workers(r, ws)
    ensures |queues| == |ws|
    decreases ws
  {
    if ws == [] then []
    else
      var next := Turn(r, ws[0]);
      [next.locals[ws[0]]] + Drained(next, ws[1..])
  }

  /** An iteration only moves queues about. */
  lemma TurnPermutes(r: Rotation, w: nat)
    requires r.Valid() && w < |r.locals|
    ensures Turn(r, w).All() == r.All()
  {
    var slot := r.ticket % |r.slots|;
    var waiting := r.waitQueue + [r.slots[slot]];
    assert waiting == [waiting[0]] + waiting[1..];
    assert multiset(waiting) == multiset(r.waitQueue) + multiset{r.slots[slot]};
    assert multiset(waiting) == multiset{waiting[0]} + multiset(waiting[1..]);
    SetOne(r.slots, slot, r.locals[w]);
    SetOne(r.locals, w, waiting[0]);
    Circulates(multiset(r.slots), multiset(r.slots[slot := r.locals[w]]), multiset(r.waitQueue), multiset(waiting[1..]),
               multiset(r.locals), multiset(r.locals[w := waiting[0]]), r.slots[slot], r.locals[w], waiting[0]);
  }

  lemma SetOne(s: seq<QueueId>, i: nat, x: QueueId)
    requires i < |s|
    ensures multiset(s[i := x]) + multiset{s[i]} == multiset(s) + multiset{x}
  {
    assert s == s[..i] + [s[i]] + s[i + 1..];
    assert s[i := x] == s[..i] + [x] + s[i + 1..];
  }

  /** `a` leaves the slots, `b` the locals and `c` the wait queue, each for the next. */
  lemma Circulates(slots: multiset<QueueId>, slots': multiset<QueueId>,
                   wait: multiset<QueueId>, wait': multiset<QueueId>,
                   locals: multiset<QueueId>, locals': multiset<QueueId>, a: QueueId, b: QueueId, c: QueueId)
    requires slots' + multiset{a} == slots + multiset{b}
    requires wait + multiset{a} == multiset{c} + wait'
    requires locals' + multiset{b} == locals + multiset{c}
    ensures slots' + wait' + locals' == slots + wait + locals
  {
    forall q: QueueId ensures (slots' + wait' + locals')[q] == (slots + wait + locals)[q] {
      assert (slots' + multiset{a})[q] == (slots + multiset{b})[q];
      assert (wait + multiset{a})[q] == (multiset{c} + wait')[q];
      assert (locals' + multiset{b})[q] == (locals + multiset{c})[q];
    }
  }

  // ---------------------------------------------------------------- fairness

  lemma {:induction false} DrainedFromWaitQueue(r: Rotation, ws: seq<nat>, k: nat)
    requires r.Valid() && Workers(r, ws) && k < |r.waitQueue| && k < |ws|
    ensures Drained(r, ws)[k] == r.waitQueue[k]
    decreases k
  {
    if k > 0 {
      var next := Turn(r, ws[0]);
      assert next.waitQueue[k - 1] == r.waitQueue[k];
      DrainedFromWaitQueue(next, ws[1..], k - 1);
    }
  }

  /**
   A queue in the slot whose ticket comes up in `d` iterations is drained in iteration `d + N`
   exactly, whichever workers take the iterations.
   */
  lemma {:induction false} DrainedFromSlot(r: Rotation, ws: seq<nat>, d: nat)
    requires r.Valid() && Workers(r, ws) && d < |r.slots| && d + |r.slots| < |ws|
    ensures Drained(r, ws)[d + |r.slots|] == r.slots[(r.ticket + d) % |r.slots|]
    decreases d
  {
    var n := |r.slots|;
    var next := Turn(r, ws[0]);
    if d == 0 {
      assert next.waitQueue[n - 1] == r.slots[r.ticket % n];
      DrainedFromWaitQueue(next, ws[1..], n - 1);
    } else {
      SlotsDiffer(r.ticket, d, n);
      assert next.ticket + (d - 1) == r.ticket + d;
      DrainedFromSlot(next, ws[1..], d - 1);
    }
  }

  /** Bounded fairness: any queue in any slot is drained within the next 2N iterations. */
  lemma SlotIsDrainedWithinTwoRounds(r: Rotation, ws: seq<nat>, j: nat)
    requires r.Valid() && Workers(r, ws) && j < |r.slots| && |ws| >= 2 * |r.slots|
    ensures r.slots[j] in Drained(r, ws)[..2 * |r.slots|]
  {
    hide Drained, Turn, Distance;
    var n := |r.slots|;
    var d := Distance(r.ticket, j, n);
    DistanceToSlot(r.ticket, j, n);
    DrainedFromSlot(r, ws, d);
    InFront(Drained(r, ws), d + n, 2 * n);
  }

  lemma InFront(queues: seq<QueueId>, i: nat, n: nat)
    requires i < n <= |queues|
    ensures queues[i] in queues[..n]
  {
    assert queues[..n][i] == queues[i];
  }

  // ---------------------------------------------------------------- the machine takes such turns

  function LocalOf(w: Worker): QueueId {
    match w
    case NotStarted => 0
    case _ => w.local
  }

  function View(s: State): Rotation {
    Rotation(
      s.slots, s.waitQueue,
      seq(|s.workers|, i requires 0 <= i < |s.workers| => LocalOf(s.workers[i])),
      s.swapCounter)
  }

  /** The five atomic steps of an undisturbed iteration, up to the drain, are one turn. */
  lemma TurnIsFiveSteps(s: State, w: nat)
    requires s.slots != [] && |s.waitQueue| == |s.slots| && w < |s.workers| && s.workers[w].Ready?
    ensures var a := WorkerStep(w);
      && Legal(s, [a, a, a, a, a])
      && |Exec(s, [a, a, a, a, a]).workers| == |s.workers|
      && Exec(s, [a, a, a, a, a]).workers[w].Draining?
      && View(Exec(s, [a, a, a, a, a])) == Turn(View(s), w)
      && Exec(s, [a, a, a, a, a]).contents == s.contents
  {
    hide Step, Enabled, Turn, View;
    var a := WorkerStep(w);
    FiveSteps(s, w);
    var s1 := Step(s, a);
    var s2 := Step(s1, a);
    var s3 := Step(s2, a);
    var s4 := Step(s3, a);
    Unfold(s4, a, []);
    Unfold(s3, a, [a] + []);
    Unfold(s2, a, [a] + ([a] + []));
    Unfold(s1, a, [a] + ([a] + ([a] + [])));
    Unfold(s, a, [a] + ([a] + ([a] + ([a] + []))));
    assert [a] + ([a] + ([a] + ([a] + ([a] + [])))) == [a, a, a, a, a];
  }

  lemma FiveSteps(s: State, w: nat)
    requires s.slots != [] && |s.waitQueue| == |s.slots| && w < |s.workers| && s.workers[w].Ready?
    ensures
      var a := WorkerStep(w);
      Enabled(s, a) &&
      var s1 := Step(s, a);
      Enabled(s1, a) &&
      var s2 := Step(s1, a);
      Enabled(s2, a) &&
      var s3 := Step(s2, a);
      Enabled(s3, a) &&
      var s4 := Step(s3, a);
      Enabled(s4, a) &&
      var s5 := Step(s4, a);
      |s5.workers| == |s.workers| && s5.workers[w].Draining? && s5.contents == s.contents &&
      View(s5) == Turn(View(s), w)
  {
    var a := WorkerStep(w);
    var s5 := Step(Step(Step(Step(Step(s, a), a), a), a), a);
    assert s5.workers == s.workers[w := s5.workers[w]];
    assert View(s5).locals == Turn(View(s), w).locals;
  }

  lemma Unfold(s: State, a: Action, rest: seq<Action>)
    requires Enabled(s, a) && Legal(Step(s, a), rest)
    ensures Legal(s, [a] + rest) && Exec(s, [a] + rest) == Exec(Step(s, a), rest)
  {
    assert ([a] + rest)[1..] == rest;
  }

  // ---------------------------------------------------------------- the loop body itself

  class Context {
    const globalQueue: array<QueueId>
    var waitQueue: seq<QueueId>
    var locals: seq<QueueId>
    var contents: seq<seq<Obj>>
    var swapCounter: nat
    var globalCounter: nat

    ghost function Rotating(): Rotation
      reads this, globalQueue
    {
      Rotation(globalQueue[..], waitQueue, locals, swapCounter)
    }

    /** Every queue exists and is in one place only. */
    ghost predicate Valid()
      reads this, globalQueue
    {
      && Rotating().Valid()
      && (forall q :: q in Rotating().All() ==> q < |contents| && Rotating().All()[q] == 1)
    }

    /** `Context::Initialize`, with the workers' own queues. */
    constructor (n: nat, workers: nat)
      requires n > 0
      ensures Valid() && fresh(globalQueue)
      ensures globalQueue.Length == n && |locals| == workers && swapCounter == 0 && globalCounter == 0
      ensures forall q :: 0 <= q < |contents| ==> contents[q] == []
    {
      globalQueue := new QueueId[n](i => i);
      waitQueue := seq(n, i => n + i);
      locals := seq(workers, i => 2 * n + i);
      contents := seq(2 * n + workers, _ => []);
      swapCounter, globalCounter := 0, 0;
      new;
      forall q | q in Rotating().All() ensures q < |contents| && Rotating().All()[q] == 1 {
        DistinctCount(globalQueue[..], q);
        DistinctCount(waitQueue, q);
        DistinctCount(locals, q);
      }
    }

    /** `Context::Post`: the object goes to the queue now in the next slot, the next post to the one after. */
    method Post(obj: Obj) returns (q: QueueId)
      requires Valid()
      modifies this`contents, this`globalCounter
      ensures Valid() && |contents| == old(|contents|)
      ensures globalCounter == old(globalCounter) + 1
      ensures q == globalQueue[old(globalCounter) % globalQueue.Length] && q in globalQueue[..]
      ensures q < |contents| && contents == old(contents)[q := old(contents)[q] + [obj]]
    {
      var idx := globalCounter % globalQueue.Length;
      globalCounter := globalCounter + 1;
      q := globalQueue[idx];
      assert q in multiset(globalQueue[..]);
      assert q in Rotating().All();
      contents := contents[q := contents[q] + [obj]];
    }

    method PopFront(q: QueueId) returns (executor: Obj)
      requires Valid() && q < |contents| && contents[q] != []
      modifies this`contents
      ensures Valid() && executor == old(contents)[q][0]
      ensures contents == old(contents)[q := old(contents)[q][1..]]
    {
      executor := contents[q][0];
      contents := contents[q := contents[q][1..]];
    }

    /** Posts one after the other: with N slots, k posts lengthen each slot's queue by k / N, up or down. */
    method PostAll(objects: seq<Obj>)
      requires Valid()
      modifies this`contents, this`globalCounter
      ensures Valid() && AllQueues(globalQueue[..], old(contents))
      ensures contents == PostEach(old(contents), globalQueue[..], old(globalCounter), objects)
      ensures globalCounter == old(globalCounter) + |objects|
      ensures forall j :: 0 <= j < globalQueue.Length ==>
        EvenShare(|contents[globalQueue[j]]| - |old(contents)[globalQueue[j]]|, |objects|, globalQueue.Length)
    {
      hide Valid, PostEach, EvenShare;
      InRotation();
      PostsNothing(contents, globalQueue[..], globalCounter);
      for i := 0 to |objects|
        invariant Valid() && AllQueues(globalQueue[..], old(contents))
        invariant contents == PostEach(old(contents), globalQueue[..], old(globalCounter), objects[..i])
        invariant globalCounter == old(globalCounter) + i
      {
        PostOneMore(old(contents), globalQueue[..], old(globalCounter), objects[..i], objects[i]);
        assert objects[..i + 1] == objects[..i] + [objects[i]];
        var target := Post(objects[i]);
      }
      assert objects[..|objects|] == objects;
      forall j | 0 <= j < globalQueue.Length
        ensures EvenShare(|contents[globalQueue[j]]| - |old(contents)[globalQueue[j]]|, |objects|, globalQueue.Length)
      {
        PostsSpreadEvenly(old(contents), globalQueue[..], old(globalCounter), objects, j);
      }
    }

    /**
     `SerializerQueue::Run`: an object that is run posts any objects, itself among them if it has
     tasks left (`posts`). The loop ends all the same, because such posts cannot land in the queue
     being drained; and each of them is at the end of a queue in a slot.
     */
    method Drain(q: QueueId, posts: Obj -> seq<Obj>) returns (ran: seq<Obj>)
      requires Valid() && q < |contents| && q !in globalQueue[..]
      modifies this`contents, this`globalCounter
      ensures Valid() && |contents| == old(|contents|) && AllQueues(globalQueue[..], old(contents))
      ensures ran == old(contents)[q] && contents[q] == []
      ensures contents
        == PostEach(old(contents)[q := []], globalQueue[..], old(globalCounter), AllPosts(ran, posts))
      ensures globalCounter == old(globalCounter) + |AllPosts(ran, posts)|
    {
      hide Valid, PostEach;
      ghost var slots, ticket := globalQueue[..], globalCounter;
      InRotation();
      ran := [];
      PostsNothing(contents, slots, ticket);
      assert contents[q := contents[q]] == contents;
      while contents[q] != []
        invariant Valid() && |contents| == old(|contents|) && AllQueues(slots, old(contents))
        invariant ran + contents[q] == old(contents)[q]
        invariant contents == PostEach(old(contents)[q := contents[q]], slots, ticket, AllPosts(ran, posts))
        invariant globalCounter == ticket + |AllPosts(ran, posts)|
        decreases |contents[q]|
      {
        ghost var start, done, rest := old(contents), AllPosts(ran, posts), contents[q][1..];
        PostEachElsewhere(start[q := contents[q]], slots, ticket, done, q, rest);
        assert start[q := contents[q]][q := rest] == start[q := rest];
        var executor := PopFront(q);
        PostEachJoins(start[q := rest], slots, ticket, done, posts(executor));
        PostEachElsewhere(contents, slots, globalCounter, posts(executor), q, rest);
        AllPostsOfOne(ran, executor, posts);
        PostAll(posts(executor));
        ran := ran + [executor];
      }
    }

    /** One iteration of `Context::Run` by worker `w`. */
    method Iterate(w: nat, posts: Obj -> seq<Obj>) returns (ran: seq<Obj>)
      requires Valid() && w < |locals|
      modifies this, globalQueue
      ensures Valid() && |contents| == old(|contents|)
      ensures Rotating() == Turn(old(Rotating()), w)
      ensures locals[w] < |contents| && ran == old(contents)[locals[w]] && contents[locals[w]] == []
      ensures locals[w] !in globalQueue[..] && AllQueues(globalQueue[..], old(contents))
      ensures contents
        == PostEach(old(contents)[locals[w] := []], globalQueue[..], old(globalCounter), AllPosts(ran, posts))
      ensures globalCounter == old(globalCounter) + |AllPosts(ran, posts)|
    {
      hide PostEach;
      ghost var before := Rotating();
      TurnPermutes(before, w);
      var swapIndex := swapCounter % globalQueue.Length;
      swapCounter := swapCounter + 1;
      var expected := globalQueue[swapIndex];
      globalQueue[swapIndex] := locals[w];
      waitQueue := waitQueue + [expected];
      locals := locals[w := waitQueue[0]];
      waitQueue := waitQueue[1..];
      assert Rotating() == Turn(before, w);
      var local := locals[w];
      assert local in multiset(locals);
      assert local in Rotating().All();
      ran := Drain(local, posts);
    }

    /**
     `Context::Run`, iteration by iteration: whatever was posted into any slot's queue has been run
     after two rounds, in the order it was posted; and what is stored at the end is what was, less
     what was run, plus everything that posted while it ran: no job is lost.
     */
    method Run(ws: seq<nat>, posts: Obj -> seq<Obj>) returns (queues: seq<QueueId>, ran: seq<seq<Obj>>)
      requires Valid() && Workers(Rotating(), ws)
      modifies this, globalQueue
      ensures Valid() && |contents| == old(|contents|)
      ensures queues == Drained(old(Rotating()), ws) && |ran| == |queues|
      ensures Stored(contents) + multiset(Flat(ran))
        == old(Stored(contents)) + multiset(AllPosts(Flat(ran), posts))
      ensures globalCounter == old(globalCounter) + |AllPosts(Flat(ran), posts)|
      ensures |ws| >= 2 * globalQueue.Length ==>
        forall q :: q in old(globalQueue[..]) ==>
          q < |contents| && HasRun(old(contents)[q], q, queues, ran)
    {
      hide Turn, Valid, Workers, Drained, Kept, HasRun, Stored, PostEach, AllPosts, Flat;
      queues, ran := [], [];
      NothingRan(contents, posts);
      InRotation();
      ghost var before, left := Rotating(), ws;
      forall q | 0 <= q < |contents| ensures Kept(contents[q], q, contents[q], queues, ran) {
        KeptAtFirst(contents[q], q);
      }
      for n := 0 to |ws|
        invariant Valid() && |contents| == old(|contents|) && |queues| == |ran| == n
        invariant left == ws[n..] && Rotating().Valid() && Workers(Rotating(), left)
        invariant queues + Drained(Rotating(), left) == Drained(before, ws)
        invariant forall q :: 0 <= q < |contents| ==> Kept(old(contents)[q], q, contents[q], queues, ran)
        invariant Balanced(old(contents), contents, Flat(ran), posts)
        invariant globalCounter == old(globalCounter) + |AllPosts(Flat(ran), posts)|
      {
        ghost var ticket := globalCounter;
        ghost var queuesBefore, ranBefore, contentsBefore := queues, ran, contents;
        DrainedFirst(Rotating(), left);
        var objects := Iterate(ws[n], posts);
        KeepsPrefixes(contentsBefore, globalQueue[..], ticket, locals[ws[n]], AllPosts(objects, posts));
        BalancedOn(old(contents), contentsBefore, globalQueue[..], ticket, locals[ws[n]], Flat(ran), posts);
        FlatOneMore(ran, objects);
        AllPostsJoin(Flat(ran), objects, posts);
        queues, ran := queues + [locals[ws[n]]], ran + [objects];
        left := left[1..];
        forall q | 0 <= q < |contents| ensures Kept(old(contents)[q], q, contents[q], queues, ran) {
          KeptOn(old(contents)[q], q, contentsBefore[q], contents[q], queuesBefore, ranBefore, queues, ran);
        }
      }
      NothingLeft(Rotating(), left);
      assert queues + [] == queues;
      if |ws| >= 2 * globalQueue.Length {
        forall q | q in before.slots ensures q < |contents| && HasRun(old(contents)[q], q, queues, ran) {
          assert Kept(old(contents)[q], q, contents[q], queues, ran);
          ServedInTime(before, ws, q, old(contents)[q], contents[q], queues, ran);
        }
      }
    }

    lemma InRotation()
      requires Valid()
      ensures Rotating().Valid() && AllQueues(globalQueue[..], contents)
      ensures forall q :: q in globalQueue[..] ==> q < |contents|
      ensures forall i, k :: 0 <= i < k < globalQueue.Length ==> globalQueue[i] != globalQueue[k]
    {
      forall i, k | 0 <= i < k < globalQueue.Length ensures globalQueue[i] != globalQueue[k] {
        assert globalQueue[..][i] in multiset(globalQueue[..]);
        assert globalQueue[i] in Rotating().All();
        if globalQueue[i] == globalQueue[k] { TwiceCountsTwo(globalQueue[..], i, k); }
      }
      forall q | q in globalQueue[..] ensures q < |contents| {
        assert q in multiset(globalQueue[..]);
        assert q in Rotating().All();
      }
      assert forall j :: 0 <= j < globalQueue.Length ==> globalQueue[..][j] in globalQueue[..];
    }
  }

  lemma PostsNothing(contents: seq<seq<Obj>>, slots: seq<QueueId>, ticket: nat)
    requires AllQueues(slots, contents)
    ensures PostEach(contents, slots, ticket, []) == contents
  {
  }

  /** What is stored now and what has run since `start` are what was stored then and what has been posted. */
  ghost predicate Balanced(start: seq<seq<Obj>>, now: seq<seq<Obj>>, ran: seq<Obj>, posts: Obj -> seq<Obj>) {
    Stored(now) + multiset(ran) == Stored(start) + multiset(AllPosts(ran, posts))
  }

  lemma NothingRan(start: seq<seq<Obj>>, posts: Obj -> seq<Obj>)
    ensures Flat([]) == [] && AllPosts([], posts) == [] && Balanced(start, start, [], posts)
  {
  }

  lemma BalancedOn(start: seq<seq<Obj>>, now: seq<seq<Obj>>, slots: seq<QueueId>, ticket: nat, q: QueueId,
                   ran: seq<Obj>, posts: Obj -> seq<Obj>)
    requires Balanced(start, now, ran, posts) && AllQueues(slots, now) && q < |now| && q !in slots
    ensures Balanced(start, PostEach(now[q := []], slots, ticket, AllPosts(now[q], posts)), ran + now[q], posts)
  {
    hide Stored, PostEach, AllPosts;
    var posted := AllPosts(now[q], posts);
    DrainBalances(now, slots, ticket, q, posted);
    AllPostsJoin(ran, now[q], posts);
    Sum(Stored(start), multiset(AllPosts(ran, posts)), Stored(now), multiset(ran),
        Stored(PostEach(now[q := []], slots, ticket, posted)), multiset(now[q]), multiset(posted));
    assert multiset(ran + now[q]) == multiset(ran) + multiset(now[q]);
    assert multiset(AllPosts(ran, posts) + posted) == multiset(AllPosts(ran, posts)) + multiset(posted);
  }

  lemma Sum(start: multiset<Obj>, posted: multiset<Obj>, now: multiset<Obj>, ran: multiset<Obj>,
            after: multiset<Obj>, ranNow: multiset<Obj>, postedNow: multiset<Obj>)
    requires now + ran == start + posted && after + ranNow == now + postedNow
    ensures after + (ran + ranNow) == start + (posted + postedNow)
  {
    forall o: Obj ensures (after + (ran + ranNow))[o] == (start + (posted + postedNow))[o] {
      assert (now + ran)[o] == (start + posted)[o] && (after + ranNow)[o] == (now + postedNow)[o];
    }
  }

  lemma {:induction false} PostsLengthen(contents: seq<seq<Obj>>, slots: seq<QueueId>, ticket: nat, objects: seq<Obj>)
    requires AllQueues(slots, contents)
    ensures forall k :: 0 <= k < |contents| ==> contents[k] <= PostEach(contents, slots, ticket, objects)[k]
    decreases objects
  {
    if objects != [] {
      var q := slots[ticket % |slots|];
      PostsLengthen(contents[q := contents[q] + [objects[0]]], slots, ticket + 1, objects[1..]);
    }
  }

  lemma KeepsPrefixes(contents: seq<seq<Obj>>, slots: seq<QueueId>, ticket: nat, q: QueueId, objects: seq<Obj>)
    requires AllQueues(slots, contents) && q < |contents|
    ensures forall k :: 0 <= k < |contents| && k != q ==>
      contents[k] <= PostEach(contents[q := []], slots, ticket, objects)[k]
  {
    hide PostEach;
    PostsLengthen(contents[q := []], slots, ticket, objects);
  }

  /** What queue `q` once held is still at its front or was run by its first drain. */
  ghost predicate Kept(held: seq<Obj>, q: QueueId, now: seq<Obj>, queues: seq<QueueId>, ran: seq<seq<Obj>>)
    requires |ran| == |queues|
  {
    if q in queues then HasRun(held, q, queues, ran) else held <= now
  }

  ghost predicate HasRun(held: seq<Obj>, q: QueueId, queues: seq<QueueId>, ran: seq<seq<Obj>>)
    requires |ran| == |queues|
  {
    exists i :: 0 <= i < |ran| && queues[i] == q && held <= ran[i]
  }

  lemma KeptAtFirst(held: seq<Obj>, q: QueueId)
    ensures Kept(held, q, held, [], [])
  {
  }

  lemma ServedInTime(r: Rotation, ws: seq<nat>, q: QueueId, held: seq<Obj>, now: seq<Obj>,
                     queues: seq<QueueId>, ran: seq<seq<Obj>>)
    requires r.Valid() && Workers(r, ws) && |ws| >= 2 * |r.slots| && q in r.slots
    requires queues == Drained(r, ws) && |ran| == |queues| && Kept(held, q, now, queues, ran)
    ensures HasRun(held, q, queues, ran)
  {
    var j :| 0 <= j < |r.slots| && r.slots[j] == q;
    SlotIsDrainedWithinTwoRounds(r, ws, j);
    assert q in queues[..2 * |r.slots|];
  }

  lemma NothingLeft(r: Rotation, ws: seq<nat>)
    requires r.Valid() && Workers(r, ws) && ws == []
    ensures Drained(r, ws) == []
  {
  }

  lemma KeptOn(held: seq<Obj>, q: QueueId, before: seq<Obj>, now: seq<Obj>,
               queuesBefore: seq<QueueId>, ranBefore: seq<seq<Obj>>, queues: seq<QueueId>, ran: seq<seq<Obj>>)
    requires |ranBefore| == |queuesBefore| && |ran| == |queues| && Kept(held, q, before, queuesBefore, ranBefore)
    requires |queues| == |queuesBefore| + 1 && queuesBefore <= queues && ranBefore <= ran
    requires if queues[|queuesBefore|] == q then ran[|queuesBefore|] == before else before <= now
    ensures Kept(held, q, now, queues, ran)
  {
    if q in queuesBefore {
      var i :| 0 <= i < |ranBefore| && queuesBefore[i] == q && held <= ranBefore[i];
      assert queues[i] == q && ran[i] == ranBefore[i];
    } else if queues[|queuesBefore|] == q {
      assert held <= ran[|queuesBefore|];
    } else {
      assert forall i :: 0 <= i < |queuesBefore| ==> queues[i] == queuesBefore[i];
      assert forall i :: |queuesBefore| <= i < |queues| ==> queues[i] == queues[|queuesBefore|];
    }
  }

  lemma DrainedFirst(r: Rotation, ws: seq<nat>)
    requires r.Valid() && Workers(r, ws) && ws != []
    ensures ws[0] < |r.locals|
    ensures var next := Turn(r, ws[0]);
      Workers(next, ws[1..]) && Drained(r, ws) == [next.locals[ws[0]]] + Drained(next, ws[1..])
  {
  }
}
