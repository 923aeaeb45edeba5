/** `Context::Post`: where posts go, and that what is posted is there. */
module ContextPosting {
  import opened Arithmetic
  import opened Sequences
  import opened ContextMachine
  import opened ContextProofs

  // ---------------------------------------------------------------- tickets

  lemma SlotsDiffer(ticket: nat, d: nat, n: nat)
    requires 0 < d < n
    ensures ticket % n != (ticket + d) % n
  {
    var q, m := ticket / n, ticket % n;
    if m + d < n {
      assert ticket + d == q * n + (m + d);
      Remainder(q, m + d, n);
    } else {
      assert ticket + d == (q + 1) * n + (m + d - n);
      Remainder(q + 1, m + d - n, n);
    }
  }

  /** How long until the ticket of slot `j` comes up. */
  function Distance(ticket: nat, j: nat, n: nat): nat
    requires j < n
  {
    if ticket % n <= j then j - ticket % n else j + n - ticket % n
  }

  lemma DistanceToSlot(ticket: nat, j: nat, n: nat)
    requires j < n
    ensures Distance(ticket, j, n) < n && (ticket + Distance(ticket, j, n)) % n == j
  {
    var q, m := ticket / n, ticket % n;
    if m <= j {
      assert ticket + (j - m) == q * n + j;
      Remainder(q, j, n);
    } else {
      assert ticket + (j + n - m) == (q + 1) * n + j;
      Remainder(q + 1, j, n);
    }
  }

  lemma NextTicket(ticket: nat, n: nat)
    requires n > 0
    ensures (ticket + 1) % n == if ticket % n == n - 1 then 0 else ticket % n + 1
  {
    var q, m := ticket / n, ticket % n;
    if m == n - 1 {
      assert ticket + 1 == (q + 1) * n + 0;
      Remainder(q + 1, 0, n);
    } else {
      assert ticket + 1 == q * n + (m + 1);
      Remainder(q, m + 1, n);
    }
  }

  /** How many of `k` consecutive tickets name slot `j`. */
  function Hits(ticket: nat, k: nat, n: nat, j: nat): nat
    requires n > 0
    decreases k
  {
    if k == 0 then 0 else (if ticket % n == j then 1 else 0) + Hits(ticket + 1, k - 1, n, j)
  }

  lemma {:induction false} HitsInARound(ticket: nat, k: nat, n: nat, j: nat)
    requires j < n && k <= n
    ensures Hits(ticket, k, n, j) == if Distance(ticket, j, n) < k then 1 else 0
    decreases k
  {
    if k > 0 {
      NextTicket(ticket, n);
      HitsInARound(ticket + 1, k - 1, n, j);
    }
  }

  lemma {:induction false} HitsSplit(ticket: nat, a: nat, b: nat, n: nat, j: nat)
    requires n > 0
    ensures Hits(ticket, a + b, n, j) == Hits(ticket, a, n, j) + Hits(ticket + a, b, n, j)
    decreases a
  {
    if a > 0 { HitsSplit(ticket + 1, a - 1, b, n, j); }
  }

  /** `k` consecutive tickets name each slot the same number of times, rounded up or down: k / n. */
  lemma {:induction false} TicketsAreEven(ticket: nat, k: nat, n: nat, j: nat)
    requires j < n
    ensures k < n * Hits(ticket, k, n, j) + n && n * Hits(ticket, k, n, j) < k + n
    decreases k
  {
    DistanceToSlot(ticket, j, n);
    if k < n {
      HitsInARound(ticket, k, n, j);
    } else {
      HitsInARound(ticket, n, n, j);
      HitsSplit(ticket, n, k - n, n, j);
      TicketsAreEven(ticket + n, k - n, n, j);
      Distributes(n, 1, Hits(ticket + n, k - n, n, j));
    }
  }

  // ---------------------------------------------------------------- posts on values

  predicate AllQueues(slots: seq<QueueId>, contents: seq<seq<Obj>>) {
    slots != [] && forall j :: 0 <= j < |slots| ==> slots[j] < |contents|
  }

  /** The queues after `objects` have been posted one after the other, with no swap between. */
  function PostEach(contents: seq<seq<Obj>>, slots: seq<QueueId>, ticket: nat,
                    objects: seq<Obj>): (after: seq<seq<Obj>>)
    requires AllQueues(slots, contents)
    ensures |after| == |contents|
    decreases objects
  {
    if objects == [] then contents
    else
      var q := slots[ticket % |slots|];
      PostEach(contents[q := contents[q] + [objects[0]]], slots, ticket + 1, objects[1..])
  }

  lemma {:induction false} PostOneMore(contents: seq<seq<Obj>>, slots: seq<QueueId>, ticket: nat,
                                       objects: seq<Obj>, obj: Obj)
    requires AllQueues(slots, contents)
    ensures var before, q := PostEach(contents, slots, ticket, objects), slots[(ticket + |objects|) % |slots|];
      PostEach(contents, slots, ticket, objects + [obj]) == before[q := before[q] + [obj]]
    decreases objects
  {
    if objects == [] {
      assert objects + [obj] == [obj];
    } else {
      assert (objects + [obj])[1..] == objects[1..] + [obj];
      var q := slots[ticket % |slots|];
      PostOneMore(contents[q := contents[q] + [objects[0]]], slots, ticket + 1, objects[1..], obj);
    }
  }

  lemma {:induction false} PostEachJoins(contents: seq<seq<Obj>>, slots: seq<QueueId>, ticket: nat,
                                         first: seq<Obj>, second: seq<Obj>)
    requires AllQueues(slots, contents)
    ensures PostEach(contents, slots, ticket, first + second)
      == PostEach(PostEach(contents, slots, ticket, first), slots, ticket + |first|, second)
    decreases first
  {
    if first == [] {
      assert first + second == second;
    } else {
      assert (first + second)[1..] == first[1..] + second;
      var q := slots[ticket % |slots|];
      PostEachJoins(contents[q := contents[q] + [first[0]]], slots, ticket + 1, first[1..], second);
    }
  }

  /** Posts neither see nor touch a queue that is in no slot. */
  lemma {:induction false} PostEachElsewhere(contents: seq<seq<Obj>>, slots: seq<QueueId>, ticket: nat,
                                             objects: seq<Obj>, q: QueueId, x: seq<Obj>)
    requires AllQueues(slots, contents) && q !in slots && q < |contents|
    ensures PostEach(contents[q := x], slots, ticket, objects) == PostEach(contents, slots, ticket, objects)[q := x]
    ensures PostEach(contents, slots, ticket, objects)[q] == contents[q]
    decreases objects
  {
    if objects != [] {
      var s := slots[ticket % |slots|];
      var next := contents[s := contents[s] + [objects[0]]];
      assert contents[q := x][s := contents[s] + [objects[0]]] == next[q := x];
      PostEachElsewhere(next, slots, ticket + 1, objects[1..], q, x);
    }
  }

  /** Everything posted is stored, in addition to what was there. */
  lemma {:induction false} PostsAreStored(contents: seq<seq<Obj>>, slots: seq<QueueId>, ticket: nat, objects: seq<Obj>)
    requires AllQueues(slots, contents)
    ensures Stored(PostEach(contents, slots, ticket, objects)) == Stored(contents) + multiset(objects)
    decreases objects
  {
    hide Stored;
    if objects == [] {
      assert Stored(contents) + multiset{} == Stored(contents);
    } else {
      var q := slots[ticket % |slots|];
      var next := contents[q := contents[q] + [objects[0]]];
      AddLast(contents, q, objects[0]);
      PostsAreStored(next, slots, ticket + 1, objects[1..]);
      assert objects == [objects[0]] + objects[1..];
      Swap(multiset{objects[0]}, Stored(contents), multiset(objects[1..]));
    }
  }

  lemma Swap(a: multiset<Obj>, b: multiset<Obj>, c: multiset<Obj>)
    ensures (a + b) + c == b + (a + c)
  {
  }

  /** Each post goes to the end of a queue in a slot, and the slots share the posts evenly. */
  lemma {:induction false} PostsSpread(contents: seq<seq<Obj>>, slots: seq<QueueId>, ticket: nat,
                                       objects: seq<Obj>, j: nat)
    requires AllQueues(slots, contents) && j < |slots|
    requires forall i, k :: 0 <= i < k < |slots| ==> slots[i] != slots[k]
    ensures var after := PostEach(contents, slots, ticket, objects);
      && contents[slots[j]] <= after[slots[j]]
      && |after[slots[j]]| == |contents[slots[j]]| + Hits(ticket, |objects|, |slots|, j)
    decreases objects
  {
    if objects != [] {
      var q := slots[ticket % |slots|];
      PostsSpread(contents[q := contents[q] + [objects[0]]], slots, ticket + 1, objects[1..], j);
    }
  }

  /** `more` is k / n, rounded up or down. */
  predicate EvenShare(more: int, k: nat, n: nat) {
    k < n * more + n && n * more < k + n
  }

  /** So `k` posts lengthen every slot's queue by k / n, rounded up or down. */
  lemma PostsSpreadEvenly(contents: seq<seq<Obj>>, slots: seq<QueueId>, ticket: nat, objects: seq<Obj>, j: nat)
    requires AllQueues(slots, contents) && j < |slots|
    requires forall i, k :: 0 <= i < k < |slots| ==> slots[i] != slots[k]
    ensures EvenShare(
      |PostEach(contents, slots, ticket, objects)[slots[j]]| - |contents[slots[j]]|, |objects|, |slots|)
  {
    hide PostEach, Hits;
    PostsSpread(contents, slots, ticket, objects, j);
    TicketsAreEven(ticket, |objects|, |slots|, j);
  }

  // ---------------------------------------------------------------- what running objects post

  /** Everything the objects post while they run, in order. */
  function AllPosts(ran: seq<Obj>, posts: Obj -> seq<Obj>): seq<Obj> {
    if ran == [] then [] else posts(ran[0]) + AllPosts(ran[1..], posts)
  }

  lemma {:induction false} AllPostsJoin(a: seq<Obj>, b: seq<Obj>, posts: Obj -> seq<Obj>)
    ensures AllPosts(a + b, posts) == AllPosts(a, posts) + AllPosts(b, posts)
  {
    if a == [] {
      assert a + b == b;
    } else {
      assert (a + b)[1..] == a[1..] + b;
      AllPostsJoin(a[1..], b, posts);
      Associate(posts(a[0]), AllPosts(a[1..], posts), AllPosts(b, posts));
    }
  }

  lemma AllPostsOfOne(a: seq<Obj>, o: Obj, posts: Obj -> seq<Obj>)
    ensures AllPosts(a + [o], posts) == AllPosts(a, posts) + posts(o)
  {
    AllPostsJoin(a, [o], posts);
    assert posts(o) + [] == posts(o);
  }

  function Flat(runs: seq<seq<Obj>>): seq<Obj> {
    if runs == [] then [] else runs[0] + Flat(runs[1..])
  }

  lemma {:induction false} FlatOneMore(runs: seq<seq<Obj>>, ran: seq<Obj>)
    ensures Flat(runs + [ran]) == Flat(runs) + ran
  {
    if runs == [] {
      assert runs + [ran] == [ran] && ran + [] == ran;
    } else {
      assert (runs + [ran])[1..] == runs[1..] + [ran];
      FlatOneMore(runs[1..], ran);
      Associate(runs[0], Flat(runs[1..]), ran);
    }
  }

  /** A queue is emptied by running its objects: nothing else leaves, and all they post is stored. */
  lemma DrainBalances(contents: seq<seq<Obj>>, slots: seq<QueueId>, ticket: nat, q: QueueId, posted: seq<Obj>)
    requires AllQueues(slots, contents) && q < |contents| && q !in slots
    ensures Stored(PostEach(contents[q := []], slots, ticket, posted)) + multiset(contents[q])
      == Stored(contents) + multiset(posted)
  {
    hide Stored, PostEach;
    StoredUpdate(contents, q, []);
    PostsAreStored(contents[q := []], slots, ticket, posted);
    Exchange(Stored(contents[q := []]), multiset(contents[q]), Stored(contents), multiset(posted));
  }

  lemma Exchange(rest: multiset<Obj>, ran: multiset<Obj>, all: multiset<Obj>, posted: multiset<Obj>)
    requires rest + ran == all + multiset([])
    ensures (rest + posted) + ran == all + posted
  {
    assert all + multiset([]) == all;
    assert (rest + posted) + ran == (rest + ran) + posted;
  }

  // ---------------------------------------------------------------- tickets in any interleaving

  /** The slots that posts are given, in the order of the posts. */
  function PostTickets(s: State, actions: seq<Action>): seq<nat>
    requires Legal(s, actions)
    decreases actions
  {
    if actions == [] then [] else
      var r := Step(s, actions[0]);
      (if actions[0].Post? && r.posters[actions[0].p].Aiming? then [r.posters[actions[0].p].slot] else [])
      + PostTickets(r, actions[1..])
  }

  /** The slots that workers are given, in order. */
  function SwapTickets(s: State, actions: seq<Action>): seq<nat>
    requires Legal(s, actions)
    decreases actions
  {
    if actions == [] then [] else
      var a, r := actions[0], Step(s, actions[0]);
      (if a.WorkerStep? && s.workers[a.w].Ready? && r.workers[a.w].Ticketed? then [r.workers[a.w].slot] else [])
      + SwapTickets(r, actions[1..])
  }

  function Tickets(counter: nat, k: nat, n: nat): seq<nat>
    requires n > 0
  {
    seq(k, i requires 0 <= i < k => (counter + i) % n)
  }

  function Posts(actions: seq<Action>): nat {
    if actions == [] then 0 else (if actions[0].Post? then 1 else 0) + Posts(actions[1..])
  }

  lemma TicketsOneMore(counter: nat, k: nat, n: nat)
    requires n > 0
    ensures [counter % n] + Tickets(counter + 1, k, n) == Tickets(counter, k + 1, n)
  {
  }

  lemma OneStep(s: State, a: Action)
    requires Enabled(s, a)
    ensures var r := Step(s, a);
      && |r.slots| == |s.slots| && |r.posters| == |s.posters| && |r.workers| == |s.workers|
      && r.globalCounter == s.globalCounter + (if a.Post? then 1 else 0)
      && (a.Post? ==> r.posters[a.p] == Aiming(a.obj, s.globalCounter % |s.slots|))
  {
  }

  /** Whatever happens in between, every post is given a slot, and consecutive posts consecutive slots. */
  lemma {:induction false} PostsTakeTurns(s: State, actions: seq<Action>)
    requires s.slots != [] && Legal(s, actions)
    ensures PostTickets(s, actions) == Tickets(s.globalCounter, Posts(actions), |s.slots|)
    decreases actions
  {
    hide Step, Enabled;
    if actions != [] {
      OneStep(s, actions[0]);
      PostsTakeTurns(Step(s, actions[0]), actions[1..]);
      TicketsOneMore(s.globalCounter, Posts(actions[1..]), |s.slots|);
    }
  }

  lemma OneSwapStep(s: State, a: Action)
    requires Enabled(s, a)
    ensures var r, ready := Step(s, a), a.WorkerStep? && s.workers[a.w].Ready?;
      && |r.slots| == |s.slots| && |r.workers| == |s.workers|
      && r.swapCounter == s.swapCounter + (if ready then 1 else 0)
      && (ready ==> r.workers[a.w] == Ticketed(s.workers[a.w].local, s.swapCounter % |s.slots|))
  {
  }

  function Turns(s: State, actions: seq<Action>): nat
    requires Legal(s, actions)
    decreases actions
  {
    if actions == [] then 0 else
      (if actions[0].WorkerStep? && s.workers[actions[0].w].Ready? then 1 else 0)
      + Turns(Step(s, actions[0]), actions[1..])
  }

  /** And so are the workers' turns. */
  lemma {:induction false} WorkersTakeTurns(s: State, actions: seq<Action>)
    requires s.slots != [] && Legal(s, actions)
    ensures SwapTickets(s, actions) == Tickets(s.swapCounter, Turns(s, actions), |s.slots|)
    decreases actions
  {
    hide Step, Enabled;
    if actions != [] {
      OneSwapStep(s, actions[0]);
      WorkersTakeTurns(Step(s, actions[0]), actions[1..]);
      TicketsOneMore(s.swapCounter, Turns(Step(s, actions[0]), actions[1..]), |s.slots|);
    }
  }

  /** Any `n` of consecutive tickets name different slots. */
  lemma ConsecutiveSlotsDiffer(counter: nat, k: nat, n: nat)
    requires n > 0
    ensures forall i, j :: 0 <= i < j < k && j - i < n ==> Tickets(counter, k, n)[i] != Tickets(counter, k, n)[j]
  {
    forall i, j | 0 <= i < j < k && j - i < n ensures Tickets(counter, k, n)[i] != Tickets(counter, k, n)[j] {
      SlotsDiffer(counter + i, j - i, n);
    }
  }
}
