/**
 The retry loops of `freelist_stack` themselves, run while other threads allocate, free and write
 between any two accesses. `others` holds what they are going to do; how much of it happens at
 each point is arbitrary.
 */
module FreeListObject {
  import opened TaggedPointers
  import opened FreeList

  /** A step of another thread leaves thread `t` where it is, and may hand it a node. */
  lemma OthersKeep(s: State, a: Action, t: nat)
    requires Inv(s) && Enabled(s, a) && a.t != t && t < |s.threads|
    ensures |Step(s, a).threads| == |s.threads|
    ensures Step(s, a).threads[t] == s.threads[t].(owned := s.threads[t].owned + Received(a, t))
    ensures Received(a, t) !! s.threads[t].owned
  {
    if a.HandOver? && a.u == t {
      MayStep(s, a.t);
    } else {
      assert s.threads[t].owned + {} == s.threads[t].owned;
    }
  }

  /** What the step puts into thread `t`'s hands. */
  function Received(a: Action, t: nat): set<Ptr> {
    if a.HandOver? && a.u == t then {a.node} else {}
  }

  /** The thread may go on, and what it holds is its own. */
  lemma MayStep(s: State, t: nat)
    requires Inv(s) && t < |s.threads|
    ensures s.threads[t].at.AllocRead? && s.threads[t].at.top.ptr != NULL ==> s.threads[t].at.top.ptr in s.next
    ensures s.threads[t].at.AllocSwap? && s.top == s.threads[t].at.top ==> s.top.ptr !in s.threads[t].owned
    ensures forall n :: n in s.threads[t].owned ==> n != NULL && n in s.next && n !in s.listed
    ensures forall u, n :: 0 <= u < |s.threads| && u != t && n in s.threads[t].owned ==> n !in s.threads[u].owned
  {
    assert ThreadOk(s, s.threads[t]);
    if s.threads[t].at.AllocSwap? && s.top == s.threads[t].at.top { SwapIsAbaSafe(s, t); }
  }

  class FreeListStack {
    var top: TaggedPtr
    var next: map<Ptr, TaggedPtr>

    // where every thread stands, what the others are about to do, and the history
    var threads: seq<Thread>
    var listed: seq<Ptr>
    var allocations: nat
    var others: seq<Action>
    ghost var swaps: nat  // how often the top has changed

    function View(): State
      reads this
    {
      State(top, next, threads, listed, allocations)
    }

    ghost predicate Valid()
      reads this
    {
      Inv(View())
    }

    constructor (threads: nat, others: seq<Action>)
      ensures Valid() && View() == Init(threads)
    {
      top, next, this.threads, listed := NULL_HANDLE, map[], seq(threads, _ => Thread(Idle, {})), [];
      allocations, this.others, swaps := 0, others, 0;
    }

    /** Books the access just made to `top` and `next` as step `a` from `s`. */
    method Record(a: Action, s: State)
      requires Inv(s) && Enabled(s, a)
      requires threads == s.threads && listed == s.listed && allocations == s.allocations
      requires top == Step(s, a).top && next == Step(s, a).next
      modifies `threads, `listed, `allocations, `swaps
      ensures Valid() && View() == Step(s, a)
      ensures swaps == old(swaps) + if top != s.top then 1 else 0
    {
      hide Inv;
      StepInv(s, a);
      var r := Step(s, a);
      threads, listed, allocations := r.threads, r.listed, r.allocations;
      swaps := swaps + if top != s.top then 1 else 0;
    }

    /** Some of what the other threads have in mind happens, possibly none; they may hand over nodes. */
    method Interfere(t: nat) returns (ghost received: set<Ptr>)
      requires Valid() && t < |threads|
      modifies this
      ensures Valid() && |threads| == old(|threads|) && received !! old(threads[t].owned)
      ensures threads[t] == old(threads[t]).(owned := old(threads[t].owned) + received)
      ensures swaps >= old(swaps) && |others| <= old(|others|)
      ensures top != old(top) ==> swaps > old(swaps) && |others| < old(|others|)
    {
      hide Inv, Enabled, Step, Received;
      received := {};
      var k: nat :| k <= |others|;
      while k > 0 && others != []
        invariant Valid() && |threads| == old(|threads|) && received !! old(threads[t].owned)
        invariant threads[t] == old(threads[t]).(owned := old(threads[t].owned) + received)
        invariant swaps >= old(swaps) && |others| <= old(|others|)
        invariant top != old(top) ==> swaps > old(swaps) && |others| < old(|others|)
      {
        var a := others[0];
        others, k := others[1..], k - 1;
        var s := View();
        if a.t != t && Enabled(s, a) {
          OthersKeep(s, a, t);
          top, next := Step(s, a).top, Step(s, a).next;
          Record(a, s);
          received := Add(old(threads[t].owned), received, Received(a, t));
        }
      }
    }

    /** `Interfere` when thread `t` has `received` nodes beside those it `owned`. */
    method Meanwhile(t: nat, ghost owned: set<Ptr>, ghost received: set<Ptr>) returns (ghost all: set<Ptr>)
      requires Valid() && t < |threads| && threads[t].owned == owned + received && received !! owned
      modifies this
      ensures Valid() && |threads| == old(|threads|) && received <= all && all !! owned
      ensures threads[t] == Thread(old(threads[t].at), owned + all)
      ensures swaps >= old(swaps) && |others| <= old(|others|)
      ensures top != old(top) ==> swaps > old(swaps) && |others| < old(|others|)
    {
      hide Inv;
      ghost var more := Interfere(t);
      all := Add(owned, received, more);
    }

    /** Memory nobody has ever seen, from the system. */
    method FromSystem() returns (spare: Ptr)
      ensures spare != NULL && spare !in next
    {
      ghost var bound := SystemHasMemory(next.Keys);
      assert bound + 1 !in next.Keys;
      spare :| spare != NULL && spare !in next;
    }

    /**
     A node that is the caller's alone, `recycled` from the list or new from the system, beside what
     others hand over meanwhile. Every failed round is paid for by a change of the top that another
     thread made; the caller's own change, if it made one, is not counted.
     */
    method Allocate(t: nat)
        returns (node: Ptr, ghost received: set<Ptr>, ghost failed: nat, ghost recycled: bool)
      requires Valid() && t < |threads| && threads[t].at.Idle?
      modifies this
      ensures Valid() && |threads| == old(|threads|) && node != NULL
      ensures threads[t] == Thread(Idle, old(threads[t].owned) + received + {node})
      ensures received !! old(threads[t].owned) && node !in old(threads[t].owned) + received
      ensures node !in listed && forall u :: 0 <= u < |threads| && u != t ==> node !in threads[u].owned
      ensures failed + (if recycled then 1 else 0) <= swaps - old(swaps)
    {
      hide Inv;
      failed, recycled := 0, false;
      received := Interfere(t);
      var top := this.top;
      Record(BeginAllocate(t), View());
      while true
        invariant Valid() && |threads| == old(|threads|) && top == this.top
        invariant received !! old(threads[t].owned)
        invariant threads[t] == Thread(AllocRead(top), old(threads[t].owned) + received)
        invariant failed <= swaps - old(swaps)
        decreases |others|
      {
        received := Meanwhile(t, old(threads[t].owned), received);
        MayStep(View(), t);
        var s := View();
        if top.ptr == NULL {
          node := FromSystem();
          next := next[node := NULL_HANDLE];
          Record(Advance(t, node), s);
          MayStep(s, t);
          MayStep(View(), t);
          return;
        }
        var successor := next[top.ptr].ptr;
        Record(Advance(t, NULL), s);

        received := Meanwhile(t, old(threads[t].owned), received);
        MayStep(View(), t);
        s := View();
        if this.top == top {
          this.top := TaggedPtr(successor, top.NextTag());
          Record(Advance(t, NULL), s);
          MayStep(View(), t);
          node, recycled := top.ptr, true;
          return;
        }
        Record(Advance(t, NULL), s);
        top := this.top;
        failed := failed + 1;
      }
    }

    /** Gives `node` up, whoever allocated it; again others' changes pay for every failed round. */
    method Deallocate(t: nat, node: Ptr) returns (ghost received: set<Ptr>, ghost failed: nat)
      requires Valid() && t < |threads| && threads[t].at.Idle? && node in threads[t].owned
      modifies this
      ensures Valid() && |threads| == old(|threads|)
      ensures threads[t] == Thread(Idle, old(threads[t].owned) + received - {node})
      ensures received !! old(threads[t].owned)
      ensures listed != [] && listed[0] == node && top.ptr == node
      ensures failed < swaps - old(swaps)
    {
      hide Inv;
      failed := 0;
      received := Interfere(t);
      var top := this.top;
      Record(BeginDeallocate(t, node), View());
      while true
        invariant Valid() && |threads| == old(|threads|) && top == this.top
        invariant received !! old(threads[t].owned)
        invariant threads[t] == Thread(FreeWrite(node, top), old(threads[t].owned) + received)
        invariant failed <= swaps - old(swaps)
        decreases |others|
      {
        received := Meanwhile(t, old(threads[t].owned), received);
        var s := View();
        next := next[node := TaggedPtr(top.ptr, 0)];
        Record(Advance(t, NULL), s);

        received := Meanwhile(t, old(threads[t].owned), received);
        s := View();
        if this.top == top {
          NotTheTop(s, t, node);
          this.top := TaggedPtr(node, top.tag);
          Record(Advance(t, NULL), s);
          return;
        }
        Record(Advance(t, NULL), s);
        top := this.top;
        failed := failed + 1;
      }
    }
  }

  /** What was received before and what has been received since. */
  ghost function Add(owned: set<Ptr>, received: set<Ptr>, more: set<Ptr>): (all: set<Ptr>)
    requires received !! owned && more !! owned + received
    ensures all == received + more && owned + all == owned + received + more && all !! owned
  {
    received + more
  }

  lemma NotTheTop(s: State, t: nat, node: Ptr)
    requires Inv(s) && t < |s.threads| && node in s.threads[t].owned
    ensures node != s.top.ptr
  {
    MayStep(s, t);
  }
}
