module TaggedPointers {
  type Ptr = nat

  const NULL: Ptr := 0

  /** A pointer with a modification tag; equality compares both parts. */
  datatype TaggedPtr = TaggedPtr(ptr: Ptr, tag: nat) {
    function NextTag(): nat { tag + 1 }
  }

  const NULL_HANDLE := TaggedPtr(NULL, 0)

  /** However much memory is in use, there is more. */
  lemma {:induction false} SystemHasMemory(used: set<Ptr>) returns (bound: Ptr)
    ensures forall n :: n in used ==> n < bound
    decreases used
  {
    if used == {} {
      bound := 0;
    } else {
      var n :| n in used;
      var rest := SystemHasMemory(used - {n});
      assert forall m :: m in used ==> m == n || m in used - {n};
      bound := if n < rest then rest else n + 1;
    }
  }
}
