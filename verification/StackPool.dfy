/** The pool of NR_CPUS execution stacks of eventhandling/StackPool.cc.  A stack is named by its
    index; the source derives the stack pointer from the index and back. */
module Stacks {
  import opened EventTypes
  import opened Dispatch
  import DispatchProofs

  /** Stack i is free, and every stack from `from` up to it, going round, is used. */
  ghost predicate FirstFree(used: seq<bool>, from: nat, i: nat)
  {
    && from < |used| && i < |used| && !used[i]
    && (from <= i ==> forall k :: from <= k < i ==> used[k])
    && (i < from ==> forall k :: 0 <= k < |used| && (k < i || from <= k) ==> used[k])
  }

  lemma {:induction false} FreeStackIsFirst(used: seq<bool>, from: nat)
    requires from < |used|
    ensures match FreeStack(used, from, |used|)
            case Some(i) => FirstFree(used, from, i)
            case None => forall k :: 0 <= k < |used| ==> used[k]
  {
    match FreeStack(used, from, |used|)
    case Some(_) => DispatchProofs.FoundIsFirst(used, from, |used|);
    case None => DispatchProofs.NoFreeStack(used, from, |used|);
  }

  lemma {:induction false} NextIndex(p: nat, n: nat)
    requires p < n
    ensures (p + 1) % n == if p + 1 == n then 0 else p + 1
  {
    if p + 1 < n {
      Small(p + 1, n);
    }
  }

  lemma {:induction false} Small(x: nat, n: nat)
    requires x < n
    ensures x % n == x
  {
  }

  class StackPool {
    const mUsedStacks: array<bool>
    var mUsedPointer: nat

    ghost predicate Valid()
      reads this
    {
      mUsedPointer < mUsedStacks.Length
    }

    constructor (cpus: nat)
      requires cpus > 0
      ensures Valid() && fresh(mUsedStacks) && mUsedStacks.Length == cpus && mUsedPointer == 0
      ensures forall i :: 0 <= i < cpus ==> !mUsedStacks[i]
    {
      mUsedStacks := new bool[cpus](_ => false);
      mUsedPointer := 0;
    }

    /** Walks round once from the last position and takes the first free stack. */
    method GetFreeStack() returns (stack: Option<nat>)
      requires Valid()
      modifies this, mUsedStacks
      ensures Valid()
      ensures stack == FreeStack(old(mUsedStacks[..]), old(mUsedPointer), mUsedStacks.Length)
      ensures stack.Some? ==> FirstFree(old(mUsedStacks[..]), old(mUsedPointer), stack.value)
      ensures stack.None? ==> forall k :: 0 <= k < mUsedStacks.Length ==> old(mUsedStacks[k])
      ensures stack.Some? ==> mUsedStacks[..] == old(mUsedStacks[..])[stack.value := true] && mUsedPointer == stack.value
      ensures stack.None? ==> mUsedStacks[..] == old(mUsedStacks[..]) && mUsedPointer == old(mUsedPointer)
    {
      var lastPointer := mUsedPointer;
      ghost var used := mUsedStacks[..];
      FreeStackIsFirst(used, lastPointer);
      ghost var tries := mUsedStacks.Length;
      var more := true;
      while more
        invariant mUsedPointer < mUsedStacks.Length && mUsedStacks[..] == used
        invariant 0 <= tries <= |used|
        invariant mUsedPointer == if lastPointer < tries then lastPointer + |used| - tries else lastPointer - tries
        invariant more <==> tries > 0
        invariant FreeStack(used, lastPointer, |used|) == FreeStack(used, mUsedPointer, tries)
        decreases tries
      {
        if mUsedStacks[mUsedPointer] == false {
          mUsedStacks[mUsedPointer] := true;
          return Some(mUsedPointer);
        }
        NextIndex(mUsedPointer, |used|);
        mUsedPointer := (mUsedPointer + 1) % mUsedStacks.Length;
        tries := tries - 1;
        more := mUsedPointer != lastPointer;
      }
      return None;
    }

    /** Returns the stack whose index the walk finds; anything else is ignored. */
    method SetStackFree(stack: nat)
      modifies mUsedStacks
      ensures mUsedStacks[..] == if stack < mUsedStacks.Length then old(mUsedStacks[..])[stack := false]
                                 else old(mUsedStacks[..])
    {
      for i := 0 to mUsedStacks.Length
        invariant mUsedStacks[..] == old(mUsedStacks[..])
        invariant stack >= i
      {
        if i == stack {
          mUsedStacks[i] := false;
          return;
        }
      }
    }
  }
}
