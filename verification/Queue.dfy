/** The intrusive doubly linked list of common/Queue.cc.

    `Elements` is the ghost view of the list, head first.  An element carries its payload in `obj`,
    which stays fixed while the element is in use (the source derives the payload class from
    QueueElement instead).  */
module IntrusiveQueue {

  class QueueElement<T> {
    var pNext: QueueElement?<T>
    var pPrevious: QueueElement?<T>
    const obj: T

    constructor (obj: T)
      ensures this.obj == obj && pNext == null && pPrevious == null
    {
      this.obj := obj;
      pNext, pPrevious := null, null;
    }
  }

  ghost predicate Distinct<X>(s: seq<X>)
  {
    forall i, j :: 0 <= i < j < |s| ==> s[i] != s[j]
  }

  function Without<X>(s: seq<X>, k: nat): (r: seq<X>)
    requires k < |s|
    ensures |r| == |s| - 1
    ensures forall i :: 0 <= i < |r| ==> r[i] == if i < k then s[i] else s[i + 1]
  {
    s[..k] + s[k + 1..]
  }

  function InsertAt<X>(s: seq<X>, k: nat, x: X): (r: seq<X>)
    requires k <= |s|
    ensures |r| == |s| + 1
    ensures forall i :: 0 <= i < |r| ==> r[i] == if i < k then s[i] else if i == k then x else s[i - 1]
  {
    s[..k] + [x] + s[k..]
  }

  lemma {:induction false} DistinctInsertAt<X>(s: seq<X>, k: nat, x: X)
    requires k <= |s| && Distinct(s) && x !in s
    ensures Distinct(InsertAt(s, k, x))
  {
  }

  lemma {:induction false} DistinctWithout<X>(s: seq<X>, k: nat)
    requires k < |s| && Distinct(s)
    ensures Distinct(Without(s, k)) && s[k] !in Without(s, k)
  {
  }

  /** The payloads of a row of elements. */
  ghost function Objects<T>(es: seq<QueueElement<T>>): (r: seq<T>)
    ensures |r| == |es| && forall i :: 0 <= i < |es| ==> r[i] == es[i].obj
  {
    seq(|es|, i requires 0 <= i < |es| => es[i].obj)
  }

  lemma {:induction false} ObjectsInsertAt<T>(es: seq<QueueElement<T>>, k: nat, e: QueueElement<T>)
    requires k <= |es|
    ensures Objects(InsertAt(es, k, e)) == InsertAt(Objects(es), k, e.obj)
  {
  }

  /** Element i of the row points to its two neighbours. */
  ghost predicate Linked<T>(es: seq<QueueElement<T>>, i: nat)
    requires i < |es|
    reads es[i]
  {
    && es[i].pPrevious == (if i == 0 then null else es[i - 1])
    && es[i].pNext == (if i == |es| - 1 then null else es[i + 1])
  }

  class Queue<T> {
    var pHead: QueueElement?<T>
    var pTail: QueueElement?<T>
    var pSize: nat

    ghost var Elements: seq<QueueElement<T>>

    /** Every link agrees with `Elements`, in both directions. */
    ghost predicate Valid()
      reads this, Elements
    {
      && pSize == |Elements|
      && Distinct(Elements)
      && pHead == (if Elements == [] then null else Elements[0])
      && pTail == (if Elements == [] then null else Elements[|Elements| - 1])
      && (forall i :: 0 <= i < |Elements| ==> Linked(Elements, i))
    }

    constructor ()
      ensures Valid() && Elements == []
    {
      pHead, pTail, pSize, Elements := null, null, 0, [];
    }

    method EnqueueBefore(entry: QueueElement<T>, before: QueueElement<T>, ghost k: nat)
      requires Valid() && entry !in Elements
      requires k < |Elements| && Elements[k] == before
      modifies this, Elements`pNext, Elements`pPrevious, entry`pNext, entry`pPrevious
      ensures Valid()
      ensures Elements == InsertAt(old(Elements), k, entry)
    {
      assert Linked(Elements, k);
      if before.pPrevious != null {
        before.pPrevious.pNext := entry;
      } else {
        pHead := entry;
      }
      entry.pNext := before;
      entry.pPrevious := before.pPrevious;
      before.pPrevious := entry;
      pSize := pSize + 1;
      DistinctInsertAt(Elements, k, entry);
      Elements := InsertAt(Elements, k, entry);
      forall i | 0 <= i < |Elements| ensures Linked(Elements, i) {
        if i != k {
          ghost var j := if i < k then i else i - 1;
          assert Elements[i] == old(Elements)[j];
          assert old(Linked(Elements, j));
          if i != k - 1 && i != k + 1 {
            assert Elements[i] != before;
            assert k > 0 ==> Elements[i] != old(Elements)[k - 1];
            assert Elements[i].pNext == old(Elements[j].pNext) && Elements[i].pPrevious == old(Elements[j].pPrevious);
          }
        }
      }
    }

    /** Appends, unless the walk finds the entry in the list already. */
    method Enqueue(entry: QueueElement<T>)
      requires Valid()
      modifies this, Elements`pNext, Elements`pPrevious, entry`pNext, entry`pPrevious
      ensures Valid()
      ensures Elements == if entry in old(Elements) then old(Elements) else old(Elements) + [entry]
    {
      var curElement := pHead;
      ghost var i := 0;
      while curElement != null
        invariant 0 <= i <= |Elements|
        invariant curElement == if i == |Elements| then null else Elements[i]
        invariant entry !in Elements[..i]
        decreases |Elements| - i
      {
        if curElement == entry {
          return;
        }
        assert Linked(Elements, i);
        curElement := curElement.pNext;
        i := i + 1;
      }
      EnqueueFast(entry);
    }

    /** Appends without a check: sound only for an entry that is not in this list. */
    method EnqueueFast(entry: QueueElement<T>)
      requires Valid() && entry !in Elements
      modifies this, Elements`pNext, Elements`pPrevious, entry`pNext, entry`pPrevious
      ensures Valid()
      ensures Elements == old(Elements) + [entry]
    {
      if pHead == null && pTail == null {
        pHead := entry;
        pTail := entry;
        entry.pNext := null;
        entry.pPrevious := null;
      } else {
        entry.pNext := null;
        entry.pPrevious := pTail;
        pTail.pNext := entry;
        pTail := entry;
      }
      pSize := pSize + 1;
      Elements := Elements + [entry];
      forall i | 0 <= i < |Elements| ensures Linked(Elements, i) {
        assert i < |old(Elements)| ==> old(Linked(Elements, i));
      }
    }

    method DequeueFirst() returns (retVal: QueueElement?<T>)
      requires Valid()
      modifies this, Elements`pNext, Elements`pPrevious
      ensures Valid()
      ensures old(Elements) == [] ==> retVal == null && Elements == []
      ensures old(Elements) != [] ==> retVal == old(Elements)[0] && Elements == old(Elements)[1..]
      ensures retVal != null ==> retVal.pNext == null && retVal.pPrevious == null
    {
      if pHead == null {
        return null;
      }
      assert Linked(Elements, 0);
      if pHead == pTail {
        retVal := pHead;
        pHead := null;
        pTail := null;
      } else {
        retVal := pHead;
        pHead := pHead.pNext;
        pHead.pPrevious := null;
      }
      pSize := pSize - 1;
      retVal.pNext := null;
      retVal.pPrevious := null;
      Elements := Elements[1..];
      forall i | 0 <= i < |Elements| ensures Linked(Elements, i) {
        assert old(Linked(Elements, i + 1));
      }
    }

    /** The element at `pos` without removing it, null past the end. */
    method Get(pos: nat) returns (curElement: QueueElement?<T>)
      requires Valid()
      ensures curElement == if pos < |Elements| then Elements[pos] else null
    {
      if pos >= pSize {
        return null;
      }
      curElement := pHead;
      var left := pos;
      while left != 0 && curElement != null
        invariant 0 <= left <= pos
        invariant curElement == Elements[pos - left]
      {
        assert Linked(Elements, pos - left);
        curElement := curElement.pNext;
        left := left - 1;
      }
    }

    method Dequeue(pos: nat) returns (curElement: QueueElement?<T>)
      requires Valid()
      modifies this, Elements`pNext, Elements`pPrevious
      ensures Valid()
      ensures pos >= |old(Elements)| ==> curElement == null && Elements == old(Elements)
      ensures pos < |old(Elements)| ==> curElement == old(Elements)[pos] && Elements == Without(old(Elements), pos)
    {
      curElement := Get(pos);
      if curElement != null {
        RemoveElementFromList(curElement, pos);
      }
    }

    /** Removes the element if it is in the list, otherwise leaves everything as it is. */
    method Remove(element: QueueElement<T>)
      requires Valid()
      modifies this, Elements`pNext, Elements`pPrevious
      ensures Valid()
      ensures element !in old(Elements) ==> Elements == old(Elements)
      ensures forall k :: 0 <= k < |old(Elements)| && old(Elements)[k] == element ==>
                Elements == Without(old(Elements), k)
    {
      var pos := 0;
      var curElement := pHead;
      while curElement != null && curElement != element
        invariant 0 <= pos <= |Elements|
        invariant curElement == if pos == |Elements| then null else Elements[pos]
        invariant element !in Elements[..pos]
        decreases |Elements| - pos
      {
        assert Linked(Elements, pos);
        curElement := curElement.pNext;
        pos := pos + 1;
      }
      if curElement != null {
        RemoveElementFromList(curElement, pos);
      }
    }

    method RemoveElementFromList(element: QueueElement<T>, ghost k: nat)
      requires Valid()
      requires k < |Elements| && Elements[k] == element
      modifies this, Elements`pNext, Elements`pPrevious
      ensures Valid()
      ensures Elements == Without(old(Elements), k)
      ensures element.pNext == null && element.pPrevious == null
    {
      assert Linked(Elements, k);
      if pHead == element {
        pHead := element.pNext;
      }
      if pTail == element {
        pTail := element.pPrevious;
      }
      if element.pPrevious != null {
        element.pPrevious.pNext := element.pNext;
      }
      if element.pNext != null {
        element.pNext.pPrevious := element.pPrevious;
      }
      pSize := pSize - 1;
      element.pNext := null;
      element.pPrevious := null;
      DistinctWithout(Elements, k);
      Elements := Without(Elements, k);
      forall i | 0 <= i < |Elements| ensures Linked(Elements, i) {
        if i < k {
          assert old(Linked(Elements, i));
        } else {
          assert old(Linked(Elements, i + 1));
        }
      }
    }

    method ClearList()
      requires Valid()
      modifies this, Elements`pNext, Elements`pPrevious
      ensures Valid() && Elements == [] && pSize == 0
      ensures forall e <- old(Elements) :: e.pNext == null && e.pPrevious == null
    {
      ghost var all := Elements;
      var first := DequeueFirst();
      ghost var done := if first == null then 0 else 1;
      while first != null
        invariant Valid()
        invariant 0 <= done <= |all| && Elements == all[done..]
        invariant first == null ==> Elements == []
        invariant first != null ==> done > 0
        invariant forall i :: 0 <= i < done ==> all[i].pNext == null && all[i].pPrevious == null
        decreases |all| - done, first != null
      {
        first := DequeueFirst();
        if first != null {
          done := done + 1;
        }
      }
    }
  }
}
