/** NullableDeque: an ArrayDeque used as a stack that also accepts null. */
module NullableDeque {
  import opened Wrappers

  /** A deque cell: a stored element, or the private NULL sentinel that stands for null. */
  datatype Slot<T> = Element(value: T) | NullSentinel

  function ToSlot<T>(e: Option<T>): Slot<T>
  {
    if e.Some? then Element(e.value) else NullSentinel
  }

  function FromSlot<T>(s: Slot<T>): Option<T>
  {
    if s.Element? then Some(s.value) else None
  }

  /** pop undoes push's translation: null comes back as null, any element unchanged. */
  lemma SlotRoundTrip<T>(e: Option<T>)
    ensures FromSlot(ToSlot(e)) == e
    ensures e.None? <==> ToSlot(e) == NullSentinel
  {
  }

  class NullableDeque<T> {
    /** The deque's cells, head (top of stack) first. */
    var slots: seq<Slot<T>>

    constructor (numElements: int)
      ensures slots == []
    {
      slots := [];
    }

    /** push: a null is stored as the sentinel, at the head. */
    method Push(e: Option<T>)
      modifies this
      ensures slots == [ToSlot(e)] + old(slots)
    {
      slots := [ToSlot(e)] + slots;
    }

    /** pop: removes the head; the sentinel comes back as null; an empty deque throws. */
    method Pop() returns (r: Result<Option<T>, string>)
      modifies this
      ensures old(slots) == [] ==> r == Err("NoSuchElementException") && slots == old(slots)
      ensures old(slots) != [] ==> r == Ok(FromSlot(old(slots)[0])) && slots == old(slots)[1..]
    {
      if slots == [] {
        return Err("NoSuchElementException");
      }
      var head := slots[0];
      slots := slots[1..];
      return Ok(FromSlot(head));
    }

    /** peek, inherited unchanged: it sees the sentinel itself. */
    function Peek(): (r: Option<Slot<T>>)
      reads this
      ensures slots == [] <==> r == None
      ensures slots != [] ==> r == Some(slots[0])
    {
      if slots == [] then None else Some(slots[0])
    }
  }

  /** Last in, first out, with null surviving the round trip. */
  method PushPopOrder<T>(a: T) returns (first: Result<Option<T>, string>, second: Result<Option<T>, string>)
    ensures first == Ok(None) && second == Ok(Some(a))
  {
    var d := new NullableDeque<T>(8);
    d.Push(Some(a));
    d.Push(None);
    first := d.Pop();
    second := d.Pop();
  }
}
