// The fixed-capacity rings that every audio stage keeps: an array, a head index and a size,
// element i living at slot (head + i) % capacity.
module Ring {

  /** The slot arithmetic never leaves the array and never maps two live elements together. */
  lemma SlotWraps(head: nat, i: nat, capacity: nat)
    requires head < capacity && i <= capacity
    ensures (head + i) % capacity == if head + i < capacity then head + i else head + i - capacity
  {
  }

  class Ring<T(0)> {
    const slots: array<T>
    var head: nat
    var size: nat

    ghost predicate Valid()
      reads this
    {
      head < slots.Length && size <= slots.Length
    }

    ghost function Slot(i: nat): (k: nat)
      requires Valid() && i < slots.Length
      reads this
      ensures k < slots.Length
    {
      if head + i < slots.Length then head + i else head + i - slots.Length
    }

    /** The queued elements, oldest first. */
    ghost function Contents(): (s: seq<T>)
      requires Valid()
      reads this, slots
      ensures |s| == size
    {
      seq(size, i requires 0 <= i < size && Valid() reads this, slots => slots[Slot(i)])
    }

    constructor (capacity: nat)
      requires capacity > 0
      ensures Valid() && fresh(slots) && slots.Length == capacity && Contents() == []
    {
      slots := new T[capacity];
      head, size := 0, 0;
    }

    method Get(i: nat) returns (x: T)
      requires Valid() && i < size
      ensures x == Contents()[i]
    {
      SlotWraps(head, i, slots.Length);
      x := slots[(head + i) % slots.Length];
    }

    method PushBack(x: T)
      requires Valid() && size < slots.Length
      modifies this`size, slots
      ensures Valid() && size == old(size) + 1
      ensures Contents() == old(Contents()) + [x]
    {
      SlotWraps(head, size, slots.Length);
      slots[(head + size) % slots.Length] := x;
      size := size + 1;
    }

    method DropFront(count: nat)
      requires Valid() && count <= size
      modifies this`head, this`size
      ensures Valid() && size == old(size) - count
      ensures Contents() == old(Contents())[count..]
    {
      SlotWraps(head, count, slots.Length);
      head := (head + count) % slots.Length;
      size := size - count;
    }

    method Clear()
      requires Valid()
      modifies this`head, this`size
      ensures Valid() && Contents() == []
    {
      head, size := 0, 0;
    }
  }
}
