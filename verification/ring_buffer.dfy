/**
 * The fixed-capacity double-ended ring buffer of the input library.
 *
 * Elements live in `buffer[begin]`, `buffer[Next(begin)]`, ... for `size` slots. Pushing onto
 * a full buffer evicts the element at the opposite end. The ghost field `Contents` is the
 * logical sequence, front first; `Valid()` ties it to the array.
 */
module RingBuffers {
  import opened Integers

  /** The slot after `index`, wrapping from the last slot back to 0. */
  function Next(index: nat, capacity: nat): (r: nat)
    requires index < capacity
    ensures r < capacity
    ensures r == (index + 1) % capacity
  {
    if index == capacity - 1 then 0 else index + 1
  }

  /** The slot before `index`, wrapping from slot 0 to the last slot. */
  function Previous(index: nat, capacity: nat): (r: nat)
    requires index < capacity
    ensures r < capacity
    ensures Next(r, capacity) == index
  {
    if index == 0 then capacity - 1 else index - 1
  }

  /** `Next` and `Previous` undo each other on every slot of a non-empty buffer. */
  lemma NextPreviousInverse(index: nat, capacity: nat)
    requires index < capacity
    ensures Previous(Next(index, capacity), capacity) == index
    ensures Next(Previous(index, capacity), capacity) == index
  {
  }

  /**
   * The array slot of the element `elementIndex` places after the slot `begin`. The source checks
   * `elementIndex <= size` and that the result is below the capacity, both fatally; a zero-capacity
   * buffer fails the second check, so it is excluded here.
   */
  function BufferIndex(begin: nat, elementIndex: nat, capacity: nat): (r: nat)
    requires begin < capacity && elementIndex <= capacity
    ensures r < capacity
    ensures r == (begin + elementIndex) % capacity
  {
    var index := begin + elementIndex;
    if index >= capacity then
      ModUnique(index, capacity, 1, index - capacity);
      index - capacity
    else
      ModUnique(index, capacity, 0, index);
      index
  }

  class RingBuffer<T(0)> {
    // public view
    ghost var Contents: seq<T>

    // implementation
    var buffer: array<T>
    var capacity: nat
    var begin: nat
    var size: nat

    ghost predicate Valid()
      reads this, buffer
    {
      buffer.Length == capacity &&
      (capacity == 0 ==> begin == 0 && size == 0) &&
      (capacity > 0 ==> begin < capacity) &&
      size <= capacity &&
      |Contents| == size &&
      forall i :: 0 <= i < size ==> Contents[i] == buffer[BufferIndex(begin, i, capacity)]
    }

    /** An empty buffer that can hold `capacity` elements. */
    constructor (capacity: nat)
      ensures Valid() && fresh(buffer)
      ensures Contents == [] && this.capacity == capacity
    {
      buffer := new T[capacity];
      this.capacity := capacity;
      begin, size := 0, 0;
      Contents := [];
    }

    /** A full buffer of `count` copies of `value`, filled by pushing at the back. */
    constructor Filled(count: nat, value: T)
      ensures Valid() && fresh(buffer)
      ensures capacity == count && size == count
      ensures Contents == seq(count, _ => value)
    {
      buffer := new T[count];
      capacity := count;
      begin, size := 0, 0;
      Contents := [];
      new;
      var n := count;
      while n > 0
        invariant Valid() && fresh(buffer) && capacity == count
        invariant n <= count && size == count - n
        invariant Contents == seq(count - n, _ => value)
      {
        PushBack(value);
        n := n - 1;
      }
    }

    /** A buffer with the same capacity and the same elements, in order, as `other`. */
    constructor Copy(other: RingBuffer<T>)
      requires other.Valid()
      ensures Valid() && fresh(buffer)
      ensures capacity == other.capacity && Contents == other.Contents
    {
      buffer := new T[other.capacity];
      capacity := other.capacity;
      begin, size := 0, 0;
      Contents := [];
      new;
      for i := 0 to other.size
        invariant Valid() && fresh(buffer) && capacity == other.capacity
        invariant Contents == other.Contents[..i]
      {
        var element := other.At(i);
        PushBack(element);
      }
    }

    /** The move constructor: takes over `other`'s array and elements, leaving `other` with no storage. */
    constructor Move(other: RingBuffer<T>)
      requires other.Valid()
      modifies other
      ensures Valid() && other.Valid()
      ensures buffer == old(other.buffer) && capacity == old(other.capacity) && Contents == old(other.Contents)
      ensures other.capacity == 0 && other.Contents == []
    {
      buffer, capacity, begin, size := other.buffer, other.capacity, other.begin, other.size;
      Contents := other.Contents;
      new;
      other.buffer := new T[0];
      other.capacity, other.begin, other.size := 0, 0, 0;
      other.Contents := [];
    }

    function Empty(): (b: bool)
      reads this, buffer
      requires Valid()
      ensures b <==> Contents == []
    {
      size == 0
    }

    function Size(): (n: nat)
      reads this, buffer
      requires Valid()
      ensures n == |Contents| && n <= capacity
    {
      size
    }

    /** The first element. The source reads an uninitialised slot on an empty buffer. */
    function Front(): (x: T)
      reads this, buffer
      requires Valid() && size > 0
      ensures x == Contents[0]
    {
      buffer[begin]
    }

    /** The last element. */
    function Back(): (x: T)
      reads this, buffer
      requires Valid() && size > 0
      ensures x == Contents[|Contents| - 1]
    {
      buffer[BufferIndex(begin, size - 1, capacity)]
    }

    /** `operator[]`: the i-th element counted from the front. */
    function At(i: nat): (x: T)
      reads this, buffer
      requires Valid() && i < size
      ensures x == Contents[i]
    {
      buffer[BufferIndex(begin, i, capacity)]
    }

    /** Removes every element; the capacity and the array are kept. */
    method Clear()
      requires Valid()
      modifies this
      ensures Valid() && buffer == old(buffer) && capacity == old(capacity)
      ensures Contents == []
    {
      size := 0;
      Contents := [];
    }

    /** Removes and returns the first element. */
    method PopFront() returns (x: T)
      requires Valid() && size > 0
      modifies this
      ensures Valid() && buffer == old(buffer) && capacity == old(capacity)
      ensures x == old(Contents)[0] && Contents == old(Contents)[1..]
    {
      x := buffer[begin];
      begin := Next(begin, capacity);
      size := size - 1;
      Contents := Contents[1..];
    }

    /** Removes and returns the last element. */
    method PopBack() returns (x: T)
      requires Valid() && size > 0
      modifies this
      ensures Valid() && buffer == old(buffer) && capacity == old(capacity) && begin == old(begin)
      ensures x == old(Contents)[|old(Contents)| - 1]
      ensures Contents == old(Contents)[..|old(Contents)| - 1]
    {
      var backIndex := BufferIndex(begin, size - 1, capacity);
      x := buffer[backIndex];
      size := size - 1;
      Contents := Contents[..size];
    }

    /**
     * Adds `x` at the front. On a full buffer the slot before `begin` holds the last element,
     * which is overwritten, so the back element is evicted.
     */
    method PushFront(x: T)
      requires Valid() && capacity > 0
      modifies this, buffer
      ensures Valid() && buffer == old(buffer) && capacity == old(capacity)
      ensures old(size) < capacity ==> Contents == [x] + old(Contents)
      ensures old(size) == capacity ==> Contents == [x] + old(Contents)[..capacity - 1]
    {
      begin := Previous(begin, capacity);
      buffer[begin] := x;
      if size == capacity {
        Contents := [x] + Contents[..size - 1];
      } else {
        size := size + 1;
        Contents := [x] + Contents;
      }
      forall i | 0 <= i < size ensures Contents[i] == buffer[BufferIndex(begin, i, capacity)] {
        if i > 0 {
          assert BufferIndex(begin, i, capacity) == BufferIndex(old(begin), i - 1, capacity);
          assert BufferIndex(begin, i, capacity) != begin;
        }
      }
    }

    /**
     * Adds `x` at the back. On a full buffer `x` overwrites the front slot and `begin` moves on,
     * so the front element is evicted.
     */
    method PushBack(x: T)
      requires Valid() && capacity > 0
      modifies this, buffer
      ensures Valid() && buffer == old(buffer) && capacity == old(capacity)
      ensures old(size) < capacity ==> Contents == old(Contents) + [x] && begin == old(begin)
      ensures old(size) == capacity ==> Contents == old(Contents)[1..] + [x]
    {
      if size == capacity {
        buffer[begin] := x;
        begin := Next(begin, capacity);
        Contents := Contents[1..] + [x];
        forall i | 0 <= i < size ensures Contents[i] == buffer[BufferIndex(begin, i, capacity)] {
          if i < size - 1 {
            assert BufferIndex(begin, i, capacity) == BufferIndex(old(begin), i + 1, capacity);
            assert BufferIndex(begin, i, capacity) != old(begin);
          } else {
            assert BufferIndex(begin, i, capacity) == old(begin);
          }
        }
      } else {
        var slot := BufferIndex(begin, size, capacity);
        buffer[slot] := x;
        size := size + 1;
        Contents := Contents + [x];
        forall i | 0 <= i < size - 1 ensures buffer[BufferIndex(begin, i, capacity)] == old(buffer[BufferIndex(begin, i, capacity)]) {
          assert BufferIndex(begin, i, capacity) != slot;
        }
      }
    }

    /**
     * Move assignment: drops the own elements and array and takes over `other`'s, leaving `other`
     * with no storage. Moving a buffer onto itself changes nothing.
     */
    method MoveAssign(other: RingBuffer<T>)
      requires Valid() && other.Valid()
      modifies this, other
      ensures Valid() && other.Valid()
      ensures other == this ==> buffer == old(buffer) && capacity == old(capacity) && Contents == old(Contents)
      ensures other != this ==>
                buffer == old(other.buffer) && capacity == old(other.capacity) && Contents == old(other.Contents)
                && other.capacity == 0 && other.Contents == []
    {
      if other == this {
        return;
      }
      buffer, capacity, begin, size := other.buffer, other.capacity, other.begin, other.size;
      Contents := other.Contents;
      other.buffer := new T[0];
      other.capacity, other.begin, other.size := 0, 0, 0;
      other.Contents := [];
    }

    /** Copy assignment: the elements of `other`, in order, in a fresh array of its capacity. */
    method CopyAssign(other: RingBuffer<T>)
      requires Valid() && other.Valid()
      modifies this
      ensures Valid() && fresh(buffer)
      ensures capacity == old(other.capacity) && Contents == old(other.Contents)
    {
      var copy := new RingBuffer.Copy(other);
      MoveAssign(copy);
    }

    /** Exchanges the array, capacity, first slot and size (and so the contents) with `other`. */
    method Swap(other: RingBuffer<T>)
      requires Valid() && other.Valid()
      modifies this, other
      ensures Valid() && other.Valid()
      ensures buffer == old(other.buffer) && other.buffer == old(buffer)
      ensures capacity == old(other.capacity) && other.capacity == old(capacity)
      ensures begin == old(other.begin) && other.begin == old(begin)
      ensures size == old(other.size) && other.size == old(size)
      ensures Contents == old(other.Contents) && other.Contents == old(Contents)
    {
      if other != this {
        buffer, other.buffer := other.buffer, buffer;
        capacity, other.capacity := other.capacity, capacity;
        begin, other.begin := other.begin, begin;
        size, other.size := other.size, size;
        Contents, other.Contents := other.Contents, Contents;
      }
    }
  }
}
