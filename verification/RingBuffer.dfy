/** The growable ring buffer of internal/congestion/bbr/ringbuffer.go. */
module RingBuffers {

  /** The queue, oldest element first, that a backing array and its two cursors stand for. */
  ghost function Unroll<T>(ring: seq<T>, head: nat, tail: nat, full: bool): seq<T>
    requires head <= |ring| && tail <= |ring|
  {
    if full || tail < head then ring[head..] + ring[..tail] else ring[head..tail]
  }

  lemma Wrap(a: nat, n: nat)
    requires n <= a < 2 * n || a < n
    ensures a % n == if a < n then a else a - n
  {
  }

  /** Does position k of the backing array belong to the queue? */
  ghost predicate InUse(k: int, head: nat, tail: nat, full: bool) {
    full || (if head <= tail then head <= k < tail else k < tail || head <= k)
  }

  /** Overwriting the position of the index-th element overwrites that element and no other. */
  lemma StoreInRing<T>(ring: seq<T>, head: nat, tail: nat, full: bool, index: nat, t: T)
    requires head < |ring| && tail < |ring| && (full ==> head == tail)
    requires index < |Unroll(ring, head, tail, full)|
    ensures Unroll(ring[(head + index) % |ring| := t], head, tail, full)
         == Unroll(ring, head, tail, full)[index := t]
  {
    Wrap(head + index, |ring|);
    var k := (head + index) % |ring|;
    var before, after := Unroll(ring, head, tail, full), Unroll(ring[k := t], head, tail, full);
    forall i | 0 <= i < |before| ensures after[i] == before[index := t][i] {
      UnrollAt(ring, head, tail, full, i);
      UnrollAt(ring[k := t], head, tail, full, i);
    }
  }

  /** The i-th element of the queue is i positions behind the head, around the end if need be. */
  lemma UnrollAt<T>(ring: seq<T>, head: nat, tail: nat, full: bool, i: nat)
    requires head < |ring| && tail < |ring| && i < |Unroll(ring, head, tail, full)|
    ensures Unroll(ring, head, tail, full)[i] == if head + i < |ring| then ring[head + i] else ring[head + i - |ring|]
  {
  }

  /** Writing behind the last element and moving the tail cursor, around the end if need be, appends an element. */
  lemma PushInRing<T>(ring: seq<T>, head: nat, tail: nat, t: T)
    requires head < |ring| && tail < |ring|
    ensures var next := if tail + 1 == |ring| then 0 else tail + 1;
            Unroll(ring[tail := t], head, next, next == head) == Unroll(ring, head, tail, false) + [t]
  {
    var stored := ring[tail := t];
    if tail < head {
      assert stored[head..] == ring[head..] && stored[..tail + 1] == ring[..tail] + [t];
    } else {
      assert stored[head..tail + 1] == ring[head..tail] + [t];
      assert tail + 1 == |ring| ==> stored[head..] == stored[head..tail + 1] && stored[..0] == [];
    }
  }

  class RingBuffer<T> {
    const zero: T
    var ring: array<T>
    var headPos: nat
    var tailPos: nat
    var full: bool

    /** Positions that hold no element hold the zero value, so nothing popped stays reachable. */
    ghost predicate Valid()
      reads this, ring
    {
      && (ring.Length == 0 ==> headPos == 0 && tailPos == 0 && !full)
      && (ring.Length > 0 ==> headPos < ring.Length && tailPos < ring.Length)
      && (full ==> headPos == tailPos)
      && (forall k :: 0 <= k < ring.Length && !InUse(k, headPos, tailPos, full) ==> ring[k] == zero)
    }

    ghost function Contents(): seq<T>
      requires Valid()
      reads this, ring
    {
      Unroll(ring[..], headPos, tailPos, full)
    }

    constructor (size: nat, zero: T)
      ensures Valid() && fresh(ring) && Contents() == []
      ensures this.zero == zero
    {
      this.zero := zero;
      ring := new T[size](_ => zero);
      headPos, tailPos, full := 0, 0, false;
    }

    function Len(): (n: nat)
      requires Valid()
      reads this, ring
      ensures n == |Contents()|
    {
      if full then ring.Length
      else if tailPos >= headPos then tailPos - headPos
      else tailPos - headPos + ring.Length
    }

    predicate Empty()
      requires Valid()
      reads this, ring
      ensures Empty() <==> Contents() == []
    {
      !full && headPos == tailPos
    }

    method PushBack(t: T)
      requires Valid()
      modifies this, ring
      ensures Valid() && (ring == old(ring) || fresh(ring))
      ensures Contents() == old(Contents()) + [t]
    {
      if full || ring.Length == 0 {
        Grow();
      }
      Append(t);
    }

    /** The rest of `PushBack`, once there is room. */
    method Append(t: T)
      requires Valid() && !full && ring.Length > 0
      modifies this, ring
      ensures Valid() && ring == old(ring) && Contents() == old(Contents()) + [t]
    {
      hide Unroll;
      PushInRing(ring[..], headPos, tailPos, t);
      ring[tailPos] := t;
      assert ring[..] == old(ring[..])[tailPos := t];
      tailPos := tailPos + 1;
      if tailPos == ring.Length {
        tailPos := 0;
      }
      if tailPos == headPos {
        full := true;
      }
    }

    method PopFront() returns (t: T)
      requires Valid() && !Empty()
      modifies this, ring
      ensures Valid() && ring == old(ring)
      ensures t == old(Contents())[0] && Contents() == old(Contents())[1..]
    {
      full := false;
      t := ring[headPos];
      ring[headPos] := zero;
      headPos := headPos + 1;
      if headPos == ring.Length {
        headPos := 0;
      }
    }

    /** The position of the index-th element; `Offset` hands out a pointer to it. */
    function Position(index: nat): (k: nat)
      requires Valid() && index < Len()
      reads this, ring
      ensures k < ring.Length && InUse(k, headPos, tailPos, full)
      ensures ring[k] == Contents()[index]
    {
      Wrap(headPos + index, ring.Length);
      (headPos + index) % ring.Length
    }

    method Offset(index: nat) returns (t: T)
      requires Valid() && index < Len()
      ensures t == Contents()[index]
    {
      t := ring[Position(index)];
    }

    /** A write through the pointer that `Offset` returns. */
    method Store(index: nat, t: T)
      requires Valid() && index < Len()
      modifies ring
      ensures Valid()
      ensures Contents() == old(Contents())[index := t]
    {
      var k := Position(index);
      ghost var before := ring[..];
      ring[k] := t;
      assert ring[..] == before[k := t];
      StoreInRing(before, headPos, tailPos, full, index, t);
    }

    method Front() returns (t: T)
      requires Valid() && !Empty()
      ensures t == Contents()[0]
    {
      t := ring[headPos];
    }

    method Back() returns (t: T)
      requires Valid() && !Empty()
      ensures t == Contents()[|Contents()| - 1]
    {
      t := Offset(Len() - 1);
    }

    /** Doubles the capacity of a full ring and moves its oldest element to position 0. */
    method Grow()
      requires Valid() && (full || ring.Length == 0)
      modifies this
      ensures Valid() && fresh(ring) && !full
      ensures ring.Length == if old(ring.Length) == 0 then 1 else 2 * old(ring.Length)
      ensures headPos == 0 && Contents() == old(Contents())
    {
      var oldLength := ring.Length;
      ring := Copied(if oldLength == 0 then 1 else oldLength * 2);
      headPos, tailPos, full := 0, oldLength, false;
    }

    /** The backing array in a larger one, oldest element first and zero behind the last. */
    method Copied(newSize: nat) returns (copy: array<T>)
      requires headPos <= ring.Length <= newSize
      ensures fresh(copy) && copy.Length == newSize
      ensures copy[..ring.Length] == ring[headPos..] + ring[..headPos]
      ensures forall k :: ring.Length <= k < newSize ==> copy[k] == zero
    {
      var z := zero;
      copy := new T[newSize](_ => z);
      var headLen := ring.Length - headPos;
      forall k | 0 <= k < headLen {
        copy[k] := ring[headPos + k];
      }
      forall k | 0 <= k < headPos {
        copy[headLen + k] := ring[k];
      }
    }

    method Clear()
      requires Valid()
      modifies this, ring
      ensures Valid() && ring == old(ring) && Contents() == []
    {
      for i := 0 to ring.Length
        invariant ring == old(ring)
        invariant forall k :: 0 <= k < i ==> ring[k] == zero
      {
        ring[i] := zero;
      }
      headPos, tailPos, full := 0, 0, false;
    }
  }
}
