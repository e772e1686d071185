/** The packet-number-indexed queue of internal/congestion/bbr/packet_number_indexed_queue.go. */
module PacketQueues {
  import opened Common
  import opened RingBuffers

  datatype Slot<+T> = Slot(present: bool, entry: T)

  ghost predicate Has<T>(slots: seq<Slot<T>>, first: int, k: int) {
    first <= k < first + |slots| && slots[k - first].present
  }

  /** The finite map from packet numbers to entries that consecutive slots starting at `first` stand for. */
  ghost function AsMap<T>(slots: seq<Slot<T>>, first: int): map<int, T> {
    map k | first <= k < first + |slots| && Has(slots, first, k) :: slots[k - first].entry
  }

  ghost function PresentCount<T>(slots: seq<Slot<T>>): nat {
    if slots == [] then 0
    else PresentCount(slots[..|slots| - 1]) + (if slots[|slots| - 1].present then 1 else 0)
  }

  /** The number of present slots is the number of keys of the map. */
  lemma {:induction false} CountIsMapSize<T>(slots: seq<Slot<T>>, first: int)
    ensures |AsMap(slots, first)| == PresentCount(slots)
  {
    if slots == [] {
      assert AsMap(slots, first).Keys == {};
    } else {
      var init, last := slots[..|slots| - 1], slots[|slots| - 1];
      CountIsMapSize(init, first);
      var k := first + |init|;
      assert AsMap(slots, first).Keys == AsMap(init, first).Keys + if last.present then {k} else {};
      assert |AsMap(slots, first)| == |AsMap(slots, first).Keys|;
      assert |AsMap(init, first)| == |AsMap(init, first).Keys|;
    }
  }

  lemma NoKeys<T>(first: int)
    ensures AsMap<T>([], first) == map[]
  {
  }

  lemma AppendToMap<T>(slots: seq<Slot<T>>, first: int, slot: Slot<T>)
    ensures AsMap(slots + [slot], first)
         == if slot.present then AsMap(slots, first)[first + |slots| := slot.entry] else AsMap(slots, first)
  {
    var longer := slots + [slot];
    var m := if slot.present then AsMap(slots, first)[first + |slots| := slot.entry] else AsMap(slots, first);
    assert longer[|slots|] == slot;
    forall k ensures k in AsMap(longer, first) <==> k in m {
      if first <= k < first + |slots| {
        assert longer[k - first] == slots[k - first];
      }
    }
    forall k | k in m ensures AsMap(longer, first)[k] == m[k] {
      if k < first + |slots| {
        assert longer[k - first] == slots[k - first];
      }
    }
  }

  /** A slot added at the end is one more key if it is present and changes nothing if it is not. */
  lemma AppendSlot<T>(slots: seq<Slot<T>>, first: int, slot: Slot<T>)
    ensures AsMap(slots + [slot], first)
         == if slot.present then AsMap(slots, first)[first + |slots| := slot.entry] else AsMap(slots, first)
    ensures PresentCount(slots + [slot]) == PresentCount(slots) + if slot.present then 1 else 0
  {
    hide AsMap;
    AppendToMap(slots, first, slot);
    assert (slots + [slot])[..|slots|] == slots;
  }

  /** Dropping the oldest slot removes its key and, if it was present, one from the count. */
  lemma {:induction false} DropFirstSlot<T>(slots: seq<Slot<T>>, first: int)
    requires slots != []
    ensures AsMap(slots[1..], first + 1) == AsMap(slots, first) - {first}
    ensures !slots[0].present ==> AsMap(slots[1..], first + 1) == AsMap(slots, first)
    ensures PresentCount(slots) == PresentCount(slots[1..]) + (if slots[0].present then 1 else 0)
  {
    if |slots| == 1 {
      assert slots[..0] == slots[1..] == [];
    } else {
      var init := slots[..|slots| - 1];
      DropFirstSlot(init, first);
      assert slots[1..][..|slots| - 2] == init[1..];
    }
  }

  /** Marking a present slot absent removes its key and one from the count. */
  lemma {:induction false} ClearSlot<T>(slots: seq<Slot<T>>, first: int, i: nat)
    requires i < |slots| && slots[i].present
    ensures AsMap(slots[i := slots[i].(present := false)], first) == AsMap(slots, first) - {first + i}
    ensures PresentCount(slots[i := slots[i].(present := false)]) == PresentCount(slots) - 1
  {
    var cleared := slots[i := slots[i].(present := false)];
    var n := |slots| - 1;
    if i == n {
      assert cleared[..n] == slots[..n];
    } else {
      ClearSlot(slots[..n], first, i);
      assert cleared[..n] == slots[..n][i := slots[i].(present := false)];
    }
  }

  /** The part of a map from a key on. */
  ghost function From<T>(m: map<int, T>, n: int): map<int, T> { map k | k in m && k >= n :: m[k] }

  lemma FromFirst<T>(m: map<int, T>, n: int)
    requires forall k :: k in m ==> k >= n
    ensures From(m, n) == m
  {
  }

  lemma FromNext<T>(m: map<int, T>, n: int)
    ensures From(m, n) - {n} == From(m, n + 1)
  {
  }

  /** A part is all that is left from any key on, if no key lies between. */
  lemma FromSkips<T>(m: map<int, T>, n: int, l: int)
    requires n == l || (n < l && (From(m, n) == map[] || forall k :: k in m ==> k >= l))
    ensures From(m, n) == From(m, l)
  {
    forall k | k in m && n <= k ensures k >= l {
      assert k in From(m, n);
    }
  }

  class PacketQueue<T> {
    const entries: RingBuffer<Slot<T>>
    var numberOfPresentEntries: int
    var firstPacket: int

    ghost predicate Consistent()
      reads this, entries, entries.ring
    {
      && entries.Valid()
      && !entries.zero.present
      && numberOfPresentEntries == PresentCount(entries.Contents())
    }

    /** Between calls the first slot is always present and an empty queue has no slots at all. */
    ghost predicate Valid()
      reads this, entries, entries.ring
    {
      && Consistent()
      && (entries.Contents() == [] ==> firstPacket == INVALID_PACKET)
      && (entries.Contents() != [] ==> firstPacket >= 0 && entries.Contents()[0].present)
    }

    ghost function Raw(): map<int, T>
      requires Consistent()
      reads this, entries, entries.ring
    {
      AsMap(entries.Contents(), firstPacket)
    }

    /** The map that the queue stands for. */
    ghost function View(): map<int, T>
      requires Valid()
      reads this, entries, entries.ring
    {
      Raw()
    }

    /** `LastPacket`: the number of the last slot, present or not. */
    ghost function Last(): int
      requires Valid()
      reads this, entries, entries.ring
    {
      if entries.Contents() == [] then INVALID_PACKET else firstPacket + |entries.Contents()| - 1
    }

    constructor (size: nat, zero: T)
      ensures Valid() && fresh(entries) && fresh(entries.ring)
      ensures View() == map[] && Last() == INVALID_PACKET
    {
      entries := new RingBuffer<Slot<T>>(size, Slot(false, zero));
      numberOfPresentEntries := 0;
      firstPacket := INVALID_PACKET;
    }

    lemma Facts()
      requires Valid()
      ensures numberOfPresentEntries == |View()|
      ensures View() == map[] <==> numberOfPresentEntries == 0
      ensures View() == map[] <==> entries.Contents() == []
      ensures View() != map[] ==> firstPacket in View()
      ensures forall k :: k in View() ==> 0 <= firstPacket <= k <= Last()
    {
      CountIsMapSize(entries.Contents(), firstPacket);
      assert View() == map[] <==> |View()| == 0;
      if entries.Contents() != [] {
        assert firstPacket in View();
      }
    }

    method Emplace(packetNumber: int, entry: Option<T>) returns (ok: bool)
      requires Valid() && packetNumber >= INVALID_PACKET
      modifies this, entries, entries.ring
      ensures Valid() && (entries.ring == old(entries.ring) || fresh(entries.ring))
      ensures ok == (entry.Some? && packetNumber > old(Last()))
      ensures View() == if ok then old(View())[packetNumber := entry.value] else old(View())
      ensures Last() == if ok then packetNumber else old(Last())
    {
      hide RingBuffer.Contents;
      hide AsMap;
      Facts();
      if packetNumber == INVALID_PACKET || entry.None? {
        return false;
      }
      if numberOfPresentEntries == 0 {
        NoKeys<T>(packetNumber);
        AppendSlot([], packetNumber, Slot(true, entry.value));
        entries.PushBack(Slot(true, entry.value));
        assert entries.Contents() == [] + [Slot(true, entry.value)];
        numberOfPresentEntries := 1;
        firstPacket := packetNumber;
        return true;
      }
      if packetNumber <= firstPacket + entries.Len() - 1 {
        return false;
      }
      Pad(packetNumber - firstPacket - entries.Len());
      AppendSlot(entries.Contents(), firstPacket, Slot(true, entry.value));
      entries.PushBack(Slot(true, entry.value));
      numberOfPresentEntries := numberOfPresentEntries + 1;
      ok := true;
    }

    /** Adds absent slots, so that the next slot gets the right number. */
    method Pad(gap: nat)
      requires Valid() && entries.Contents() != []
      modifies entries, entries.ring
      ensures Valid() && (entries.ring == old(entries.ring) || fresh(entries.ring))
      ensures |entries.Contents()| == old(|entries.Contents()|) + gap
      ensures View() == old(View())
    {
      hide RingBuffer.Contents;
      hide AsMap;
      for i := 0 to gap
        invariant Valid() && (entries.ring == old(entries.ring) || fresh(entries.ring))
        invariant |entries.Contents()| == old(|entries.Contents()|) + i
        invariant View() == old(View())
      {
        AppendSlot(entries.Contents(), firstPacket, entries.zero);
        entries.PushBack(entries.zero);
      }
    }

    method GetEntry(packetNumber: int) returns (entry: Option<T>)
      requires Valid()
      ensures entry == if packetNumber in View() then Some(View()[packetNumber]) else None
    {
      Facts();
      if packetNumber == INVALID_PACKET || numberOfPresentEntries == 0 || packetNumber < firstPacket {
        return None;
      }
      var offset := packetNumber - firstPacket;
      if offset >= entries.Len() {
        return None;
      }
      var slot := entries.Offset(offset);
      entry := if slot.present then Some(slot.entry) else None;
    }

    method Unmark(offset: nat)
      requires Valid() && firstPacket + offset in View()
      modifies this, entries.ring
      ensures Consistent() && firstPacket == old(firstPacket)
      ensures |entries.Contents()| == old(|entries.Contents()|)
      ensures offset != 0 ==> Valid()
      ensures Raw() == old(View()) - {firstPacket + offset}
    {
      hide RingBuffer.Contents;
      ClearSlot(entries.Contents(), firstPacket, offset);
      var slot := entries.Offset(offset);
      entries.Store(offset, slot.(present := false));
      numberOfPresentEntries := numberOfPresentEntries - 1;
    }

    /** Removes one entry and hands it back; the source passes it to a callback instead. */
    method Remove(packetNumber: int) returns (removed: Option<T>)
      requires Valid()
      modifies this, entries, entries.ring
      ensures Valid() && entries.ring == old(entries.ring)
      ensures removed == if packetNumber in old(View()) then Some(old(View())[packetNumber]) else None
      ensures View() == old(View()) - {packetNumber}
      ensures Last() == if View() == map[] then INVALID_PACKET else old(Last())
    {
      hide RingBuffer.Contents;
      hide AsMap;
      Facts();
      removed := GetEntry(packetNumber);
      if removed.None? {
        assert old(View()) - {packetNumber} == old(View());
        return;
      }
      Erase(packetNumber);
    }

    /** The rest of `Remove`, for a present entry. */
    method Erase(packetNumber: int)
      requires Valid() && packetNumber in View()
      modifies this, entries, entries.ring
      ensures Valid() && entries.ring == old(entries.ring)
      ensures View() == old(View()) - {packetNumber}
      ensures Last() == if View() == map[] then INVALID_PACKET else old(Last())
    {
      hide RingBuffer.Contents;
      hide AsMap;
      Facts();
      Unmark(packetNumber - firstPacket);
      if packetNumber == firstPacket {
        Clearup();
      } else {
        Facts();
      }
    }

    /** Keeps exactly the entries numbered at least packetNumber. */
    method RemoveUpTo(packetNumber: int)
      requires Valid()
      modifies this, entries, entries.ring
      ensures Valid() && entries.ring == old(entries.ring)
      ensures View() == From(old(View()), packetNumber)
      ensures Last() == if View() == map[] then INVALID_PACKET else old(Last())
    {
      hide RingBuffer.Contents;
      hide AsMap;
      Facts();
      DropUpTo(packetNumber);
      Clearup();
    }

    /** One step of that loop. */
    method DropFirst()
      requires Consistent() && entries.Contents() != []
      modifies this, entries, entries.ring
      ensures Consistent() && entries.ring == old(entries.ring)
      ensures entries.Contents() == old(entries.Contents())[1..] && firstPacket == old(firstPacket) + 1
      ensures Raw() == old(Raw()) - {old(firstPacket)}
    {
      hide RingBuffer.Contents;
      hide AsMap;
      DropFirstSlot(entries.Contents(), firstPacket);
      var front := entries.Front();
      if front.present {
        numberOfPresentEntries := numberOfPresentEntries - 1;
      }
      var _ := entries.PopFront();
      firstPacket := firstPacket + 1;
    }

    /** The loop of `RemoveUpTo`: drops slots, present or not, up to the given number. */
    method DropUpTo(packetNumber: int)
      requires Valid()
      modifies this, entries, entries.ring
      ensures Consistent() && entries.ring == old(entries.ring)
      ensures entries.Contents() != [] ==> firstPacket >= 0
      ensures firstPacket + |entries.Contents()| == old(firstPacket + |entries.Contents()|)
      ensures Raw() == From(old(View()), packetNumber)
    {
      hide RingBuffer.Contents;
      hide AsMap;
      hide From;
      ghost var m, start, end := View(), firstPacket, firstPacket + |entries.Contents()|;
      Facts();
      FromFirst(m, start);
      while !entries.Empty() && firstPacket != INVALID_PACKET && firstPacket < packetNumber
        invariant Consistent() && entries.ring == old(entries.ring)
        invariant entries.Contents() != [] ==> firstPacket >= 0
        invariant firstPacket + |entries.Contents()| == end
        invariant Raw() == From(m, firstPacket) && (firstPacket == start || firstPacket <= packetNumber)
        decreases entries.Len()
      {
        FromNext(m, firstPacket);
        DropFirst();
      }
      NoKeys<T>(firstPacket);
      FromSkips(m, Min(firstPacket, packetNumber), Max(firstPacket, packetNumber));
    }

    /** Drops absent slots from the front. */
    method Clearup()
      requires Consistent() && (entries.Contents() != [] ==> firstPacket >= 0)
      modifies this, entries, entries.ring
      ensures Valid() && entries.ring == old(entries.ring)
      ensures View() == old(Raw())
      ensures Last() == if View() == map[] then INVALID_PACKET else old(firstPacket + |entries.Contents()| - 1)
    {
      hide RingBuffer.Contents;
      hide AsMap;
      ghost var end := firstPacket + |entries.Contents()|;
      while true
        invariant Consistent() && entries.ring == old(entries.ring)
        invariant entries.Contents() != [] ==> firstPacket >= 0
        invariant firstPacket + |entries.Contents()| == end
        invariant Raw() == old(Raw())
        decreases entries.Len()
      {
        if entries.Empty() {
          break;
        }
        var front := entries.Front();
        if front.present {
          break;
        }
        DropFirstSlot(entries.Contents(), firstPacket);
        ghost var slots := entries.Contents();
        var _ := entries.PopFront();
        firstPacket := firstPacket + 1;
      }
      NoKeys<T>(firstPacket);
      if entries.Empty() {
        firstPacket := INVALID_PACKET;
        NoKeys<T>(firstPacket);
      }
      Facts();
    }
  }
}
