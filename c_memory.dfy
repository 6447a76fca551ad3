/**
 * The C blackboard `sc_memory_context` of triangle_agents.c: an array of
 * (addr, data, type) entries, of which the first `size` are in use, inside a
 * buffer of `capacity` slots. Lookup is a linear scan from the front; storing
 * to an existing address overwrites that entry, storing to a new one appends
 * it, growing the buffer first when it is full.
 */
module CMemory {
  import opened Domain

  datatype Entry = Entry(addr: string, data: Payload, tag: Tag)

  /** What `sc_memory_get` does: return the data, return NULL, or exit on a type mismatch. */
  datatype Lookup = Found(data: Payload) | Absent | Mismatch

  /** Filler for the unused slots of the buffer. */
  const Vacant: Entry := Entry("", IntV(0), IntTag)

  /** No address occurs twice. */
  predicate UniqueKeys(es: seq<Entry>)
  {
    forall i, j :: 0 <= i < j < |es| ==> es[i].addr != es[j].addr
  }

  /** Every entry's type tag names the type of its data. */
  predicate Conforming(es: seq<Entry>)
  {
    forall i :: 0 <= i < |es| ==> TagOf(es[i].data) == es[i].tag
  }

  /** The position of the first entry with address `addr`, as the scans of store and get find it. */
  function IndexOf(es: seq<Entry>, addr: string): (r: Option<nat>)
    ensures r.Some? ==> r.value < |es| && es[r.value].addr == addr
    ensures r.Some? ==> forall j :: 0 <= j < r.value ==> es[j].addr != addr
    ensures r.None? ==> forall j :: 0 <= j < |es| ==> es[j].addr != addr
  {
    if es == [] then None
    else if es[0].addr == addr then Some(0)
    else match IndexOf(es[1..], addr)
      case None => None
      case Some(i) => Some(i + 1)
  }

  /** The entries after `sc_memory_store(ctx, addr, data, tag)`. */
  function Stored(es: seq<Entry>, addr: string, data: Payload, tag: Tag): seq<Entry>
  {
    match IndexOf(es, addr)
    case Some(i) => es[i := es[i].(data := data, tag := tag)]
    case None => es + [Entry(addr, data, tag)]
  }

  /** The result of `sc_memory_get(ctx, addr, tag)` on the entries `es`. */
  function Find(es: seq<Entry>, addr: string, tag: Tag): (r: Lookup)
    ensures Conforming(es) && r.Found? ==> TagOf(r.data) == tag
  {
    match IndexOf(es, addr)
    case None => Absent
    case Some(i) => if es[i].tag == tag then Found(es[i].data) else Mismatch
  }

  /** Capacity after the growth step of `sc_memory_store` AS WRITTEN: doubled, so 0 stays 0. */
  function DoubledCapacity(capacity: nat): (r: nat)
    ensures capacity > 0 ==> r > capacity
  {
    capacity * 2
  }

  /** Growth as evidently intended: doubled, but a buffer of 0 slots grows to 1. */
  function GrownCapacity(capacity: nat): (r: nat)
    ensures r > capacity
    ensures capacity > 0 ==> r == DoubledCapacity(capacity)
  {
    if capacity == 0 then 1 else DoubledCapacity(capacity)
  }

  class Context {
    var entries: array<Entry>
    var size: nat
    var capacity: nat

    ghost predicate Valid()
      reads this, entries
    {
      entries.Length == capacity && size <= capacity &&
      UniqueKeys(entries[..size]) && Conforming(entries[..size])
    }

    /** The entries in use, in storage order. */
    ghost function Contents(): seq<Entry>
      reads this, entries
      requires Valid()
    {
      entries[..size]
    }

    /** `sc_memory_init`: an empty store with `initialCapacity` slots. */
    constructor (initialCapacity: nat)
      ensures Valid() && fresh(entries)
      ensures size == 0 && capacity == initialCapacity && Contents() == []
    {
      entries := new Entry[initialCapacity](_ => Vacant);
      size := 0;
      capacity := initialCapacity;
    }

    /** `sc_memory_store`: overwrite the entry at `addr` in place, or append a new one. */
    method Store(addr: string, data: Payload, tag: Tag)
      requires Valid()
      requires TagOf(data) == tag
      modifies this, entries
      ensures Valid()
      ensures entries == old(entries) || fresh(entries)
      ensures Contents() == Stored(old(Contents()), addr, data, tag)
      ensures capacity ==
        if IndexOf(old(Contents()), addr).None? && old(size) == old(capacity)
        then GrownCapacity(old(capacity)) else old(capacity)
    {
      ghost var before := Contents();
      var i := 0;
      while i < size
        invariant 0 <= i <= size
        invariant forall j :: 0 <= j < i ==> entries[j].addr != addr
      {
        if entries[i].addr == addr {
          IndexOfIs(before, addr, i);
          entries[i] := entries[i].(data := data, tag := tag);
          assert entries[..size] == Stored(before, addr, data, tag);
          StoreKeepsKeysUnique(before, addr, data, tag);
          StoreKeepsConforming(before, addr, data, tag);
          return;
        }
        i := i + 1;
      }
      assert IndexOf(before, addr).None?;
      if size >= capacity {
        capacity := GrownCapacity(capacity);
        var grown := new Entry[capacity](_ => Vacant);
        forall j | 0 <= j < size {
          grown[j] := entries[j];
        }
        entries := grown;
      }
      assert entries[..size] == before;
      entries[size] := Entry(addr, data, tag);
      size := size + 1;
      assert entries[..size] == Stored(before, addr, data, tag);
      StoreKeepsKeysUnique(before, addr, data, tag);
      StoreKeepsConforming(before, addr, data, tag);
    }

    /** `sc_memory_get`: scan for `addr` and check the type tag of the first match. */
    method Get(addr: string, tag: Tag) returns (r: Lookup)
      requires Valid()
      ensures r == Find(Contents(), addr, tag)
    {
      for i := 0 to size
        invariant forall j :: 0 <= j < i ==> entries[j].addr != addr
      {
        if entries[i].addr == addr {
          assert IndexOf(Contents(), addr) == Some(i);
          if entries[i].tag != tag {
            return Mismatch;
          }
          return Found(entries[i].data);
        }
      }
      return Absent;
    }
  }

  // ----- Properties of the store -----

  /** The scan stops at `i` when `i` holds `addr` and no earlier entry does. */
  lemma IndexOfIs(es: seq<Entry>, addr: string, i: int)
    requires 0 <= i < |es| && es[i].addr == addr
    requires forall j :: 0 <= j < i ==> es[j].addr != addr
    ensures IndexOf(es, addr) == Some(i)
  {
  }

  /** Storing never creates a second entry for an address. */
  lemma StoreKeepsKeysUnique(es: seq<Entry>, addr: string, data: Payload, tag: Tag)
    requires UniqueKeys(es)
    ensures UniqueKeys(Stored(es, addr, data, tag))
  {
  }

  /** Storing keeps every type tag truthful when the new tag names the new data's type. */
  lemma StoreKeepsConforming(es: seq<Entry>, addr: string, data: Payload, tag: Tag)
    requires Conforming(es) && TagOf(data) == tag
    ensures Conforming(Stored(es, addr, data, tag))
  {
  }

  /**
   * Storing to an address already present replaces that entry's data and tag
   * where it stands: the count of entries and every other entry are unchanged.
   */
  lemma StoreOverwritesInPlace(es: seq<Entry>, i: int, addr: string, data: Payload, tag: Tag)
    requires UniqueKeys(es)
    requires 0 <= i < |es| && es[i].addr == addr
    ensures |Stored(es, addr, data, tag)| == |es|
    ensures Stored(es, addr, data, tag)[i] == Entry(addr, data, tag)
    ensures forall j :: 0 <= j < |es| && j != i ==> Stored(es, addr, data, tag)[j] == es[j]
  {
    assert IndexOf(es, addr) == Some(i);
  }

  /** Storing to a new address appends one entry at position `size` and keeps all others. */
  lemma StoreAppendsNew(es: seq<Entry>, addr: string, data: Payload, tag: Tag)
    requires forall j :: 0 <= j < |es| ==> es[j].addr != addr
    ensures |Stored(es, addr, data, tag)| == |es| + 1
    ensures Stored(es, addr, data, tag)[|es|] == Entry(addr, data, tag)
    ensures Stored(es, addr, data, tag)[..|es|] == es
  {
    assert IndexOf(es, addr).None?;
  }

  /** Round trip: a get with the tag just stored returns the data just stored. */
  lemma StoreThenGet(es: seq<Entry>, addr: string, data: Payload, tag: Tag)
    ensures Find(Stored(es, addr, data, tag), addr, tag) == Found(data)
  {
    var es' := Stored(es, addr, data, tag);
    match IndexOf(es, addr)
    case Some(i) =>
      IndexOfIs(es', addr, i);
    case None =>
      IndexOfIs(es', addr, |es|);
  }

  /** A get with any other tag hits the type-mismatch exit. */
  lemma StoreThenGetOtherTag(es: seq<Entry>, addr: string, data: Payload, tag: Tag, other: Tag)
    requires other != tag
    ensures Find(Stored(es, addr, data, tag), addr, other) == Mismatch
  {
    var es' := Stored(es, addr, data, tag);
    match IndexOf(es, addr)
    case Some(i) =>
      IndexOfIs(es', addr, i);
    case None =>
      IndexOfIs(es', addr, |es|);
  }

  /** Storing at one address leaves what every other address yields unchanged. */
  lemma StoreLeavesOtherKeys(es: seq<Entry>, addr: string, data: Payload, tag: Tag, key: string, t: Tag)
    requires key != addr
    ensures Find(Stored(es, addr, data, tag), key, t) == Find(es, key, t)
  {
    var es' := Stored(es, addr, data, tag);
    match IndexOf(es, key)
    case Some(k) =>
      IndexOfIs(es', key, k);
    case None =>
      assert IndexOf(es', key).None?;
  }

  /** A get on an address that was never stored returns NULL. */
  lemma GetAbsent(es: seq<Entry>, addr: string, tag: Tag)
    requires forall j :: 0 <= j < |es| ==> es[j].addr != addr
    ensures Find(es, addr, tag) == Absent
  {
  }

  /** With unique addresses, get finds the data of the one entry with that address and tag. */
  lemma GetFindsEntry(es: seq<Entry>, i: int, tag: Tag)
    requires UniqueKeys(es) && 0 <= i < |es|
    ensures Find(es, es[i].addr, tag) == if es[i].tag == tag then Found(es[i].data) else Mismatch
  {
    assert IndexOf(es, es[i].addr) == Some(i);
  }

  /**
   * As written, the first store into a store made with `initial_capacity == 0`
   * leaves more entries in use than the doubled buffer has slots.
   */
  lemma DoubledZeroLeavesNoRoom(addr: string, data: Payload, tag: Tag)
    ensures |Stored([], addr, data, tag)| > DoubledCapacity(0)
  {
  }

  /**
   * With the intended growth, every store keeps the entries in use within the
   * buffer: the capacity after a store (grown only for a new address arriving
   * at a full buffer) is at least the new number of entries.
   */
  lemma GrownLeavesRoom(es: seq<Entry>, capacity: nat, addr: string, data: Payload, tag: Tag)
    requires |es| <= capacity
    ensures |Stored(es, addr, data, tag)| <=
      if IndexOf(es, addr).None? && |es| == capacity then GrownCapacity(capacity) else capacity
  {
    match IndexOf(es, addr)
    case Some(_) =>
    case None =>
      assert |Stored(es, addr, data, tag)| == |es| + 1;
  }
}
