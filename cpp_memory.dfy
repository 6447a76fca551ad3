/**
 * The C++ blackboard `sc::MemoryContext` of triangle_agents.cpp: a map from
 * address to data and a map from address to type name. `store<T>` writes
 * both maps at one address; `get<T>` compares the type name through
 * `operator[]`, which inserts an empty name for an address it does not hold,
 * and throws a type-mismatch error unless the name is T's.
 */
module CppMemory {
  import opened Domain

  /** An entry of `types`: the empty string `operator[]` inserts, or `typeid(T).name()`. */
  datatype TypeName = Unnamed | Named(tag: Tag)

  /** The two maps of a `MemoryContext`, as a value. */
  datatype Board = Board(data: map<string, Payload>, types: map<string, TypeName>)

  /** What `get<T>` yields: the value, or the `std::runtime_error` "Type mismatch". */
  datatype Fetched = Value(data: Payload) | TypeMismatch

  /**
   * Every stored address has the type name of its data; an address known to
   * `types` only (left there by a failed get) has the empty name.
   */
  predicate Consistent(b: Board)
  {
    (forall k :: k in b.data ==> k in b.types && b.types[k] == Named(TagOf(b.data[k]))) &&
    (forall k :: k in b.types && k !in b.data ==> b.types[k] == Unnamed)
  }

  /** The maps after `store<T>(addr, value)`. */
  function WithStored(b: Board, addr: string, value: Payload): (r: Board)
    ensures Consistent(b) ==> Consistent(r)
  {
    Board(b.data[addr := value], b.types[addr := Named(TagOf(value))])
  }

  /** The maps after evaluating `types[addr]`. */
  function Probed(b: Board, addr: string): Board
  {
    if addr in b.types then b else Board(b.data, b.types[addr := Unnamed])
  }

  /** `get<T>(addr)` with `tag` the tag of T: what it yields and the maps afterwards. */
  function Fetch(b: Board, addr: string, tag: Tag): (r: (Fetched, Board))
    requires Consistent(b)
    ensures Consistent(r.1)
    ensures r.0.Value? ==> TagOf(r.0.data) == tag
  {
    var b' := Probed(b, addr);
    if b'.types[addr] != Named(tag) then (TypeMismatch, b')
    else (Value(b'.data[addr]), b')
  }

  class MemoryContext {
    var data: map<string, Payload>
    var types: map<string, TypeName>

    ghost function Snapshot(): Board
      reads this
    {
      Board(data, types)
    }

    ghost predicate Valid()
      reads this
    {
      Consistent(Snapshot())
    }

    /** A default-constructed context: both maps empty. */
    constructor ()
      ensures Valid() && data == map[] && types == map[]
    {
      data := map[];
      types := map[];
    }

    /** `store<T>`: record the value and T's type name at `addr`; no other address changes. */
    method Store(addr: string, value: Payload)
      requires Valid()
      modifies this
      ensures Valid()
      ensures data == old(data)[addr := value]
      ensures types == old(types)[addr := Named(TagOf(value))]
      ensures Snapshot() == WithStored(old(Snapshot()), addr, value)
    {
      data := data[addr := value];
      types := types[addr := Named(TagOf(value))];
    }

    /** `get<T>`: the value when `types[addr]` is T's name, else a type-mismatch error. */
    method Get(addr: string, tag: Tag) returns (r: Fetched)
      requires Valid()
      modifies this
      ensures Valid()
      ensures data == old(data)
      ensures types == if addr in old(types) then old(types) else old(types)[addr := Unnamed]
      ensures r == if addr in old(data) && TagOf(old(data)[addr]) == tag then Value(old(data)[addr]) else TypeMismatch
      ensures (r, Snapshot()) == Fetch(old(Snapshot()), addr, tag)
    {
      if addr !in types {
        types := types[addr := Unnamed];
      }
      if types[addr] != Named(tag) {
        return TypeMismatch;
      }
      return Value(data[addr]);
    }
  }

  // ----- Properties of the store -----

  /** Round trip: getting with the tag just stored yields the value just stored and changes nothing. */
  lemma StoreThenGet(b: Board, addr: string, value: Payload)
    requires Consistent(b)
    ensures Fetch(WithStored(b, addr, value), addr, TagOf(value)) == (Value(value), WithStored(b, addr, value))
  {
  }

  /** Getting with any other tag throws, and changes nothing. */
  lemma StoreThenGetOtherTag(b: Board, addr: string, value: Payload, tag: Tag)
    requires Consistent(b) && tag != TagOf(value)
    ensures Fetch(WithStored(b, addr, value), addr, tag) == (TypeMismatch, WithStored(b, addr, value))
  {
  }

  /** Storing at one address leaves what a get of every other address yields unchanged. */
  lemma StoreLeavesOtherKeys(b: Board, addr: string, value: Payload, key: string, tag: Tag)
    requires Consistent(b) && key != addr
    ensures Fetch(WithStored(b, addr, value), key, tag).0 == Fetch(b, key, tag).0
  {
  }

  /**
   * Getting an address that holds no data throws; it leaves `data` as it was
   * and an empty type name at that address.
   */
  lemma GetAbsentThrows(b: Board, addr: string, tag: Tag)
    requires Consistent(b) && addr !in b.data
    ensures Fetch(b, addr, tag).0 == TypeMismatch
    ensures Fetch(b, addr, tag).1 == Board(b.data, b.types[addr := Unnamed])
  {
  }

  /** Getting an address that holds data changes neither map. */
  lemma GetPresentChangesNothing(b: Board, addr: string, tag: Tag)
    requires Consistent(b) && addr in b.data
    ensures Fetch(b, addr, tag).1 == b
  {
  }
}
