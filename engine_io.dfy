// EngineIO: a string-keyed store of type-erased values (std::any). A value
// is modelled as a tagged union over the types stored in practice; get<T>
// names the type it asks for with a tag, and gives nothing both for a
// missing key and for a value of another type (bad_any_cast is caught).

module EngineStore {
  import opened Common

  datatype ValueType = IntType | RealType | BoolType | StringType

  datatype Value = IntValue(i: int) | RealValue(r: real) | BoolValue(b: bool) | StringValue(s: string)

  function TypeOf(v: Value): ValueType
  {
    match v
    case IntValue(_) => IntType
    case RealValue(_) => RealType
    case BoolValue(_) => BoolType
    case StringValue(_) => StringType
  }

  /** get<T> over a storage map. */
  function Fetch(storage: map<string, Value>, key: string, t: ValueType): (r: Option<Value>)
    ensures r.Some? <==> key in storage && TypeOf(storage[key]) == t
    ensures r.Some? ==> r.value == storage[key] && TypeOf(r.value) == t
  {
    if key !in storage then None
    else if TypeOf(storage[key]) != t then None
    else Some(storage[key])
  }

  class EngineIO {
    var storage: map<string, Value>

    constructor()
      ensures storage == map[]
    {
      storage := map[];
    }

    /** set: stores or overwrites the value under the key. */
    method Set(key: string, v: Value)
      modifies this
      ensures storage == old(storage)[key := v]
      ensures Get(key, TypeOf(v)) == Some(v)
    {
      storage := storage[key := v];
    }

    function Get(key: string, t: ValueType): Option<Value>
      reads this
    {
      Fetch(storage, key, t)
    }

    function Has(key: string): bool
      reads this
    {
      key in storage
    }

    /** erase: drops the key, if present, and nothing else. */
    method Erase(key: string)
      modifies this
      ensures storage == old(storage) - {key}
      ensures !Has(key)
    {
      storage := storage - {key};
    }

    /** clear: drops every key. */
    method Clear()
      modifies this
      ensures storage == map[]
    {
      storage := map[];
    }
  }

  /** A stored value reads back under its own type, and under no other. */
  lemma SetThenGet(storage: map<string, Value>, key: string, v: Value, t: ValueType)
    ensures Fetch(storage[key := v], key, t) == if t == TypeOf(v) then Some(v) else None
  {
  }

  /** A later set overwrites: only the last value under the key is seen. */
  lemma SetOverwrites(storage: map<string, Value>, key: string, v1: Value, v2: Value, t: ValueType)
    ensures Fetch(storage[key := v1][key := v2], key, t) == Fetch(storage[key := v2], key, t)
  {
  }

  /** Setting or erasing one key leaves every other key as it was. */
  lemma OtherKeysUntouched(storage: map<string, Value>, key: string, other: string, v: Value, t: ValueType)
    requires other != key
    ensures Fetch(storage[key := v], other, t) == Fetch(storage, other, t)
    ensures Fetch(storage - {key}, other, t) == Fetch(storage, other, t)
  {
  }

  /** has(k) holds exactly when get<T>(k) answers for the stored value's type. */
  lemma HasIffGettable(storage: map<string, Value>, key: string)
    ensures key in storage <==> exists t :: Fetch(storage, key, t).Some?
  {
    if key in storage {
      assert Fetch(storage, key, TypeOf(storage[key])).Some?;
    }
  }
}
