/**
 * The two persistence backends the client uses, AsyncStorage (the general
 * store) and SecureStore, seen as string-keyed maps that are updated in place.
 * Any call may fail because the backend is unavailable; each call takes that
 * as a parameter, `available`.
 */
module KeyValue {
  import opened Wrappers

  /** The error a backend raises when it is unavailable. */
  datatype StorageError = Unavailable

  /** The entries after a write of value under key, which only happens when the backend is up. */
  function Written<V>(entries: map<string, V>, key: string, value: V, available: bool): (r: map<string, V>)
    ensures available ==> key in r && r[key] == value
    ensures forall k :: k != key ==> (k in r <==> k in entries)
    ensures forall k :: k != key && k in r ==> r[k] == entries[k]
    ensures !available ==> r == entries
  {
    if available then entries[key := value] else entries
  }

  /** The entries after a delete of key, which only happens when the backend is up. */
  function Erased<V>(entries: map<string, V>, key: string, available: bool): (r: map<string, V>)
    ensures available ==> key !in r
    ensures forall k :: k != key ==> (k in r <==> k in entries)
    ensures forall k :: k != key && k in r ==> r[k] == entries[k]
    ensures !available ==> r == entries
  {
    if available then entries - {key} else entries
  }

  /** Deleting a key a second time leaves the entries as the first delete did. */
  lemma ErasedIdempotent<V>(entries: map<string, V>, key: string, available: bool)
    ensures Erased(Erased(entries, key, available), key, available) == Erased(entries, key, available)
  {
    if available {
      assert (entries - {key}) - {key} == entries - {key};
    }
  }

  class Store<V> {
    var entries: map<string, V>

    constructor (initial: map<string, V>)
      ensures entries == initial
    {
      entries := initial;
    }

    /** The value stored under key, or None (`getItem` resolving to null). */
    function Lookup(key: string): (r: Option<V>)
      reads this
      ensures r.Some? <==> key in entries
      ensures r.Some? ==> r.value == entries[key]
    {
      if key in entries then Some(entries[key]) else None
    }

    /** `setItem`: overwrites the entry, or rejects when the backend is down. */
    method SetItem(key: string, value: V, available: bool) returns (r: Result<(), StorageError>)
      modifies this
      ensures r.Success? <==> available
      ensures entries == Written(old(entries), key, value, available)
    {
      if available {
        entries := entries[key := value];
        r := Success(());
      } else {
        r := Failure(Unavailable);
      }
    }

    /** `getItem`: the stored value or null, or a rejection when the backend is down. */
    method GetItem(key: string, available: bool) returns (r: Result<Option<V>, StorageError>)
      ensures r.Success? <==> available
      ensures r.Success? ==> r.value == Lookup(key)
    {
      if available {
        r := Success(Lookup(key));
      } else {
        r := Failure(Unavailable);
      }
    }

    /** `deleteItem`: removes the entry if present, or rejects when the backend is down. */
    method DeleteItem(key: string, available: bool) returns (r: Result<(), StorageError>)
      modifies this
      ensures r.Success? <==> available
      ensures entries == Erased(old(entries), key, available)
    {
      if available {
        entries := entries - {key};
        r := Success(());
      } else {
        r := Failure(Unavailable);
      }
    }
  }
}
