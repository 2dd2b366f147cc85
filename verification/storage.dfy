/** The key/value store wrapper of the relying party, over a map from entry
    ids to values. Each operation that changes the store returns the store
    after the call. */
module Storage {
  import opened Wrappers

  /** The object store behind the wrapper. */
  datatype Store<T> = Store(entries: map<string, T>)

  /** `getData`: the stored value, or null for an absent id. */
  function GetData<T>(store: Store<T>, id: string): (r: Option<T>)
    ensures r.None? <==> id !in store.entries
    ensures r.Some? ==> r.value == store.entries[id]
  {
    if id in store.entries then Some(store.entries[id]) else None
  }

  /** `containsData`: false for a null id; otherwise whether the id has a
      value, that is, whether `getData` returns one. */
  function ContainsData<T>(store: Store<T>, id: Option<string>): (b: bool)
    ensures id.None? ==> !b
    ensures id.Some? ==> (b <==> GetData(store, id.value).Some?)
  {
    id.Some? && id.value in store.entries
  }

  /** `storeData`: removes an existing entry for the id, then stores the
      value. The result is an overwrite of that one id. */
  function StoreData<T>(store: Store<T>, id: string, data: T): (s: Store<T>)
    ensures s.entries == store.entries[id := data]
  {
    var cleared := if id in store.entries then store.entries - {id} else store.entries;
    Store(cleared[id := data])
  }

  /** `removeData`: deletes the entry if there is one; otherwise nothing
      changes. */
  function RemoveData<T>(store: Store<T>, id: string): (s: Store<T>)
    ensures s.entries.Keys == store.entries.Keys - {id}
    ensures forall other :: other in s.entries ==> s.entries[other] == store.entries[other]
    ensures id !in store.entries ==> s == store
  {
    if id in store.entries then Store(store.entries - {id}) else store
  }

  /** After storing a value under an id, reading the id gives that value,
      whether or not the id was present before. */
  lemma GetAfterStore<T>(store: Store<T>, id: string, data: T)
    ensures GetData(StoreData(store, id, data), id) == Some(data)
    ensures ContainsData(StoreData(store, id, data), Some(id))
  {
  }

  /** Storing under one id leaves every other id's entry as it was. */
  lemma StoreLeavesOthers<T>(store: Store<T>, id: string, data: T, other: string)
    requires other != id
    ensures GetData(StoreData(store, id, data), other) == GetData(store, other)
  {
  }

  /** After removing an id it is no longer contained, and every other id
      reads as before. */
  lemma RemoveForgetsOnlyThatId<T>(store: Store<T>, id: string, other: string)
    requires other != id
    ensures !ContainsData(RemoveData(store, id), Some(id))
    ensures GetData(RemoveData(store, id), id).None?
    ensures GetData(RemoveData(store, id), other) == GetData(store, other)
  {
  }

  /** Removing twice is removing once. */
  lemma RemoveIdempotent<T>(store: Store<T>, id: string)
    ensures RemoveData(RemoveData(store, id), id) == RemoveData(store, id)
  {
  }

  /** Storing twice under one id keeps only the second value. */
  lemma StoreOverwrites<T>(store: Store<T>, id: string, first: T, second: T)
    ensures StoreData(StoreData(store, id, first), id, second) == StoreData(store, id, second)
  {
  }

  /** Storing and then removing an id leaves the store as removing alone. */
  lemma RemoveUndoesStore<T>(store: Store<T>, id: string, data: T)
    ensures RemoveData(StoreData(store, id, data), id) == RemoveData(store, id)
  {
  }
}
