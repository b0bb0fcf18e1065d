/**
 * The anonymous identity of the device: `useUserId` reads the id kept in
 * browser storage under a fixed key and, when there is none, stores a newly
 * generated one (src/components/Universe.jsx). Storage is a string map and the
 * generator's output an input.
 */
module Identity {

  /** The storage key of the persisted id. */
  const StorageKey: string := "universe_user_id"

  /** Browser-local storage: string keys to string values. */
  type Store = map<string, string>

  /** The id the hook yields and the storage after the lookup. */
  datatype Resolved = Resolved(userId: string, store: Store)

  /** Whether the store holds an id that JavaScript counts as present:
      `getItem` gives `null` for a missing key, and both `null` and the empty
      string are falsy. */
  predicate HasUserId(store: Store)
    ensures StorageKey !in store ==> !HasUserId(store)
    ensures StorageKey in store ==> (HasUserId(store) <==> |store[StorageKey]| > 0)
  {
    StorageKey in store && store[StorageKey] != ""
  }

  /** Get-or-create: a stored id is returned and the store is untouched;
      otherwise `generated` (a random UUID, or a random base-36 string) is
      written under the key and returned. No other key is changed. */
  function GetOrCreateUserId(store: Store, generated: string): (r: Resolved)
    ensures HasUserId(store) ==> r.userId == store[StorageKey] && r.store == store
    ensures !HasUserId(store) ==> r.userId == generated
    ensures StorageKey in r.store && r.store[StorageKey] == r.userId
    ensures r.store.Keys == store.Keys + {StorageKey}
    ensures forall k :: k in store && k != StorageKey ==> r.store[k] == store[k]
  {
    var uid := if StorageKey in store then store[StorageKey] else "";
    if uid != "" then Resolved(uid, store)
    else Resolved(generated, store[StorageKey := generated])
  }

  /** Once a non-empty id has been generated, every later call yields that
      same id, whatever the generator produces, and leaves the store as it is. */
  lemma SecondCallIsStable(store: Store, generated: string, later: string)
    requires generated != ""
    ensures var first := GetOrCreateUserId(store, generated);
            GetOrCreateUserId(first.store, later) == first
  {
  }

  /** The id the hook returns is non-empty whenever the generator's output is. */
  lemma UserIdNonEmpty(store: Store, generated: string)
    requires generated != ""
    ensures GetOrCreateUserId(store, generated).userId != ""
  {
  }
}
