/**
 * The persisted instance data of one view instance, partitioned by the
 * owning user: at most one value per (user, key). Every entity-level data
 * operation reads the current user first and then works on that user's
 * partition only. The store is held as a map from owning user to that
 * user's key-to-value map, so a record is identified by (user, key).
 */
module InstanceDataStore {
  import opened Wrappers

  /** Values of one instance: owning user, then key. */
  type Store = map<string, map<string, string>>

  /** Everything `user` owns, as a flat key-to-value map (empty for a user who never wrote). */
  function Partition(s: Store, user: string): map<string, string> {
    if user in s then s[user] else map[]
  }

  /** Whether a record exists for (user, key). */
  predicate HasRecord(s: Store, user: string, key: string) {
    user in s && key in s[user]
  }

  /** Writes `value` under (user, key), replacing any earlier value for that pair. */
  function Put(s: Store, user: string, key: string, value: string): (r: Store)
    ensures HasRecord(r, user, key)
    ensures forall u, k :: HasRecord(s, u, k) ==> HasRecord(r, u, k)
    ensures forall u, k :: HasRecord(r, u, k) ==> HasRecord(s, u, k) || (u, k) == (user, key)
  {
    s[user := Partition(s, user)[key := value]]
  }

  /** Deletes the value under (user, key); nothing happens when there is none. */
  function Remove(s: Store, user: string, key: string): (r: Store)
    ensures !HasRecord(r, user, key)
    ensures forall u, k :: HasRecord(r, u, k) <==> HasRecord(s, u, k) && (u, k) != (user, key)
  {
    if user in s then s[user := s[user] - {key}] else s
  }

  /** The value under (user, key), if any. */
  function Get(s: Store, user: string, key: string): (r: Option<string>)
    ensures r.Some? <==> HasRecord(s, user, key)
    ensures r.Some? ==> r.value == s[user][key]
  {
    Lookup(Partition(s, user), key)
  }

  /** A put by `user` updates exactly `key` in that user's map. */
  lemma PartitionAfterPut(s: Store, user: string, key: string, value: string)
    ensures Partition(Put(s, user, key, value), user) == Partition(s, user)[key := value]
    ensures Get(Put(s, user, key, value), user, key) == Some(value)
  {
  }

  /** A removal by `user` takes exactly `key` out of that user's map. */
  lemma PartitionAfterRemove(s: Store, user: string, key: string)
    ensures Partition(Remove(s, user, key), user) == Partition(s, user) - {key}
    ensures Get(Remove(s, user, key), user, key) == None
  {
  }

  /** Writes and removals by one user are invisible to every other user. */
  lemma PartitionIsolated(s: Store, writer: string, reader: string, key: string, value: string)
    requires writer != reader
    ensures Partition(Put(s, writer, key, value), reader) == Partition(s, reader)
    ensures Partition(Remove(s, writer, key), reader) == Partition(s, reader)
  {
  }

  /** Overwriting a key the user already owns keeps the size of that user's map: no duplicate record. */
  lemma PutExistingKeepsSize(s: Store, user: string, key: string, value: string)
    requires HasRecord(s, user, key)
    ensures |Partition(Put(s, user, key, value), user)| == |Partition(s, user)|
  {
  }
}
