/**
 * The storage the adapter keeps its session in, reduced to its get, set and
 * delete contract over a map from keys to stored values.
 */
module SessionStore {
  import opened PhpStrings
  import opened UserProfile

  /** What a storage slot can hold. `get` of an absent key reads as NullValue. */
  datatype StoredValue =
    | NullValue
    | BoolValue(b: bool)
    | IntValue(i: int)
    | StringValue(s: string)
    | ProfileObject(profile: Profile)

  type Store = map<string, StoredValue>

  /** PHP's `(bool)` of a stored value; every object is true. */
  predicate IsTruthy(v: StoredValue)
    ensures v.ProfileObject? ==> IsTruthy(v)
    ensures v.NullValue? ==> !IsTruthy(v)
  {
    match v
    case NullValue => false
    case BoolValue(b) => b
    case IntValue(i) => i != 0
    case StringValue(s) => Truthy(s)
    case ProfileObject(_) => true
  }

  /** `storage->get(key)`. */
  function Get(store: Store, key: string): (v: StoredValue)
    ensures key !in store ==> v == NullValue
    ensures key in store ==> v == store[key]
  {
    if key in store then store[key] else NullValue
  }

  /** `storage->set(key, value)`: afterwards `key` reads as `value`, every
      other key reads as before. */
  function Set(store: Store, key: string, value: StoredValue): (s: Store)
    ensures Get(s, key) == value
    ensures s.Keys == store.Keys + {key}
    ensures forall k :: k != key ==> Get(s, k) == Get(store, k)
  {
    store[key := value]
  }

  /** `storage->delete(key)`: afterwards `key` is absent and reads as
      NullValue, every other key reads as before. */
  function Delete(store: Store, key: string): (s: Store)
    ensures key !in s && Get(s, key) == NullValue
    ensures s.Keys == store.Keys - {key}
    ensures forall k :: k != key ==> Get(s, k) == Get(store, k)
  {
    store - {key}
  }
}
