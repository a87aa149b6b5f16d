/**
 The browser's `localStorage` as a pure value: a finite map from keys to
 strings. `getItem` of a missing key yields no value; `setItem` and
 `removeItem` change one key and no other.
 */
module KeyValue {
  import opened Values

  type Storage = map<string, string>

  /** Keys the application persists. */
  const TokenKey := "token"
  const UsernameKey := "username"
  const SidebarKey := "sidebarOpen"

  function GetItem(s: Storage, key: string): (r: Option<string>)
    ensures r.Some? <==> key in s
    ensures r.Some? ==> r.value == s[key]
  {
    if key in s then Some(s[key]) else None
  }

  function SetItem(s: Storage, key: string, value: string): (r: Storage)
    ensures GetItem(r, key) == Some(value)
    ensures forall k :: k != key ==> GetItem(r, k) == GetItem(s, k)
  {
    s[key := value]
  }

  function RemoveItem(s: Storage, key: string): (r: Storage)
    ensures GetItem(r, key) == None
    ensures forall k :: k != key ==> GetItem(r, k) == GetItem(s, k)
  {
    s - {key}
  }

  /** Every key outside `keys` reads the same in both storages. */
  ghost predicate AgreeOutside(s: Storage, t: Storage, keys: set<string>) {
    forall k :: k !in keys ==> GetItem(s, k) == GetItem(t, k)
  }
}
