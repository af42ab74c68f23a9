/**
  The entity of the service and the in-memory store that owns it.
  A bill is the Go struct `Bill{Id, Name string}`; the store is the
  unsynchronised `map[string]Bill` held by `BillService`.
 */
module Bills {

  /** A bill: an identifier that doubles as its store key, and a free-text name. */
  datatype Bill = Bill(id: string, name: string)

  /** Go's zero value of `Bill`: both fields empty. */
  const ZeroBill := Bill("", "")

  /** The bill store, keyed by identifier. */
  type Store = map<string, Bill>

  /** The store the service starts with. */
  const EmptyStore: Store := map[]

  /** Go's map index `m[k]`: the stored bill, or the zero bill when `k` is absent. */
  function Lookup(s: Store, id: string): (b: Bill)
    ensures id in s ==> b == s[id]
    ensures id !in s ==> b == ZeroBill
    ensures b.id == "" <==> id !in s || s[id].id == ""
  {
    if id in s then s[id] else ZeroBill
  }

  /** Every bill is stored under its own identifier. */
  ghost predicate KeysMatchIds(s: Store)
  {
    forall k :: k in s ==> s[k].id == k
  }

  /** `m[b.Id] = b`: insert or replace the bill under its own identifier. */
  function Save(s: Store, b: Bill): (s': Store)
    ensures s'.Keys == s.Keys + {b.id}
    ensures s'[b.id] == b
    ensures forall k :: k in s && k != b.id ==> s'[k] == s[k]
    ensures KeysMatchIds(s) ==> KeysMatchIds(s')
  {
    s[b.id := b]
  }

  /** `delete(m, id)`: remove key `id`; nothing happens when it is absent. */
  function Delete(s: Store, id: string): (s': Store)
    ensures s'.Keys == s.Keys - {id}
    ensures forall k :: k in s' ==> s'[k] == s[k]
    ensures id !in s ==> s' == s
    ensures KeysMatchIds(s) ==> KeysMatchIds(s')
  {
    s - {id}
  }
}
