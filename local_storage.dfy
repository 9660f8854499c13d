/** The browser's `localStorage`: a mutable map from string keys to string values. */
module LocalStorage {
  import opened Wrappers

  type Entries = map<string, string>

  /** `getItem`: the stored string, or `null` (here `None`) when the key is absent. */
  function Lookup(entries: Entries, key: string): (r: Option<string>)
    ensures r.Some? <==> key in entries
    ensures r.Some? ==> r.value == entries[key]
  {
    if key in entries then Some(entries[key]) else None
  }

  class Storage {
    var entries: Entries

    constructor (initial: Entries)
      ensures entries == initial
    {
      entries := initial;
    }

    method GetItem(key: string) returns (r: Option<string>)
      ensures r == Lookup(entries, key)
    {
      r := Lookup(entries, key);
    }

    method SetItem(key: string, value: string)
      modifies this
      ensures entries == old(entries)[key := value]
    {
      entries := entries[key := value];
    }

    method RemoveItem(key: string)
      modifies this
      ensures entries == old(entries) - {key}
    {
      entries := entries - {key};
    }
  }
}
