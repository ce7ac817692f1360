/**
 * The browser's `localStorage` as the directory uses it: a key-value store
 * whose values are the JSON text of the member collection, the JSON text of
 * the field configuration, or a plain note. JSON is not spelled out: a
 * stored collection is kept as the value it serialises, so that parsing
 * what was stringified gives the value back.
 */
module Storage {
  import opened Types

  /** A stored value, by what its text is. */
  datatype Stored =
    | MembersJson(members: seq<AssociationMember>)
    | ConfigJson(config: seq<FieldConfig>)
    | Text(text: string)

  /**
   * `localStorage.getItem(key)` used as a condition: absent gives `null` and
   * the empty string is falsy, so both read as nothing saved.
   */
  function Saved(items: map<string, Stored>, key: string): (r: Option<Stored>)
    ensures r.Some? <==> key in items && items[key] != Text("")
    ensures r.Some? ==> r.value == items[key]
  {
    if key in items && items[key] != Text("") then Some(items[key]) else None
  }

  /**
   * What `setItem` writes reads back as saved, unless it is the empty string;
   * after `removeItem` nothing reads as saved; other keys read as before.
   */
  lemma SavedAfterWrite(items: map<string, Stored>, key: string, value: Stored, other: string)
    requires other != key
    ensures Saved(items[key := value], key) == if value == Text("") then None else Some(value)
    ensures Saved(items - {key}, key) == None
    ensures Saved(items[key := value], other) == Saved(items, other)
    ensures Saved(items - {key}, other) == Saved(items, other)
  {
  }

  class LocalStorage {
    var items: map<string, Stored>

    constructor (initial: map<string, Stored>)
      ensures items == initial
    {
      items := initial;
    }

    /** `localStorage.setItem(key, value)`. */
    method SetItem(key: string, value: Stored)
      modifies this
      ensures items == old(items)[key := value]
    {
      items := items[key := value];
    }

    /** `localStorage.removeItem(key)`. */
    method RemoveItem(key: string)
      modifies this
      ensures items == old(items) - {key}
    {
      items := items - {key};
    }
  }
}
