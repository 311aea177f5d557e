/**
 * The browser's local storage, shared by both data stores. Each entry is
 * the text `JSON.stringify` wrote; the model keeps the tree that text
 * denotes, or records that the text does not parse.
 */
module Storage {
  import Optional
  import opened JsValues

  /** A stored text: the serialisation of a tree, or text that `JSON.parse`
      rejects (the empty string included, which both stores skip too). */
  datatype Entry = Snapshot(tree: Json) | Unparsable

  class LocalStorage {
    var items: map<string, Entry>

    constructor (initial: map<string, Entry>)
      ensures items == initial
    {
      items := initial;
    }

    /** `localStorage.setItem(key, JSON.stringify(tree))`. */
    method SetItem(key: string, tree: Json)
      modifies this
      ensures items == old(items)[key := Snapshot(tree)]
    {
      items := items[key := Snapshot(tree)];
    }

    /** `localStorage.removeItem(key)`. */
    method RemoveItem(key: string)
      modifies this
      ensures items == old(items) - {key}
    {
      items := items - {key};
    }

    /** The tree a mounting store adopts from `key`: present only when the
        key holds text that parses. */
    function Saved(key: string): (r: Optional.Option<Json>)
      reads this
      ensures r.Some? <==> key in items && items[key].Snapshot?
      ensures r.Some? ==> items[key] == Snapshot(r.value)
    {
      if key in items && items[key].Snapshot? then Optional.Some(items[key].tree) else Optional.None
    }
  }
}
