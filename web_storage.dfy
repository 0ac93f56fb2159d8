/**
 * The browser's `localStorage`: a synchronous, persistent map from string keys
 * to string values. Whether the browser has room for a write is decided outside
 * this model and passed in as `fits`.
 */
module WebStorage {
  import opened Wrappers

  /** How a `setItem` call ends: the value is stored, or a quota error is thrown. */
  datatype WriteResult = Written | QuotaExceeded

  class LocalStorage {
    var items: map<string, string>

    constructor (initial: map<string, string>)
      ensures items == initial
    {
      items := initial;
    }

    /** `getItem`: the stored text, or null (None) for a key that is not there. */
    method GetItem(key: string) returns (r: Option<string>)
      ensures r.Some? <==> key in items
      ensures r.Some? ==> r.value == items[key]
    {
      if key in items {
        r := Some(items[key]);
      } else {
        r := None;
      }
    }

    /** `setItem`: stores the text, or throws and leaves the store as it was. */
    method SetItem(key: string, value: string, fits: bool) returns (r: WriteResult)
      modifies this
      ensures r == (if fits then Written else QuotaExceeded)
      ensures items == if fits then old(items)[key := value] else old(items)
    {
      if fits {
        items := items[key := value];
        r := Written;
      } else {
        r := QuotaExceeded;
      }
    }

    /** `removeItem`: deletes the key; removing a missing key does nothing. */
    method RemoveItem(key: string)
      modifies this
      ensures items == old(items) - {key}
    {
      items := items - {key};
    }
  }
}
