/** `expo-secure-store`: one process-wide map from keys to stored strings. */
module SecureStore {
  import opened Wrappers

  class Store {
    var items: map<string, string>

    constructor (initial: map<string, string>)
      ensures items == initial
    {
      items := initial;
    }

    /** `getItemAsync(key)`: the stored value, `None` (null) when the key is absent. */
    method GetItem(key: string) returns (r: Option<string>)
      ensures r.Some? <==> key in items
      ensures r.Some? ==> r.value == items[key]
    {
      if key in items {
        r := Some(items[key]);
      } else {
        r := None;
      }
    }

    /** `setItemAsync(key, value)`: overwrites; every other key is untouched. */
    method SetItem(key: string, value: string)
      modifies this
      ensures items == old(items)[key := value]
    {
      items := items[key := value];
    }

    /** `deleteItemAsync(key)`: idempotent, deleting an absent key is not an error. */
    method DeleteItem(key: string)
      modifies this
      ensures items == old(items) - {key}
    {
      items := items - {key};
    }
  }
}
