/**
 * The browser state the core touches, as plain maps: `localStorage` and the
 * document root element's inline style properties and attributes.
 */
module Browser {
  import opened Wrappers

  /** `window.localStorage`: string keys to string values. */
  class LocalStorage {
    var items: map<string, string>

    constructor (items: map<string, string>)
      ensures this.items == items
    {
      this.items := items;
    }

    /** `getItem(key)`: the stored string, or `null` (`None`) when absent. */
    function GetItem(key: string): (r: Option<string>)
      reads this
      ensures r.Some? <==> key in items
      ensures r.Some? ==> r.value == items[key]
    {
      if key in items then Some(items[key]) else None
    }

    /** `setItem(key, value)`: overwrites `key` only. */
    method SetItem(key: string, value: string)
      modifies this
      ensures items == old(items)[key := value]
    {
      items := items[key := value];
    }

    /** `removeItem(key)`: removes `key` only. */
    method RemoveItem(key: string)
      modifies this
      ensures items == old(items) - {key}
    {
      items := items - {key};
    }
  }

  /** `document.documentElement`: its inline style properties and its attributes. */
  class DocumentRoot {
    var style: map<string, string>
    var attributes: map<string, string>

    constructor ()
      ensures style == map[] && attributes == map[]
    {
      style, attributes := map[], map[];
    }

    /** `style.setProperty(name, value)`. */
    method SetProperty(name: string, value: string)
      modifies this`style
      ensures style == old(style)[name := value]
    {
      style := style[name := value];
    }

    /** `setAttribute(name, value)`. */
    method SetAttribute(name: string, value: string)
      modifies this`attributes
      ensures attributes == old(attributes)[name := value]
    {
      attributes := attributes[name := value];
    }
  }
}
