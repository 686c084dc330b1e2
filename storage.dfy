/** The browser's `localStorage`: one namespace of string keys. The values the
    app writes come in three kinds: JSON arrays of records, JSON objects and
    plain strings; `Item` says which one a key holds. */
module Storage {
  import opened Wrappers
  import opened Json

  datatype Item = List(records: seq<Record>) | Object(record: Record) | Text(text: string)

  class LocalStorage {
    var items: map<string, Item>

    constructor ()
      ensures items == map[]
    {
      items := map[];
    }

    /** `localStorage.getItem(key)` for a key holding a plain string. */
    function GetText(key: string): (v: Option<string>)
      reads this
      ensures v.Some? <==> key in items && items[key].Text?
      ensures v.Some? ==> v.value == items[key].text
    {
      if key in items && items[key].Text? then Some(items[key].text) else None
    }

    /** `localStorage.setItem(key, value)` */
    method Set(key: string, value: Item)
      modifies this
      ensures items == old(items)[key := value]
    {
      items := items[key := value];
    }

    /** `localStorage.removeItem(key)` */
    method Remove(key: string)
      modifies this
      ensures items == old(items) - {key}
    {
      items := items - {key};
    }
  }
}
