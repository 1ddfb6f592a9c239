/**
 * The browser's `localStorage` as the two hooks use it: a map from keys to
 * stored values. The JSON text is not modelled; a stored value is either
 * the empty string (which the hooks read as absent) or a list or settings
 * record as `JSON.stringify` wrote it.
 */
module Storage {
  import opened Records

  datatype Stored =
    | EmptyText
    | DurationList(durations: seq<LessonDuration>)
    | SettingsRecord(settings: Settings)

  /** The process-wide key-value store. */
  class LocalStorage {
    var items: map<string, Stored>

    constructor (items: map<string, Stored>)
      ensures this.items == items
    {
      this.items := items;
    }

    /** `localStorage.setItem(key, value)`: replaces the key's value wholesale. */
    method SetItem(key: string, value: Stored)
      modifies this
      ensures items == old(items)[key := value]
    {
      items := items[key := value];
    }
  }
}
