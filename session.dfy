/** What a view finds under a `localStorage` key. `getItem` gives null
    (`Missing`) or a string; "" is falsy, so every view treats it like a
    missing item; any other string is handed to `JSON.parse`, which either
    throws (`Unparsable`) or gives the stored object (`Parsed`). */
module Session {
  import opened Common

  datatype StoredItem<T> = Missing | Empty | Unparsable | Parsed(value: T)

  /** `if (localStorage.getItem(key))`: the item is a non-empty string. */
  predicate Present<T>(item: StoredItem<T>)
  {
    item.Unparsable? || item.Parsed?
  }

  /** The fields the views read from a stored login blob ('patientData',
      'doctorData' or 'adminData'); each may be absent from the object. */
  datatype SessionBlob = SessionBlob(
    id: Option<int>, firstName: Option<string>, name: Option<string>,
    username: Option<string>, token: Option<string>, accessToken: Option<string>)

  /** The three login blobs as one snapshot of `localStorage`. */
  datatype Storage = Storage(
    patientData: StoredItem<SessionBlob>,
    doctorData: StoredItem<SessionBlob>,
    adminData: StoredItem<SessionBlob>)

  /** `localStorage` after `clear()`. */
  const Cleared := Storage(Missing, Missing, Missing)
}
