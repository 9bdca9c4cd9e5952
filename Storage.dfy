/**
 * The browser's `localStorage`, holding the two records the client persists:
 * the full session record and the validated API catalog.
 */
module Storage {
  import opened Js
  import opened Constants
  import opened Records

  /**
   * A catalog record as `JSON.parse` gives it back: any of its three fields may
   * be missing, for instance when the record was written by an older client.
   */
  datatype CatalogView = CatalogView(
    userEmail: Option<string>,
    APIs: Option<seq<StoredApi>>,
    apiUrl: Option<string>)

  /** What `JSON.parse("{}")` gives: an object without fields. */
  const EMPTY_CATALOG_VIEW := CatalogView(None, None, None)

  /** A value kept under a localStorage key. */
  datatype Stored =
    | Catalog(view: CatalogView)
    | Session(session: SysResults)
    | Malformed(parseError: string)  // text the JSON parser rejects, with the error it throws

  /** What `JSON.stringify` of a validated catalog reads back as. */
  function CatalogRecord(c: StoredCatalog): Stored
  {
    Catalog(CatalogView(Some(c.userEmail), Some(c.APIs), Some(c.apiUrl)))
  }

  /**
   * `JSON.parse(localStorage.getItem(GOOGLE_API_SETTINGS) || "{}")`: a missing
   * key reads as `{}`, a malformed one throws.
   */
  function ReadCatalog(items: map<string, Stored>): (r: Result<CatalogView>)
    ensures GOOGLE_API_SETTINGS !in items ==> r == Success(EMPTY_CATALOG_VIEW)
    ensures r.Failure? <==> GOOGLE_API_SETTINGS in items && items[GOOGLE_API_SETTINGS].Malformed?
    ensures r.Failure? ==> r.error == items[GOOGLE_API_SETTINGS].parseError
    ensures GOOGLE_API_SETTINGS in items && items[GOOGLE_API_SETTINGS].Catalog? ==> r == Success(items[GOOGLE_API_SETTINGS].view)
  {
    if GOOGLE_API_SETTINGS !in items then Success(EMPTY_CATALOG_VIEW)
    else match items[GOOGLE_API_SETTINGS]
      case Catalog(view) => Success(view)
      case Session(_) => Success(EMPTY_CATALOG_VIEW)
      case Malformed(e) => Failure(e)
  }

  /**
   * `JSON.parse(localStorage.getItem(COMPLETE_APP_SETTINGS) || "{}")`: `None`
   * stands for the field-less object read from a missing key.
   */
  function ReadSession(items: map<string, Stored>): (r: Result<Option<SysResults>>)
    ensures r.Failure? <==> COMPLETE_APP_SETTINGS in items && items[COMPLETE_APP_SETTINGS].Malformed?
    ensures r.Failure? ==> r.error == items[COMPLETE_APP_SETTINGS].parseError
    ensures r.Success? && r.value.Some? <==> COMPLETE_APP_SETTINGS in items && items[COMPLETE_APP_SETTINGS].Session?
    ensures r.Success? && r.value.Some? ==> r.value.value == items[COMPLETE_APP_SETTINGS].session
  {
    if COMPLETE_APP_SETTINGS !in items then Success(None)
    else match items[COMPLETE_APP_SETTINGS]
      case Session(s) => Success(Some(s))
      case Catalog(_) => Success(None)
      case Malformed(e) => Failure(e)
  }

  /** A catalog written by the validator reads back with all its fields. */
  lemma CatalogReadsBack(items: map<string, Stored>, c: StoredCatalog)
    ensures ReadCatalog(items[GOOGLE_API_SETTINGS := CatalogRecord(c)])
         == Success(CatalogView(Some(c.userEmail), Some(c.APIs), Some(c.apiUrl)))
  {
  }

  /** A session record written under its key reads back unchanged, and leaves the catalog alone. */
  lemma SessionReadsBack(items: map<string, Stored>, s: SysResults)
    ensures ReadSession(items[COMPLETE_APP_SETTINGS := Session(s)]) == Success(Some(s))
    ensures ReadCatalog(items[COMPLETE_APP_SETTINGS := Session(s)]) == ReadCatalog(items)
  {
  }

  class LocalStorage {
    var items: map<string, Stored>

    constructor(items: map<string, Stored>)
      ensures this.items == items
    {
      this.items := items;
    }

    /** `localStorage.setItem(key, value)`: overwrites, never merges. */
    method SetItem(key: string, value: Stored)
      modifies this`items
      ensures items == old(items)[key := value]
    {
      items := items[key := value];
    }
  }
}
