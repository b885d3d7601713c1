/**
 * The browser's `localStorage` as the claim result store uses it: one item,
 * under the key `fnol_claim_results`, holding a serialised object that maps
 * claim ids to processing results. Both Frontend/fnol-flow-vision/src/
 * services/api.ts and contexts/ClaimContext.tsx read and write that item.
 * `JSON.parse` and `JSON.stringify` are not modelled: the item is kept as
 * what `JSON.parse` makes of it.
 */
module BrowserStorage {
  import opened AgentText
  import opened JsValue

  /** The one storage key the store uses (api.ts and ClaimContext.tsx agree on it). */
  const StorageKey := "fnol_claim_results"

  /**
   * What `JSON.parse(localStorage.getItem(key))` yields for the store's item:
   * Missing when the item is absent or the empty string (both falsy),
   * Malformed when parsing throws or yields something other than a plain
   * object, and otherwise the object's entries.
   */
  datatype Cell = Missing | Malformed | Object(entries: map<string, Json>)

  /** The item `fnol_claim_results`, shared by every reader and writer of the store. */
  class LocalStorage {
    var cell: Cell

    constructor (initial: Cell)
      ensures cell == initial
    {
      cell := initial;
    }
  }
}
