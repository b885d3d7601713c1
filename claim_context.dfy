/**
 * Frontend/fnol-flow-vision/src/contexts/ClaimContext.tsx: the in-memory map
 * of claim results the React context keeps, loaded from and written back to
 * the shared storage item as a whole. React's deferred state updates are
 * modelled as immediate assignments, in call order.
 */
module ClaimContext {
  import opened Common
  import opened AgentText
  import opened BrowserStorage
  import opened JsValue
  import Api

  /**
   * `loadFromStorage`: the item's entries; a missing item, one that does not
   * parse, or one that is not an object gives the empty map, never an error.
   */
  function Load(cell: Cell): (m: map<string, Json>)
    ensures !cell.Object? ==> m == map[]
    ensures cell.Object? ==> m == cell.entries
  {
    match cell
    case Object(entries) => entries
    case _ => map[]
  }

  /** `saveToStorage`: the whole map, serialised, replaces the item. */
  function Save(m: map<string, Json>): (cell: Cell)
    ensures cell.Object? && cell.entries == m
  {
    Object(m)
  }

  /** What `getClaimResult` returns, and the map it leaves behind. */
  datatype Lookup = Lookup(result: Option<Json>, results: map<string, Json>)

  /**
   * `getClaimResult(claimId)`: a truthy entry of the map; otherwise the
   * stored entry, which is also added to the map (storage is not written);
   * otherwise null.
   */
  function Fetch(m: map<string, Json>, cell: Cell, claimId: string): (r: Lookup)
    ensures r.result.Some? ==> JsTruthy(r.result.value)
    ensures r.result.None? ==> r.results == m
    ensures r.result.Some? <==> (claimId in m && JsTruthy(m[claimId])) || Api.GetClaimFromStorage(cell, claimId).Some?
    ensures claimId in m && JsTruthy(m[claimId]) ==> r == Lookup(Some(m[claimId]), m)
    ensures forall other :: other != claimId ==>
      (other in r.results <==> other in m) && (other in m ==> r.results[other] == m[other])
  {
    if claimId in m && JsTruthy(m[claimId]) then Lookup(Some(m[claimId]), m)
    else
      match Api.GetClaimFromStorage(cell, claimId)
      case Some(claimData) => Lookup(Some(claimData), m[claimId := claimData])
      case None => Lookup(None, m)
  }

  /** The provider's state: the map of results and the storage item it mirrors. */
  class ClaimProvider {
    var claimResults: map<string, Json>
    const storage: LocalStorage

    /** The initial state is loaded from storage. */
    constructor (storage: LocalStorage)
      ensures this.storage == storage
      ensures claimResults == Load(storage.cell)
    {
      this.storage := storage;
      claimResults := Load(storage.cell);
    }

    /** `handleStorageChange`: an event for the store's key reloads the map; other keys are ignored. */
    method HandleStorageChange(key: string)
      modifies this`claimResults
      ensures claimResults == if key == StorageKey then Load(storage.cell) else old(claimResults)
    {
      if key == StorageKey {
        claimResults := Load(storage.cell);
      }
    }

    /** `setClaimResult`: one entry set, and the whole map persisted. */
    method SetClaimResult(claimId: string, result: Json)
      modifies this`claimResults, storage`cell
      ensures claimResults == old(claimResults)[claimId := result]
      ensures storage.cell == Save(claimResults)
    {
      var newMap := claimResults[claimId := result];
      storage.cell := Save(newMap);
      claimResults := newMap;
    }

    /** `getClaimResult`: the lookup, with the storage fallback backfilling the map. */
    method GetClaimResult(claimId: string) returns (r: Option<Json>)
      modifies this`claimResults
      ensures Lookup(r, claimResults) == Fetch(old(claimResults), storage.cell, claimId)
    {
      if claimId in claimResults && JsTruthy(claimResults[claimId]) {
        return Some(claimResults[claimId]);
      }
      match storage.cell
      case Object(parsed) =>
        if claimId in parsed && JsTruthy(parsed[claimId]) {
          var claimData := parsed[claimId];
          claimResults := claimResults[claimId := claimData];
          return Some(claimData);
        }
        return None;
      case _ =>
        return None;
    }

    /** `clearClaimResult`: one entry removed, and the whole map persisted. */
    method ClearClaimResult(claimId: string)
      modifies this`claimResults, storage`cell
      ensures claimResults == old(claimResults) - {claimId}
      ensures storage.cell == Save(claimResults)
    {
      var newMap := claimResults - {claimId};
      storage.cell := Save(newMap);
      claimResults := newMap;
    }
  }

  // ------------------------------------------------------------ properties

  /** Loading what was saved gives the same map back. */
  lemma LoadSave(m: map<string, Json>)
    ensures Load(Save(m)) == m
  {
  }

  /** After `setClaimResult(k, r)` with a truthy result, `getClaimResult(k)` returns it and changes nothing. */
  lemma SetThenGet(m: map<string, Json>, claimId: string, result: Json)
    requires JsTruthy(result)
    ensures var m' := m[claimId := result];
      Fetch(m', Save(m'), claimId) == Lookup(Some(result), m')
  {
  }

  /** After `clearClaimResult(k)`, `getClaimResult(k)` misses in memory and in storage. */
  lemma ClearThenGet(m: map<string, Json>, claimId: string)
    ensures var m' := m - {claimId};
      Fetch(m', Save(m'), claimId) == Lookup(None, m')
  {
  }

  /** A miss in memory and a hit in storage returns the stored entry and adds it to the map. */
  lemma StorageFallback(m: map<string, Json>, cell: Cell, claimId: string)
    requires !(claimId in m && JsTruthy(m[claimId]))
    requires cell.Object? && claimId in cell.entries && JsTruthy(cell.entries[claimId])
    ensures Fetch(m, cell, claimId) == Lookup(Some(cell.entries[claimId]), m[claimId := cell.entries[claimId]])
  {
  }

  /** A miss in both places returns null and leaves the map as it was. */
  lemma MissEverywhere(m: map<string, Json>, cell: Cell, claimId: string)
    requires !(claimId in m && JsTruthy(m[claimId]))
    requires !(cell.Object? && claimId in cell.entries && JsTruthy(cell.entries[claimId]))
    ensures Fetch(m, cell, claimId) == Lookup(None, m)
  {
  }

  /**
   * A claim saved through the api service is found by the context's storage
   * fallback: both use the item `fnol_claim_results`.
   */
  lemma ApiSaveVisibleToContext(m: map<string, Json>, cell: Cell, claimId: string, result: Json)
    requires !cell.Malformed? && JsTruthy(result)
    requires !(claimId in m && JsTruthy(m[claimId]))
    ensures Fetch(m, Api.Saved(cell, claimId, result), claimId) == Lookup(Some(result), m[claimId := result])
  {
    Api.SaveThenGet(cell, claimId, result);
  }

  /**
   * `setClaimResult` persists the in-memory map as a whole: an entry that is
   * only in storage (saved there by the api service after the map was
   * loaded) is gone from storage afterwards.
   */
  lemma SetDropsStorageOnlyEntries(m: map<string, Json>, claimId: string, result: Json, other: string)
    requires other != claimId && other !in m
    ensures Api.GetClaimFromStorage(Save(m[claimId := result]), other).None?
  {
  }
}
