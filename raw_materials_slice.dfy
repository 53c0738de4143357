/**
 * `rawMaterialsSlice`: the raw materials the UI shows, whether the list is loading, and the last
 * error of loading it. Each method is one `extraReducers` case, applied to the draft state
 * in place.
 */
module RawMaterialsSlice {
  import opened Wrappers
  import opened Panache
  import opened Js
  import opened SliceItems
  import opened RawMaterialDTOs

  function IdOf(p: RawMaterialDTO): Option<Id> { p.id }

  class State {
    var items: seq<RawMaterialDTO>
    var loading: bool
    var error: JsString

    /** `initialState`. */
    constructor ()
      ensures items == [] && !loading && error == None
    {
      items := [];
      loading := false;
      error := None;
    }

    /** `fetchRawMaterials.pending`: the list is kept while it reloads. */
    method FetchPending()
      modifies this
      ensures loading && error == None && items == old(items)
    {
      loading := true;
      error := None;
    }

    /** `fetchRawMaterials.fulfilled`: the payload replaces the list; the error is left as it is. */
    method FetchFulfilled(payload: seq<RawMaterialDTO>)
      modifies this
      ensures !loading && items == payload && error == old(error)
    {
      loading := false;
      items := payload;
    }

    /** `fetchRawMaterials.rejected`: unlike the other slices it stores `message` and never `userMessage`. */
    method FetchRejected(e: SerializedError)
      modifies this
      ensures !loading && error == e.message && items == old(items)
    {
      loading := false;
      error := e.message;
    }

    /** `createRawMaterial.fulfilled`: `items.push(payload)`. */
    method CreateFulfilled(payload: RawMaterialDTO)
      modifies this
      ensures items == old(items) + [payload]
      ensures loading == old(loading) && error == old(error)
    {
      items := items + [payload];
    }

    /** `updateRawMaterial.fulfilled`. */
    method UpdateFulfilled(payload: RawMaterialDTO)
      modifies this
      ensures items == Replaced(old(items), IdOf, payload)
      ensures loading == old(loading) && error == old(error)
    {
      var index := FindIndexById(items, IdOf, payload.id);
      if index != -1 {
        items := items[index := payload];
      }
    }

    /** `deleteRawMaterial.fulfilled`, whose payload is the id the thunk was given. */
    method DeleteFulfilled(id: Id)
      modifies this
      ensures items == Removed(old(items), IdOf, id)
      ensures loading == old(loading) && error == old(error)
    {
      items := FilterOutId(items, IdOf, Some(id));
    }
  }
}
