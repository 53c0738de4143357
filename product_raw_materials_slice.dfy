/**
 * `productRawMaterialsSlice`: the product-raw-material associations the UI shows, whether
 * the list is loading, and the last error of loading it. Each method is one `extraReducers` case, applied to the draft state
 * in place.
 */
module ProductRawMaterialsSlice {
  import opened Wrappers
  import opened Panache
  import opened Js
  import opened SliceItems
  import opened ProductRawMaterialDTOs

  function IdOf(p: ProductRawMaterialDTO): Option<Id> { p.id }

  class State {
    var items: seq<ProductRawMaterialDTO>
    var loading: bool
    var error: JsString

    /** `initialState`. */
    constructor ()
      ensures items == [] && !loading && error == None
    {
      items := [];
      loading := false;
      error := None;
    }

    /** `fetchProductRawMaterials.pending`: the list is kept while it reloads. */
    method FetchPending()
      modifies this
      ensures loading && error == None && items == old(items)
    {
      loading := true;
      error := None;
    }

    /** `fetchProductRawMaterials.fulfilled`: the payload replaces the list; the error is left as it is. */
    method FetchFulfilled(payload: seq<ProductRawMaterialDTO>)
      modifies this
      ensures !loading && items == payload && error == old(error)
    {
      loading := false;
      items := payload;
    }

    /** `fetchProductRawMaterials.rejected`: the list is kept. */
    method FetchRejected(e: SerializedError)
      modifies this
      ensures !loading && error == RejectionMessage(e) && items == old(items)
    {
      loading := false;
      error := Or(e.userMessage, e.message);
    }

    /**
     * `fetchProductRawMaterialsByProductId.fulfilled`: one product's associations replace
     * the list; `loading` and `error` are not touched.
     */
    method FetchByProductIdFulfilled(payload: seq<ProductRawMaterialDTO>)
      modifies this
      ensures items == payload && loading == old(loading) && error == old(error)
    {
      items := payload;
    }

    /** `createProductRawMaterial.fulfilled`: `items.push(payload)`. */
    method CreateFulfilled(payload: ProductRawMaterialDTO)
      modifies this
      ensures items == old(items) + [payload]
      ensures loading == old(loading) && error == old(error)
    {
      items := items + [payload];
    }

    /** `updateProductRawMaterial.fulfilled`. */
    method UpdateFulfilled(payload: ProductRawMaterialDTO)
      modifies this
      ensures items == Replaced(old(items), IdOf, payload)
      ensures loading == old(loading) && error == old(error)
    {
      var index := FindIndexById(items, IdOf, payload.id);
      if index != -1 {
        items := items[index := payload];
      }
    }

    /** `deleteProductRawMaterial.fulfilled`, whose payload is the id the thunk was given. */
    method DeleteFulfilled(id: Id)
      modifies this
      ensures items == Removed(old(items), IdOf, id)
      ensures loading == old(loading) && error == old(error)
    {
      items := FilterOutId(items, IdOf, Some(id));
    }
  }
}
