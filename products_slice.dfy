/**
 * `productsSlice`: the products the UI shows, whether the list is loading, and the last
 * error of loading it. Each method is one `extraReducers` case, applied to the draft state
 * in place.
 */
module ProductsSlice {
  import opened Wrappers
  import opened Panache
  import opened Js
  import opened SliceItems
  import opened ProductDTOs
  import Api

  function IdOf(p: ProductDTO): Option<Id> { p.id }

  const CREATE_ERROR_TEXT := "Error creating product"
  const UPDATE_ERROR_TEXT := "Error updating product"

  /**
   * The value `createProduct` and `updateProduct` reject with when the request fails:
   * `err.userMessage || err.message || fallback`, with `fallback` one of the two texts above.
   */
  function RejectedValue(e: Api.RequestError, fallback: string): (r: string)
    reads e
    ensures fallback != "" ==> r != ""
    ensures Truthy(e.userMessage) ==> r == e.userMessage.value
    ensures !Truthy(e.userMessage) && Truthy(e.message) ==> r == e.message.value
    ensures !Truthy(e.userMessage) && !Truthy(e.message) ==> r == fallback
  {
    Or(Or(e.userMessage, e.message), Some(fallback)).value
  }

  class State {
    var items: seq<ProductDTO>
    var loading: bool
    var error: JsString

    /** `initialState`. */
    constructor ()
      ensures items == [] && !loading && error == None
    {
      items := [];
      loading := false;
      error := None;
    }

    /** `fetchProducts.pending`: the list is kept while it reloads. */
    method FetchPending()
      modifies this
      ensures loading && error == None && items == old(items)
    {
      loading := true;
      error := None;
    }

    /** `fetchProducts.fulfilled`: the payload replaces the list; the error is left as it is. */
    method FetchFulfilled(payload: seq<ProductDTO>)
      modifies this
      ensures !loading && items == payload && error == old(error)
    {
      loading := false;
      items := payload;
    }

    /** `fetchProducts.rejected`: the list is kept. */
    method FetchRejected(e: SerializedError)
      modifies this
      ensures !loading && error == RejectionMessage(e) && items == old(items)
    {
      loading := false;
      error := Or(e.userMessage, e.message);
    }

    /** `createProduct.fulfilled`: `items.push(payload)`. */
    method CreateFulfilled(payload: ProductDTO)
      modifies this
      ensures items == old(items) + [payload]
      ensures loading == old(loading) && error == old(error)
    {
      items := items + [payload];
    }

    /** `updateProduct.fulfilled`. */
    method UpdateFulfilled(payload: ProductDTO)
      modifies this
      ensures items == Replaced(old(items), IdOf, payload)
      ensures loading == old(loading) && error == old(error)
    {
      var index := FindIndexById(items, IdOf, payload.id);
      if index != -1 {
        items := items[index := payload];
      }
    }

    /** `deleteProduct.fulfilled`, whose payload is the id the thunk was given. */
    method DeleteFulfilled(id: Id)
      modifies this
      ensures items == Removed(old(items), IdOf, id)
      ensures loading == old(loading) && error == old(error)
    {
      items := FilterOutId(items, IdOf, Some(id));
    }
  }
}
