/**
 * `productionSlice`: the last production plan fetched, whether a calculation is under way,
 * and the error of the last one that failed.
 */
module ProductionSlice {
  import opened Wrappers
  import opened Js
  import opened SliceItems
  import opened ProductionService

  class State {
    var calculation: Option<ProductionCalculation>
    var loading: bool
    var error: JsString

    /** `initialState`. */
    constructor ()
      ensures calculation == None && !loading && error == None
    {
      calculation := None;
      loading := false;
      error := None;
    }

    /** `calculateProduction.pending`: the previous plan stays on screen. */
    method Pending()
      modifies this
      ensures loading && error == None && calculation == old(calculation)
    {
      loading := true;
      error := None;
    }

    /** `calculateProduction.fulfilled`. */
    method Fulfilled(payload: ProductionCalculation)
      modifies this
      ensures !loading && calculation == Some(payload) && error == old(error)
    {
      loading := false;
      calculation := Some(payload);
    }

    /** `calculateProduction.rejected`: the previous plan is kept beside the error. */
    method Rejected(e: SerializedError)
      modifies this
      ensures !loading && error == RejectionMessage(e) && calculation == old(calculation)
    {
      loading := false;
      error := Or(e.userMessage, e.message);
    }
  }
}
