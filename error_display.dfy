/**
 * From a failed service call to the text the frontend keeps: the backend's `ErrorResponse`
 * body as the interceptor reads it, the value the product thunks reject with, and the error
 * a fetch rejection leaves in a slice.
 */
module ErrorDisplay {
  import opened Wrappers
  import opened Js
  import H = GlobalExceptionHandler
  import ServiceErrors
  import Api
  import SliceItems
  import ProductsSlice

  /** The handler's response as the browser receives it: its JSON body is an object. */
  function Received(r: H.Response): (h: Api.HttpResponse)
    ensures h.status == r.status
    ensures Api.MessageOf(h.data) == Some(r.entity.message) && Api.DetailsOf(h.data) == r.entity.details
  {
    Api.HttpResponse(r.status, Api.JsonBody(Some(r.entity.message), r.entity.details))
  }

  /** Every `ErrorResponse` the handler builds carries a non-empty `message`. */
  lemma {:induction false} HandlerMessageNonEmpty(e: H.Exception, profile: Option<string>)
    ensures H.ToResponse(e, profile).entity.message != ""
  {
    var r := H.ToResponse(e, profile);
    assert r.entity.message in {"Resource not found", "Conflict", "Invalid request", "Validation failed", "Internal server error"};
  }

  /**
   * For any response of the handler the user sees its `details` when there are some and its
   * `message` otherwise: the interceptor's status-based texts never appear.
   */
  lemma {:induction false} HandlerTextReachesUser(e: H.Exception, profile: Option<string>, message: JsString)
    ensures var r := H.ToResponse(e, profile);
            Api.UserMessage(message, Some(Received(r)))
              == (if Truthy(r.entity.details) then r.entity.details.value else r.entity.message)
  {
    HandlerMessageNonEmpty(e, profile);
    var r := H.ToResponse(e, profile);
    Api.ServerTextWins(message, Some(Received(r)));
  }

  /**
   * A NotFound or Conflict failure with a message shows that message, so a duplicate code
   * reads as the service's own "... already exists" text; outside the dev profile an
   * unexpected database error shows the handler's generic text.
   */
  lemma {:induction false} FailureTextShown(f: ServiceErrors.Failure, profile: Option<string>, message: JsString)
    ensures (f.NotFound? || f.Conflict? || f.IllegalArgument?) && f.message != "" ==>
              Api.UserMessage(message, Some(Received(H.ToResponse(ServiceErrors.ToException(f), profile)))) == f.message
    ensures f.Persistence? && profile.GetOr("dev") != "dev" ==>
              Api.UserMessage(message, Some(Received(H.ToResponse(ServiceErrors.ToException(f), profile)))) == H.GENERIC_ERROR_MESSAGE
  {
    var e := ServiceErrors.ToException(f);
    ServiceErrors.FailureResponse(f, profile);
    HandlerTextReachesUser(e, profile, message);
  }

  /**
   * What a fetch rejection stores, as the thunks are written: the serialised `action.error`
   * has no `userMessage`, so the reducer's `userMessage || message` falls back to the thrown
   * error's own `message`, whatever text the interceptor computed.
   */
  lemma {:induction false} FetchRejectionStoresThrownMessage(e: Api.RequestError)
    ensures SliceItems.RejectionMessage(SliceItems.Serialize(e)) == e.message
  {
  }

  /** axios's `message` for a response with status 500. */
  const AXIOS_500_TEXT := "Request failed with status code 500"

  /**
   * The input that shows it: `fetchProducts` answered with the handler's 500 response outside
   * the dev profile. The interceptor's `userMessage` is the handler's generic text, yet the
   * slice stores axios's own message.
   */
  lemma {:induction false} FetchFailureShowsAxiosText(e: Api.RequestError)
    requires e.message == Some(AXIOS_500_TEXT)
    requires e.response == Some(Received(H.Reply(500, "Internal server error", Some(H.GENERIC_ERROR_MESSAGE))))
    requires e.userMessage == Some(Api.UserMessage(e.message, e.response))
    ensures e.userMessage == Some(H.GENERIC_ERROR_MESSAGE)
    ensures SliceItems.RejectionMessage(SliceItems.Serialize(e)) == Some(AXIOS_500_TEXT)
    ensures SliceItems.RejectionMessage(SliceItems.Serialize(e)) != e.userMessage
  {
    Api.ServerTextWins(e.message, e.response);
    FetchRejectionStoresThrownMessage(e);
  }

  /**
   * What the reducers are written for: with `userMessage` kept in `action.error`, a rejection
   * after the interceptor stores exactly the interceptor's text.
   */
  lemma {:induction false} IntendedRejectionStoresUserMessage(e: Api.RequestError)
    requires e.userMessage == Some(Api.UserMessage(e.message, e.response))
    ensures SliceItems.RejectionMessage(SliceItems.SerializeKeepingUserMessage(e)) == e.userMessage
  {
  }

  /**
   * The product create and update thunks reject with the interceptor's text: they read
   * `err.userMessage` themselves, before any serialisation.
   */
  lemma {:induction false} ThunkRejectsWithUserMessage(e: Api.RequestError, fallback: string)
    requires e.userMessage == Some(Api.UserMessage(e.message, e.response))
    ensures ProductsSlice.RejectedValue(e, fallback) == Api.UserMessage(e.message, e.response)
  {
  }
}
