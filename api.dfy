/**
 * `services/api.js`: the base URL the axios instance is created with, and the response
 * interceptor that gives every failed request a `userMessage` before passing the rejection
 * on.
 */
module Api {
  import opened Wrappers
  import opened Js

  /** `window.location`, where a window exists. */
  datatype Location = Location(hostname: string)

  /** What `getApiBaseUrl` reads: two build-time variables and the global `window`. */
  datatype Environment = Environment(reactAppApiUrl: JsString, nodeEnv: JsString, window: Option<Location>)

  const BACKEND_PORT := "8080"
  const NOT_FOUND_TEXT := "Resource not found"
  const DUPLICATE_CODE_TEXT := "A resource with this code already exists."
  const SERVER_ERROR_TEXT := "Server error. Please try again later."
  const DEFAULT_ERROR_TEXT := "An error occurred"

  /** The host the development build talks to. */
  function DevelopmentHost(env: Environment): string {
    if env.window.Some? then env.window.value.hostname else "localhost"
  }

  /**
   * `getApiBaseUrl`: a configured URL wins; a production build uses relative URLs, which
   * the reverse proxy forwards; otherwise the backend port on the page's host.
   */
  function ApiBaseUrl(env: Environment): (r: string)
    ensures Truthy(env.reactAppApiUrl) ==> r == env.reactAppApiUrl.value
    ensures !Truthy(env.reactAppApiUrl) && env.nodeEnv == Some("production") ==> r == ""
    ensures !Truthy(env.reactAppApiUrl) && env.nodeEnv != Some("production") ==>
              r == "http://" + DevelopmentHost(env) + ":" + BACKEND_PORT
  {
    if Truthy(env.reactAppApiUrl) then env.reactAppApiUrl.value
    else if env.nodeEnv == Some("production") then ""
    else if env.window.Some? then "http://" + env.window.value.hostname + ":" + BACKEND_PORT
    else "http://localhost:" + BACKEND_PORT
  }

  /** Requests go to relative URLs exactly in an unconfigured production build. */
  lemma {:induction false} RelativeExactlyInProduction(env: Environment)
    ensures ApiBaseUrl(env) == "" <==> !Truthy(env.reactAppApiUrl) && env.nodeEnv == Some("production")
  {
    if !Truthy(env.reactAppApiUrl) && env.nodeEnv != Some("production") {
      assert ApiBaseUrl(env)[0] == 'h';
    }
  }

  /**
   * `error.response.data` once parsed: a JSON object (the backend's `ErrorResponse`, whose
   * `message` and `details` are read), a plain-text body, or anything else (no body).
   */
  datatype Data = JsonBody(message: JsString, details: JsString) | TextBody(text: string) | NoBody

  /** `error.response`: present when the server answered. */
  datatype HttpResponse = HttpResponse(status: int, data: Data)

  /** `error.response?.data`. */
  function DataOf(response: Option<HttpResponse>): Data {
    if response.Some? then response.value.data else NoBody
  }

  /** `error.response?.data?.details`. */
  function DetailsOf(d: Data): JsString {
    if d.JsonBody? then d.details else None
  }

  /** `error.response?.data?.message`. */
  function MessageOf(d: Data): JsString {
    if d.JsonBody? then d.message else None
  }

  /**
   * `backendMessage`: the first of `data.details`, `data.message` and a plain-text body that
   * is non-empty; falsy when there is none.
   */
  function BackendMessage(response: Option<HttpResponse>): (r: JsString)
    ensures Truthy(r) <==> Truthy(DetailsOf(DataOf(response))) || Truthy(MessageOf(DataOf(response)))
                           || (DataOf(response).TextBody? && DataOf(response).text != "")
    ensures Truthy(DetailsOf(DataOf(response))) ==> r == DetailsOf(DataOf(response))
    ensures !Truthy(DetailsOf(DataOf(response))) && Truthy(MessageOf(DataOf(response))) ==>
              r == MessageOf(DataOf(response))
    ensures Truthy(r) && !Truthy(DetailsOf(DataOf(response))) && !Truthy(MessageOf(DataOf(response))) ==>
              r == Some(DataOf(response).text)
  {
    var data := DataOf(response);
    Or(Or(DetailsOf(data), MessageOf(data)), if data.TextBody? then Some(data.text) else None)
  }

  /**
   * `fallbackMessage`: a text per status class, or the error's own message. A missing
   * response has no status, and matches none of the three tests.
   */
  function FallbackMessage(message: JsString, response: Option<HttpResponse>): (r: string)
    ensures r != ""
    ensures response.Some? && response.value.status == 404 ==> r == NOT_FOUND_TEXT
    ensures response.Some? && response.value.status == 409 ==> r == DUPLICATE_CODE_TEXT
    ensures response.Some? && response.value.status >= 500 ==> r == SERVER_ERROR_TEXT
    ensures (response.None? || (response.value.status != 404 && response.value.status != 409 && response.value.status < 500)) ==>
              r == (if Truthy(message) then message.value else DEFAULT_ERROR_TEXT)
  {
    if response.Some? && response.value.status == 404 then NOT_FOUND_TEXT
    else if response.Some? && response.value.status == 409 then DUPLICATE_CODE_TEXT
    else if response.Some? && response.value.status >= 500 then SERVER_ERROR_TEXT
    else Or(message, Some(DEFAULT_ERROR_TEXT)).value
  }

  /** `backendMessage || fallbackMessage`: never empty, so every failed request has a text to show. */
  function UserMessage(message: JsString, response: Option<HttpResponse>): (r: string)
    ensures r != ""
    ensures Truthy(BackendMessage(response)) ==> r == BackendMessage(response).value
    ensures !Truthy(BackendMessage(response)) ==> r == FallbackMessage(message, response)
  {
    Or(BackendMessage(response), Some(FallbackMessage(message, response))).value
  }

  /** When the server's JSON body carries a message, the status-based texts are never shown. */
  lemma {:induction false} ServerTextWins(message: JsString, response: Option<HttpResponse>)
    requires Truthy(MessageOf(DataOf(response)))
    ensures UserMessage(message, response) == Or(DetailsOf(DataOf(response)), MessageOf(DataOf(response))).value
  {
  }

  /** The axios error object the interceptor receives. */
  class RequestError {
    const message: JsString
    const response: Option<HttpResponse>
    var userMessage: JsString

    constructor (message: JsString, response: Option<HttpResponse>)
      ensures this.message == message && this.response == response && userMessage == None
    {
      this.message := message;
      this.response := response;
      userMessage := None;
    }

    /**
     * The interceptor's rejection handler: it sets `userMessage` on the error in place and
     * rejects with that same object.
     */
    method OnRejected() returns (rejected: RequestError)
      modifies this
      ensures rejected == this
      ensures userMessage == Some(UserMessage(message, response))
    {
      var backendMessage := BackendMessage(response);
      var fallbackMessage := FallbackMessage(message, response);
      userMessage := Or(backendMessage, Some(fallbackMessage));
      rejected := this;
    }
  }
}
