/**
 * The message a dialog shows when its request fails: the server's message when it
 * sent one, else the error's own message, else a generic text. JavaScript's `||`
 * skips an absent value and the empty string alike.
 */
module MutationErrors {
  import opened Products

  /** The `data` envelope of an error response. */
  datatype ResponseBody = ResponseBody(message: Option<string>)

  /** The HTTP response attached to a failed request, if any. */
  datatype Response = Response(data: Option<ResponseBody>)

  /** A rejected request: the optional response and the error's own message. */
  datatype MutationError = MutationError(response: Option<Response>, message: Option<string>)

  const FALLBACK_MESSAGE := "Something went wrong"

  /** A string JavaScript treats as true: present and not empty. */
  predicate Truthy(m: Option<string>) {
    m.Some? && m.value != ""
  }

  /** `error?.response?.data?.message`. */
  function ResponseMessage(e: MutationError): Option<string> {
    match e.response
    case None => None
    case Some(resp) =>
      match resp.data
      case None => None
      case Some(body) => body.message
  }

  /** The text stored in `errorMessage` by `onError`. */
  function ErrorText(e: MutationError): (text: string)
    ensures text != ""
    ensures text == FALLBACK_MESSAGE || Some(text) == ResponseMessage(e) || Some(text) == e.message
  {
    if Truthy(ResponseMessage(e)) then ResponseMessage(e).value
    else if Truthy(e.message) then e.message.value
    else FALLBACK_MESSAGE
  }

  /** The order of the fallback chain: each source wins exactly when the earlier ones are empty. */
  lemma ErrorTextPriority(e: MutationError)
    ensures Truthy(ResponseMessage(e)) ==> ErrorText(e) == ResponseMessage(e).value
    ensures !Truthy(ResponseMessage(e)) && Truthy(e.message) ==> ErrorText(e) == e.message.value
    ensures !Truthy(ResponseMessage(e)) && !Truthy(e.message) ==> ErrorText(e) == FALLBACK_MESSAGE
  {
  }
}
