/** `getErrorMessage` (frontend/src/utils/helperFunctions.ts): the text the
    pages show for a caught value. */
module ErrorMessage {
  import opened Base

  /** A caught value: an axios error (whose `response.data.detail` may be
      missing, which covers a missing response or body), another `Error`, or
      anything else. An axios error is also an `Error`, with its own message. */
  datatype Caught = AxiosError(detail: Option<string>, message: string) | PlainError(message: string) | NotAnError

  const RequestFailed := "Request failed"
  const Unexpected := "An unexpected error occurred"

  function GetErrorMessage(err: Caught): (r: string)
    ensures err.AxiosError? && err.detail.Some? && err.detail.value != "" ==> r == err.detail.value
    ensures err.AxiosError? && (err.detail.None? || err.detail.value == "") ==> r == RequestFailed
    ensures err.PlainError? ==> r == err.message
    ensures err.NotAnError? ==> r == Unexpected
  {
    match err
    case AxiosError(detail, _) => if detail.Some? && detail.value != "" then detail.value else RequestFailed
    case PlainError(message) => message
    case NotAnError => Unexpected
  }

  /** The axios check comes first: an axios error never shows its own
      `message`, only the server's detail or "Request failed". */
  lemma AxiosCheckedFirst(detail: Option<string>, message: string)
    requires message != RequestFailed && (detail.None? || detail.value != message)
    ensures GetErrorMessage(AxiosError(detail, message)) != message
  {
  }

  /** The message is empty only for a plain `Error` with an empty message. */
  lemma NeverEmpty(err: Caught)
    ensures GetErrorMessage(err) == "" <==> err == PlainError("")
  {
  }

  /** The fixed texts appear only for their own cases, unless the server or
      the error chose the same text. */
  lemma FixedTexts(err: Caught)
    ensures GetErrorMessage(err) == Unexpected ==>
      err.NotAnError? || (err.AxiosError? && err.detail == Some(Unexpected)) || err == PlainError(Unexpected)
    ensures GetErrorMessage(err) == RequestFailed ==>
      err.AxiosError? || err == PlainError(RequestFailed)
  {
  }
}
