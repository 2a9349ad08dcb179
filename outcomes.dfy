/** What the network layer hands back to the components, and how a component
    reacts to a failure: a toast notice and possibly a delayed navigation. */
module Outcomes {

  datatype Option<T> = None | Some(value: T)

  /** A rejected call into the API client; only its message is inspected. */
  datatype ApiError = ApiError(message: string)

  /** The settled result of an awaited API call. */
  datatype Response<T> = Ok(value: T) | Err(error: ApiError)

  /** The message the API client uses for an expired session (HTTP 401). */
  const UnauthorizedMessage := "Unauthorized"

  const SessionExpiredText := "Tu sesión ha expirado. Por favor, inicia sesión de nuevo."

  /** The route a session-expired failure navigates to after its notice. */
  const LoginRoute := "/"

  datatype Toast = SuccessToast(text: string) | ErrorToast(text: string)

  /** What the user sees after an operation: a toast and, when scheduled,
      the route the page navigates to three seconds later. */
  datatype Reaction = Reaction(toast: Toast, redirect: Option<string>)

  predicate IsSessionExpired(e: ApiError) {
    e.message == UnauthorizedMessage
  }

  /** The catch block shared by the fetch, delete and create handlers: an
      "Unauthorized" message gives the session notice and a navigation to the
      login route; any other error gives the operation's own generic notice
      and leaves the user on the page. */
  function FailureReaction(e: ApiError, genericText: string): (r: Reaction)
    ensures r.redirect == Some(LoginRoute) <==> e.message == "Unauthorized"
    ensures r.redirect == None <==> e.message != "Unauthorized"
    ensures e.message == "Unauthorized" ==> r.toast == ErrorToast(SessionExpiredText)
    ensures e.message != "Unauthorized" ==> r.toast == ErrorToast(genericText)
  {
    if IsSessionExpired(e) then Reaction(ErrorToast(SessionExpiredText), Some(LoginRoute))
    else Reaction(ErrorToast(genericText), None)
  }
}
