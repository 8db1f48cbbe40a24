/** Outcome tags for route handlers and middleware; rendering and flash messages are not modelled. */
module Http {

  /**
   * `Next` passes the request on, `Redirect` and `Status` answer it, and `Crash` is an
   * uncaught TypeError inside the handler, which Express answers with status 500.
   */
  datatype Response = Next | Redirect(path: string) | Status(code: int) | Crash
}
