/** The HTTP vocabulary the handlers share: status codes (RFC 9110: 200 in
    section 15.3.1, 500 in section 15.6.1, 503 in section 15.6.4), the request
    method they accept, and the race a slow handler waits on. */
module Http {

  const StatusOK := 200
  const StatusInternalServerError := 500
  const StatusServiceUnavailable := 503

  /** http.MethodGet */
  const MethodGet := "GET"

  /** Which case of the hello-world handler's `select` is taken: the 2-second
      timer, or the request context's Done channel. */
  datatype Race = TimerFired | RequestDone
}
