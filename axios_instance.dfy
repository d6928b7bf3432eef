/**
 * The shared HTTP client of src/axiosInstance.js and its response
 * interceptor. A request's outcome is what the caller's promise settles
 * to after the interceptor has run.
 */
module AxiosInstance {
  import opened Wrappers

  /** A received HTTP response: its status code and its parsed body. */
  datatype Response<B> = Response(status: int, data: B)

  /** An axios error; `response` is absent when no response was received. */
  datatype AxiosError<B> = AxiosError(response: Option<Response<B>>)

  /** How the caller's promise settles: resolved with a value (possibly `undefined`) or rejected. */
  datatype Settled<B> = Resolved(value: Option<Response<B>>) | Rejected(reason: Option<AxiosError<B>>)

  /** The success handler hands the response on as it is. */
  function OnFulfilled<B>(r: Response<B>): (s: Settled<B>)
    ensures s.Resolved? && s.value == Some(r)
  {
    Resolved(Some(r))
  }

  /**
   * The error handler. `error` may itself be null or undefined (`None`).
   * It rejects only when no response was received or the response is a 401;
   * in every other case it falls off its end, returns `undefined`, and the
   * call resolves with nothing.
   */
  function OnRejected<B>(error: Option<AxiosError<B>>): (s: Settled<B>)
    ensures s.Rejected? <==> error.Some? && (error.value.response.None? || error.value.response.value.status == 401)
    ensures s.Rejected? ==> s.reason == error
    ensures s.Resolved? ==> s.value.None?
  {
    match error
    case None => Resolved(None)
    case Some(e) =>
      if e.response.None? then Rejected(error)
      else if e.response.value.status == 401 then Rejected(error)
      else Resolved(None)
  }

  /**
   * The body a screen's `.then(response => ... response.data ...)` callback
   * can read. When the call resolved with `undefined`, reading
   * `response.data` throws inside the callback and the screen's `.catch`
   * runs instead, exactly as for a rejection: `None` covers both.
   */
  function Delivered<B>(s: Settled<B>): (b: Option<B>)
    ensures b.Some? <==> s.Resolved? && s.value.Some?
    ensures b.Some? ==> b.value == s.value.value.data
  {
    match s
    case Resolved(Some(r)) => Some(r.data)
    case _ => None
  }

  /** A non-401 HTTP error resolves instead of rejecting, yet no screen ever sees its body. */
  lemma Non401ErrorResolvesEmpty<B>(r: Response<B>)
    requires r.status != 401
    ensures OnRejected(Some(AxiosError(Some(r)))) == Resolved(None)
    ensures Delivered(OnRejected(Some(AxiosError(Some(r))))) == None
  {
  }

  /** Only a fulfilled response ever reaches a screen's success path. */
  lemma OnlyFulfilledDelivers<B>(error: Option<AxiosError<B>>, r: Response<B>)
    ensures Delivered(OnRejected(error)).None?
    ensures Delivered(OnFulfilled(r)) == Some(r.data)
  {
  }
}
