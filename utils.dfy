/**
 * `req_auth`: a guard around an operation of any object that has an `authd`
 * flag. An unauthenticated call logs a warning and returns None without
 * running the operation; an authenticated call runs it once and passes its
 * result through. The guard never logs in.
 */
module Utils {
  import opened Common

  /** What one guarded call did: the object's state afterwards, the returned value and the events. */
  datatype Guarded<S, A, R> = Guarded(state: S, value: Option<R>, trace: seq<Event<A>>)

  /**
   * `req_auth(func)(self, *args)`. The wrapped operation may change the object,
   * so it yields the new state beside its result. Python's `None` return is
   * `value == None`.
   */
  function ReqAuth<S, A, R>(authd: S -> bool, self: S, func: (S, A) -> (S, R), args: A): (r: Guarded<S, A, R>)
    ensures |r.trace| == 1
    ensures r.value.Some? <==> authd(self)
  {
    if !authd(self) then
      Guarded(self, None, [Warned])
    else
      var (after, result) := func(self, args);
      Guarded(after, Some(result), [Invoked(args)])
  }

  /** Unauthenticated: nothing is returned, the operation never runs, and the object is untouched. */
  lemma UnauthenticatedCallIsRefused<S, A, R>(authd: S -> bool, self: S, func: (S, A) -> (S, R), args: A)
    requires !authd(self)
    ensures ReqAuth(authd, self, func, args).value == None
    ensures ReqAuth(authd, self, func, args).state == self
    ensures forall k :: 0 <= k < |ReqAuth(authd, self, func, args).trace| ==>
                          !ReqAuth(authd, self, func, args).trace[k].Invoked?
  {
  }

  /** Authenticated: the operation runs exactly once, with the same arguments, and its result comes back unchanged. */
  lemma AuthenticatedCallPassesThrough<S, A, R>(authd: S -> bool, self: S, func: (S, A) -> (S, R), args: A)
    requires authd(self)
    ensures ReqAuth(authd, self, func, args).trace == [Invoked(args)]
    ensures ReqAuth(authd, self, func, args).value == Some(func(self, args).1)
    ensures ReqAuth(authd, self, func, args).state == func(self, args).0
  {
  }

  /** The warning is logged exactly when the call is unauthenticated. */
  lemma WarnsIffUnauthenticated<S, A, R>(authd: S -> bool, self: S, func: (S, A) -> (S, R), args: A)
    ensures Warned in ReqAuth(authd, self, func, args).trace <==> !authd(self)
  {
  }

  /** The guard itself never attempts a login, authenticated or not. */
  lemma NeverLogsIn<S, A, R>(authd: S -> bool, self: S, func: (S, A) -> (S, R), args: A)
    ensures LoginAttempted !in ReqAuth(authd, self, func, args).trace
  {
  }
}
