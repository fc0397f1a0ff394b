/**
  requests/recover_handler.go: turning a panic that reached the top of the
  handler chain into a response envelope, and writing it.
*/
module Recovery {
  import opened GoBase
  import opened Gin
  import opened Common

  const InternalServerError: string := "internal server error"
  const UnknownError: string := "unknown error"

  /** errorToResult: the type switch over the panic value, in the source's
      order (string, *commons.StdError, error, anything else); `prod` says
      whether envsupport.Profile() is "prod". */
  function ErrorToResult(r: PanicValue, prod: bool): (e: Envelope)
    // a string becomes an error result carrying exactly that string
    ensures r.PanicString? ==> e == ErrResult(r.s)
    // a *commons.StdError keeps its own code and message, in every profile
    ensures r.PanicError? && r.err.StdError? ==> e == CodedResult(r.err.code, r.err.message)
    // any other error: a fixed text in prod, its own text elsewhere
    ensures r.PanicError? && !r.err.StdError? && prod ==> e == ErrResult(InternalServerError)
    ensures r.PanicError? && !r.err.StdError? && !prod ==> e == ErrResult(ErrorText(r.err))
    // anything else
    ensures r.PanicOther? ==> e == ErrResult(UnknownError)
  {
    match r
    case PanicString(s) => ErrResult(s)
    case PanicError(err) =>
      if err.StdError? then CodedResult(err.code, err.message)
      else if prod then ErrResult(InternalServerError)
      else ErrResult(ErrorText(err))
    case PanicOther(_) => ErrResult(UnknownError)
  }

  /** In prod the response to a generic error panic does not depend on the
      error at all, so nothing of its text reaches the client. */
  lemma ProdHidesErrorText(e1: Error, e2: Error)
    requires !e1.StdError? && !e2.StdError?
    ensures ErrorToResult(PanicError(e1), true) == ErrorToResult(PanicError(e2), true)
  {
  }

  /** The StdError case is tried before the generic error case: a StdError
      panic keeps its message even in prod. */
  lemma StdErrorBeforeError(code: int, message: string, prod: bool)
    ensures ErrorToResult(PanicError(StdError(code, message)), prod) == CodedResult(code, message)
    ensures ErrorToResult(PanicError(StdError(code, message)), prod) != ErrResult(InternalServerError)
  {
  }

  /** myRecover: obtain the BaseContext (to log the panic), write the
      envelope errorToResult gives, then abort the chain. */
  method MyRecover(g: GinContext, r: PanicValue, prod: bool, uuid: string, now: int)
    modifies g`keys, g`writes, g`aborted
    ensures g.writes == old(g.writes) + [ErrorToResult(r, prod)]
    ensures g.aborted
    ensures BaseContextName in g.keys
    ensures BaseContextName in old(g.keys) ==> g.keys == old(g.keys)
    ensures BaseContextName !in old(g.keys) ==>
      fresh(g.keys[BaseContextName]) && g.keys == old(g.keys)[BaseContextName := g.keys[BaseContextName]]
  {
    var baseCtx := GenBaseContext(g, uuid, now);
    g.JSON(ErrorToResult(r, prod));
    g.Abort();
  }
}
