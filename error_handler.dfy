/** The application-level error filter (server/middleware/errorHandler.js):
    a body that is not valid JSON is answered with 400; every other error is
    dropped and the request passed on. */
module ErrorHandling {
  import opened Runtime

  const MalformedJsonMessage := "Oops! There\U{2019}s an issue with your JSON. Please check it and try again."

  /** The error came from parsing a malformed JSON body: it is a SyntaxError,
      its `status` is the number 400 under strict equality, and it carries a
      `body` property. */
  predicate IsMalformedJson(err: ErrorValue) {
    err.isSyntaxError && err.status == Num(400.0) && err.hasBody
  }

  /** `errorHandler(err, req, res, next)`. */
  function ErrorHandler(err: ErrorValue): (r: Outcome)
    ensures r == Respond(400, MalformedJsonMessage) || r == Proceed
    ensures r.Respond? <==> IsMalformedJson(err)
  {
    if err.isSyntaxError && err.status == Num(400.0) && err.hasBody then
      Respond(400, MalformedJsonMessage)
    else
      Proceed
  }

  /** Failing any one of the three conditions means no response and a plain `next()`. */
  lemma AnyConditionFailingPassesOn(err: ErrorValue)
    requires !err.isSyntaxError || err.status != Num(400.0) || !err.hasBody
    ensures ErrorHandler(err) == Proceed
  {
  }

  /** A status given as the string "400" is not the number 400, so it is passed on. */
  lemma StringStatusPassesOn(message: string)
    ensures ErrorHandler(ErrorValue(true, Str("400"), true, message)) == Proceed
  {
  }
}
