/**
 * The SDK's own error value and the already-rejected promise every feature
 * wrapper returns when its input fails validation.
 */
module Rejections {
  import opened Js
  import opened Deferreds

  /** A `JsSdkError`: an `Error` whose message is its code, with the code and a description alongside. */
  datatype JsSdkError = JsSdkError(code: string, description: string)

  /** The error object `new JsSdkError(code, desc)` as a JavaScript value. */
  function ErrorValue(e: JsSdkError): (v: Value)
    ensures v.ErrorObject? && v.cls == "JsSdkError"
    ensures Get(v, "message") == Success(Str(e.code))
    ensures Get(v, "code") == Success(Str(e.code))
    ensures Get(v, "description") == Success(Str(e.description))
  {
    ErrorObject("JsSdkError", e.code, map["code" := Str(e.code), "description" := Str(e.description)])
  }

  /** The state of the promise `rejection(code, description)` returns: rejected from the start. */
  function Rejection(code: string, description: string): (s: Settlement)
    ensures s.Rejected?
    ensures Get(s.reason, "code") == Success(Str(code))
    ensures Get(s.reason, "description") == Success(Str(description))
    ensures Get(s.reason, "message") == Success(Str(code))
    ensures s.reason.ErrorObject? && s.reason.cls == "JsSdkError"
  {
    Rejected(ErrorValue(JsSdkError(code, description)))
  }

  /** The rejection value determines code and description: distinct errors are distinguishable. */
  lemma RejectionInjective(c1: string, d1: string, c2: string, d2: string)
    requires Rejection(c1, d1) == Rejection(c2, d2)
    ensures c1 == c2 && d1 == d2
  {
    assert Get(Rejection(c1, d1).reason, "code") == Success(Str(c2));
    assert Get(Rejection(c1, d1).reason, "description") == Success(Str(d2));
  }

  /** Every input check in the SDK fails with the code "BadInput". */
  function BadInput(description: string): (e: JsSdkError)
    ensures e.code == "BadInput" && e.description == description
  {
    JsSdkError("BadInput", description)
  }
}
