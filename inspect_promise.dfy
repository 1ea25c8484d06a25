/**
 * `inspectPromise(mustBeFulfilled)`: the callback tests use after
 * `.reflect()` to check that a promise settled the expected way and to take
 * out its value or its rejection reason.
 */
module InspectPromise {
  import opened Wrappers
  import opened Json
  import opened Effects

  /** The state a reflected promise reports. */
  datatype Inspection = Fulfilled(value: Json) | Rejected(reason: Json) | Pending

  /** What leaves the callback by `throw`: an error it creates, or the promise's own reason. */
  datatype Thrown = RaisedError(error: JsError) | RaisedReason(reason: Json)

  /** How the callback ends. */
  datatype Inspected =
    | Returned(value: Json)            // the value or reason is handed on
    | ReturnedRejection(error: JsError) // a rejected promise is returned
    | Raised(thrown: Thrown)           // the callback throws

  /** The default parameter: `undefined` means a fulfilment is expected. */
  function Expected(mustBeFulfilled: Option<bool>): bool {
    mustBeFulfilled.GetOr(true)
  }

  /** Bluebird's error for `reason()` on a promise that was not rejected. */
  const NotRejectedError := Error("cannot get rejection reason of a non-rejected promise")

  /**
   * The callback: when the promise settled the other way than expected, a
   * fulfilment becomes a rejection whose message is the JSON of the value, and
   * a rejection is rethrown as it is; when it settled as expected the value
   * (or reason) is returned. `stringify` is `JSON.stringify`.
   */
  function Inspect(mustBeFulfilled: Option<bool>, p: Inspection, stringify: Json -> string): (r: Inspected)
    ensures p.Fulfilled? && Expected(mustBeFulfilled) ==> r == Returned(p.value)
    ensures p.Rejected? && !Expected(mustBeFulfilled) ==> r == Returned(p.reason)
    ensures p.Fulfilled? && !Expected(mustBeFulfilled) ==> r == ReturnedRejection(Error(stringify(p.value)))
    ensures p.Rejected? && Expected(mustBeFulfilled) ==> r == Raised(RaisedReason(p.reason))
    ensures p.Pending? ==> r.Raised? && r.thrown.RaisedError?
  {
    var must := Expected(mustBeFulfilled);
    var isFulfilled := p.Fulfilled?;
    var isRejected := p.Rejected?;
    if isFulfilled != must then
      if isFulfilled then ReturnedRejection(Error(stringify(p.value)))
      else if isRejected then Raised(RaisedReason(p.reason))
      else Raised(RaisedError(NotRejectedError))
    else if isRejected != !must then
      Raised(RaisedError(AssertionError("false == true")))
    else if must then Returned(p.value)
    else Returned(p.reason)
  }

  /** Omitting the argument is the same as passing `true`. */
  lemma DefaultExpectsFulfilment(p: Inspection, stringify: Json -> string)
    ensures Inspect(None, p, stringify) == Inspect(Some(true), p, stringify)
  {
  }

  /** A settled promise passes through exactly when it settled as expected. */
  lemma PassesExactlyAsExpected(mustBeFulfilled: Option<bool>, p: Inspection, stringify: Json -> string)
    requires !p.Pending?
    ensures Inspect(mustBeFulfilled, p, stringify).Returned? <==> p.Fulfilled? == Expected(mustBeFulfilled)
  {
  }
}
