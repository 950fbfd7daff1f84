/**
 * The page the gateway returns to after a payment: it needs the reference,
 * amount and product id from the query string, recovers the payment id
 * from the product id, asks the payment service to verify, and reports the
 * outcome before going back to the books list.
 */
module PaymentSuccess {
  import opened Wrappers
  import opened Text
  import opened Toasts
  import Esewa

  /** The three query parameters; `None` when `searchParams.get` finds nothing. */
  datatype ReturnParams = ReturnParams(refId: Option<string>, amt: Option<string>, pid: Option<string>)

  /** `pid.replace("BOOKSHARE_", "")`: the first occurrence of the prefix, wherever it is, is removed. */
  function PaymentIdOf(pid: string): string {
    ReplaceFirst(pid, Esewa.PidPrefix, "")
  }

  /** The id the payment service put into `pid` comes back. */
  lemma PaymentIdRoundTrip(paymentId: string)
    ensures PaymentIdOf(Esewa.Pid(paymentId)) == paymentId
  {
    var pid := Esewa.Pid(paymentId);
    assert StartsWith(pid, Esewa.PidPrefix);
    assert pid[|Esewa.PidPrefix|..] == paymentId;
  }

  /** A `pid` without the prefix is taken as the payment id unchanged. */
  lemma PaymentIdWithoutPrefix(pid: string)
    requires !Includes(pid, Esewa.PidPrefix)
    ensures PaymentIdOf(pid) == pid
  {
    ReplaceFirstAbsent(pid, Esewa.PidPrefix, "");
  }

  /** The arguments of `verifyPayment`; the amount stays the decimal text of `amt`. */
  datatype VerifyCall = VerifyCall(paymentId: string, refId: string, amount: string)

  /** The verification the page asks for, or `None` when a parameter is missing or empty. */
  function VerifyCallFor(p: ReturnParams): (r: Option<VerifyCall>)
    ensures r.None? <==> !Truthy(p.refId) || !Truthy(p.amt) || !Truthy(p.pid)
    ensures r.Some? ==>
      r.value == VerifyCall(PaymentIdOf(p.pid.value), p.refId.value, p.amt.value)
  {
    if !Truthy(p.refId) || !Truthy(p.amt) || !Truthy(p.pid) then None
    else Some(VerifyCall(PaymentIdOf(p.pid.value), p.refId.value, p.amt.value))
  }

  const SuccessToast: Toast := Toast("Payment Successful", "Your rental payment has been processed successfully", false)
  const FailureToast: Toast := Toast("Payment Verification Failed", "Failed to verify your payment. Please try again.", true)
  const BooksRoute: string := "/books"

  /** What the page shows and where it goes; `verified` is whether `verifyPayment` returned without throwing. */
  datatype Outcome = Outcome(toast: Toast, route: string)

  function OutcomeOf(p: ReturnParams, verified: bool): (o: Outcome)
    ensures o.route == BooksRoute
    ensures o.toast == SuccessToast <==> VerifyCallFor(p).Some? && verified
    ensures o.toast != SuccessToast ==> o.toast == FailureToast
  {
    if VerifyCallFor(p).Some? && verified then Outcome(SuccessToast, BooksRoute)
    else Outcome(FailureToast, BooksRoute)
  }

  /**
   * End to end: when the gateway returns the `pid` it was given, the page
   * verifies the very payment that was started, and the service rebuilds
   * that same `pid` for the gateway.
   */
  lemma ReturnVerifiesInitiatedPayment(paymentId: string, amount: int, config: Esewa.Config, refId: string, amt: string)
    requires refId != "" && amt != ""
    ensures var payload := Esewa.BuildPayload(paymentId, amount, config);
      var call := VerifyCallFor(ReturnParams(Some(refId), Some(amt), Some(payload.pid)));
      && call.Some? && call.value.paymentId == paymentId
      && Esewa.BuildVerifyQuery(call.value.paymentId, refId, amt, config).pid == payload.pid
  {
    PaymentIdRoundTrip(paymentId);
  }
}
