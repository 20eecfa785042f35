/** The payment return page (src/pages/userPage/paymentPage/VerifyPaymentPage.tsx):
    which transaction reference is verified and the verifying → success | failed
    state machine the effect drives. */
module VerifyPayment {
  import opened Base

  datatype Phase = Verifying | Succeeded | Failed

  /** `searchParams.get(name)` is null (None) or a string; `a || b` skips both null
      and the empty string. */
  predicate Truthy(p: Option<string>) {
    p.Some? && p.value != ""
  }

  /** `searchParams.get('trx_ref') || searchParams.get('tx_ref')`, None when the
      result is falsy. */
  function TxRef(trxRef: Option<string>, txRef: Option<string>): (r: Option<string>)
    ensures r.Some? <==> Truthy(trxRef) || Truthy(txRef)
    ensures r.Some? ==> r.value != ""
    ensures Truthy(trxRef) ==> r == trxRef
    ensures !Truthy(trxRef) && Truthy(txRef) ==> r == txRef
  {
    if Truthy(trxRef) then trxRef else if Truthy(txRef) then txRef else None
  }

  /** The body of `verify-payment`: its `status` text and its `success` flag (false
      when absent). */
  datatype VerifyBody = VerifyBody(status: string, success: bool)

  predicate IsVerified(body: VerifyBody) {
    body.status == "success" || body.success
  }

  const DefaultFailure: string := "Payment verification failed."

  /** Where the page ends up after the verify call answered: success exactly when a
      2xx body says so; otherwise failed, with the server's message when an error
      response carried one (a 2xx body that does not say success is rethrown as a
      plain Error, which has no response and so gets the default). */
  function VerifyOutcome(resp: Response<VerifyBody>): (r: (Phase, string))
    ensures r.0 == Succeeded <==> resp.Ok? && IsVerified(resp.body)
    ensures r.0 == Succeeded ==> r.1 == "Payment verified successfully!"
    ensures r.0 != Succeeded ==> r.0 == Failed
    ensures resp.Ok? && r.0 == Failed ==> r.1 == DefaultFailure
    ensures resp.Fail? ==> r.1 == ServerMessageOr(resp.failure, DefaultFailure)
    ensures r.1 != ""
  {
    match resp
    case Ok(body) =>
      if IsVerified(body) then (Succeeded, "Payment verified successfully!")
      else (Failed, DefaultFailure)
    case Fail(f) => (Failed, ServerMessageOr(f, DefaultFailure))
  }

  class VerifyPaymentPage {
    var status: Phase
    var message: string

    constructor ()
      ensures status == Verifying && message == "Verifying your payment..."
    {
      status := Verifying;
      message := "Verifying your payment...";
    }

    /** One run of the effect. The reference comes from the query string; when there
        is one, `verify(...)` is requested for it and `resp` is its answer. Returns the
        reference sent (None: no request), the toast and the page it navigates to
        later. */
    method RunEffect(trxRef: Option<string>, txRef: Option<string>, resp: Response<VerifyBody>)
      returns (sent: Option<string>, toast: Option<Toast>, navigateTo: Option<string>)
      modifies this
      ensures sent == TxRef(trxRef, txRef)
      ensures sent.None? ==> status == Failed && message == "Invalid transaction reference." && toast.None?
      ensures sent.Some? ==> (status, message) == VerifyOutcome(resp)
      ensures navigateTo.Some? <==> status == Succeeded
      ensures navigateTo.Some? ==> navigateTo.value == "/ticket-success"
      ensures sent.Some? && status == Succeeded ==> toast == Some(SuccessToast("Payment successful!"))
      ensures sent.Some? && status == Failed ==> toast == Some(ErrorToast("Payment failed or was cancelled."))
      ensures status != Verifying
    {
      sent := TxRef(trxRef, txRef);
      toast := None;
      navigateTo := None;
      if sent.None? {
        status := Failed;
        message := "Invalid transaction reference.";
        return;
      }
      match resp
      case Ok(body) =>
        if body.status == "success" || body.success {
          status := Succeeded;
          message := "Payment verified successfully!";
          toast := Some(SuccessToast("Payment successful!"));
          navigateTo := Some("/ticket-success");
        } else {
          status := Failed;
          message := DefaultFailure;
          toast := Some(ErrorToast("Payment failed or was cancelled."));
        }
      case Fail(f) =>
        status := Failed;
        message := ServerMessageOr(f, DefaultFailure);
        toast := Some(ErrorToast("Payment failed or was cancelled."));
    }
  }
}
