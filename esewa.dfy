/**
 * The eSewa payment service: starting a payment inserts a pending row and
 * returns the gateway's form fields; verifying asks the gateway about the
 * payment (its answer is an input here) and marks the row completed or
 * failed.
 */
module Esewa {
  import opened Wrappers
  import opened Text

  const PidPrefix: string := "BOOKSHARE_"
  const VerificationFailed: string := "Payment verification failed"

  /** The product id sent to the gateway for a payment. */
  function Pid(paymentId: string): (pid: string)
    ensures StartsWith(pid, PidPrefix) && pid[|PidPrefix|..] == paymentId
  {
    PidPrefix + paymentId
  }

  /** The deployment settings the service reads. */
  datatype Config = Config(merchantCode: string, appUrl: string)

  datatype CreatePaymentParams = CreatePaymentParams(
    amount: int,
    bookId: string,
    borrowerId: string,
    lenderId: string,
    startDate: string,
    endDate: string)

  datatype PaymentStatus = Pending | Completed | Failed

  function StatusName(s: PaymentStatus): string {
    match s
    case Pending => "pending"
    case Completed => "completed"
    case Failed => "failed"
  }

  /** A row of the payments table. */
  datatype Payment = Payment(
    amount: int,
    bookId: string,
    borrowerId: string,
    lenderId: string,
    startDate: string,
    endDate: string,
    status: PaymentStatus,
    paymentMethod: string,
    refId: Option<string>,
    errorMessage: Option<string>)

  /** The row inserted when a payment starts. */
  function NewPayment(p: CreatePaymentParams): (row: Payment)
    ensures row.status == Pending && row.paymentMethod == "esewa"
    ensures row.amount == p.amount && row.bookId == p.bookId
    ensures row.borrowerId == p.borrowerId && row.lenderId == p.lenderId
    ensures row.startDate == p.startDate && row.endDate == p.endDate
    ensures row.refId == None && row.errorMessage == None
  {
    Payment(p.amount, p.bookId, p.borrowerId, p.lenderId, p.startDate, p.endDate, Pending, "esewa", None, None)
  }

  /** The fields posted to the gateway. */
  datatype Payload = Payload(
    paymentId: string,
    amount: int,
    tAmt: int,
    amt: int,
    txAmt: int,
    psc: int,
    pdc: int,
    scd: string,
    pid: string,
    su: string,
    fu: string)

  function BuildPayload(paymentId: string, amount: int, config: Config): (r: Payload)
    ensures r.amount == amount && r.amt == amount && r.tAmt == amount
    ensures r.txAmt == 0 && r.psc == 0 && r.pdc == 0
    ensures r.tAmt == r.amt + r.txAmt + r.psc + r.pdc
    ensures r.paymentId == paymentId && r.pid == Pid(paymentId)
    ensures r.scd == config.merchantCode
    ensures r.su == config.appUrl + "/payment/success" && r.fu == config.appUrl + "/payment/failure"
  {
    Payload(paymentId, amount, amount, amount, 0, 0, 0, config.merchantCode, Pid(paymentId),
      config.appUrl + "/payment/success", config.appUrl + "/payment/failure")
  }

  /** The gateway's answer to the verification request. */
  datatype GatewayResponse = GatewayResponse(ok: bool, text: string)

  /** The gateway confirmed the payment: an OK response whose text contains "success" in any letter case. */
  predicate IsVerified(r: GatewayResponse) {
    r.ok && Includes(ToLower(r.text), "success")
  }

  /** The decision ignores letter case and needs an OK response. */
  lemma IsVerifiedCaseInsensitive(r: GatewayResponse)
    ensures IsVerified(r) == IsVerified(r.(text := ToLower(r.text)))
    ensures !r.ok ==> !IsVerified(r)
  {
    ToLowerIdempotent(r.text);
  }

  /** For instance, "Success" in mixed case confirms. */
  lemma MixedCaseSuccess()
    ensures IsVerified(GatewayResponse(true, "Success"))
  {
    var t := ToLower("Success");
    assert t == "success";
    IncludesPrefix(t, "success");
  }

  /** The query sent to the gateway to verify a payment. */
  datatype VerifyQuery = VerifyQuery(amt: string, rid: string, pid: string, scd: string)

  function BuildVerifyQuery(paymentId: string, refId: string, amount: string, config: Config): (q: VerifyQuery)
    ensures q.pid == Pid(paymentId) && q.rid == refId && q.amt == amount && q.scd == config.merchantCode
  {
    VerifyQuery(amount, refId, Pid(paymentId), config.merchantCode)
  }

  /** Verification rebuilds the very `pid` that starting the payment sent. */
  lemma VerifyUsesInitiatedPid(paymentId: string, amount: int, refId: string, amt: string, config: Config)
    ensures BuildVerifyQuery(BuildPayload(paymentId, amount, config).paymentId, refId, amt, config).pid
      == BuildPayload(paymentId, amount, config).pid
  {
  }

  /** `.update({ status: "completed", ref_id })` */
  function MarkCompleted(row: Payment, refId: string): (r: Payment)
    ensures r.status == Completed && r.refId == Some(refId)
    ensures r == row.(status := Completed, refId := Some(refId))
  {
    row.(status := Completed, refId := Some(refId))
  }

  /** `.update({ status: "failed", error_message })` */
  function MarkFailed(row: Payment): (r: Payment)
    ensures r.status == Failed && r.errorMessage == Some(VerificationFailed)
    ensures r == row.(status := Failed, errorMessage := Some(VerificationFailed))
  {
    row.(status := Failed, errorMessage := Some(VerificationFailed))
  }

  /** `.update(...).eq("id", id)`: the row with that id, if any, is rewritten; nothing else changes. */
  function UpdateWhere(rows: map<string, Payment>, id: string, f: Payment -> Payment): (r: map<string, Payment>)
    ensures r.Keys == rows.Keys
    ensures id in rows ==> r[id] == f(rows[id])
    ensures forall k :: k in rows && k != id ==> r[k] == rows[k]
  {
    if id in rows then rows[id := f(rows[id])] else rows
  }

  /**
   * The table after a verification: completed with the reference when the
   * gateway confirmed and the completing write went through; otherwise the
   * failure write, unless that write errored too (its error is ignored).
   */
  function AfterVerify(rows: map<string, Payment>, paymentId: string, refId: string, response: GatewayResponse,
                       completeWriteFailed: bool, failWriteFailed: bool): map<string, Payment> {
    if IsVerified(response) && !completeWriteFailed then UpdateWhere(rows, paymentId, row => MarkCompleted(row, refId))
    else if failWriteFailed then rows
    else UpdateWhere(rows, paymentId, MarkFailed)
  }

  /** A confirmed, recorded verification completes a pending row; any other outcome whose failure write goes through marks it failed. */
  lemma VerifyTransitions(rows: map<string, Payment>, paymentId: string, refId: string, response: GatewayResponse,
                          completeWriteFailed: bool, failWriteFailed: bool)
    requires paymentId in rows
    ensures var after := AfterVerify(rows, paymentId, refId, response, completeWriteFailed, failWriteFailed);
      && after.Keys == rows.Keys
      && (forall k :: k in rows && k != paymentId ==> after[k] == rows[k])
      && (IsVerified(response) && !completeWriteFailed ==> after[paymentId].status == Completed && after[paymentId].refId == Some(refId))
      && ((!IsVerified(response) || completeWriteFailed) && !failWriteFailed ==>
            after[paymentId].status == Failed && after[paymentId].errorMessage == Some(VerificationFailed))
      && after[paymentId].amount == rows[paymentId].amount
  {
  }

  /** No status guard: a payment already completed is marked failed by a later verification the gateway does not confirm. */
  lemma CompletedCanBecomeFailed(rows: map<string, Payment>, paymentId: string, refId: string, text: string)
    requires paymentId in rows && rows[paymentId].status == Completed
    ensures AfterVerify(rows, paymentId, refId, GatewayResponse(false, text), false, false)[paymentId].status == Failed
  {
  }

  /**
   * The verification evidently intended: the failure write is limited to a
   * row that is still pending (`.eq("status", "pending")` added), so a
   * payment once completed stays completed.
   */
  function CorrectedAfterVerify(rows: map<string, Payment>, paymentId: string, refId: string, response: GatewayResponse,
                                completeWriteFailed: bool, failWriteFailed: bool): map<string, Payment> {
    if IsVerified(response) && !completeWriteFailed then UpdateWhere(rows, paymentId, row => MarkCompleted(row, refId))
    else if failWriteFailed || paymentId !in rows || rows[paymentId].status != Pending then rows
    else UpdateWhere(rows, paymentId, MarkFailed)
  }

  /** A completed payment is never marked failed; a pending one still is, as before. */
  lemma CorrectedKeepsCompleted(rows: map<string, Payment>, paymentId: string, refId: string, response: GatewayResponse,
                                completeWriteFailed: bool, failWriteFailed: bool)
    requires paymentId in rows
    ensures var after := CorrectedAfterVerify(rows, paymentId, refId, response, completeWriteFailed, failWriteFailed);
      && after.Keys == rows.Keys
      && (forall k :: k in rows && k != paymentId ==> after[k] == rows[k])
      && (rows[paymentId].status == Completed ==> after[paymentId].status == Completed)
      && (rows[paymentId].status == Pending ==>
            after == AfterVerify(rows, paymentId, refId, response, completeWriteFailed, failWriteFailed))
  {
  }

  class PaymentsService {
    var rows: map<string, Payment>

    constructor (rows: map<string, Payment>)
      ensures this.rows == rows
    {
      this.rows := rows;
    }

    /**
     * `initiatePayment(params)`. The store chooses a fresh id, given here as
     * `newId`; `insertFailed` says whether the insert errored, in which case
     * the error is passed on and no payload is returned.
     */
    method InitiatePayment(params: CreatePaymentParams, newId: string, config: Config, insertFailed: bool)
      returns (r: Result<Payload, string>)
      requires newId !in rows
      modifies this
      ensures insertFailed ==> r.Err? && rows == old(rows)
      ensures !insertFailed ==> r == Ok(BuildPayload(newId, params.amount, config))
      ensures !insertFailed ==> rows == old(rows)[newId := NewPayment(params)]
    {
      if insertFailed {
        return Err("insert failed");
      }
      var payment := Payment(params.amount, params.bookId, params.borrowerId, params.lenderId,
        params.startDate, params.endDate, Pending, "esewa", None, None);
      rows := rows[newId := payment];
      r := Ok(BuildPayload(newId, params.amount, config));
    }

    /**
     * `verifyPayment({ paymentId, refId, amount })`, given the gateway's
     * answer and whether each of the two possible writes errors. Returns the
     * query sent and whether the call returned normally (rather than threw).
     */
    method VerifyPayment(paymentId: string, refId: string, amount: string, config: Config, response: GatewayResponse,
                         completeWriteFailed: bool, failWriteFailed: bool)
      returns (query: VerifyQuery, succeeded: bool)
      modifies this
      ensures query == BuildVerifyQuery(paymentId, refId, amount, config)
      ensures succeeded <==> IsVerified(response) && !completeWriteFailed
      ensures rows == AfterVerify(old(rows), paymentId, refId, response, completeWriteFailed, failWriteFailed)
    {
      query := VerifyQuery(amount, refId, Pid(paymentId), config.merchantCode);
      var isSuccess := response.ok && Includes(ToLower(response.text), "success");
      if isSuccess && !completeWriteFailed {
        rows := UpdateWhere(rows, paymentId, row => MarkCompleted(row, refId));
        return query, true;
      }
      if !failWriteFailed {
        rows := UpdateWhere(rows, paymentId, MarkFailed);
      }
      succeeded := false;
    }
  }
}
