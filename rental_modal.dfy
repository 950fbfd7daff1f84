/**
 * The rental dialog: the amount charged is the number of started days
 * between the two dates times the book's price, and submitting needs a
 * signed-in user before the payment parameters are handed to the payment
 * service. Dates are integer millisecond timestamps.
 */
module RentalModal {
  import opened Wrappers
  import opened Toasts
  import BookTypes
  import Esewa

  const MsPerDay: int := 1000 * 60 * 60 * 24

  /** `Math.ceil(a / b)` for a positive divisor, written with Dafny's Euclidean division. */
  function CeilDiv(a: int, b: int): (q: int)
    requires b > 0
    ensures (q - 1) * b < a <= q * b
  {
    -((-a) / b)
  }

  /** The least integer at least `a / b` is unique. */
  lemma CeilDivUnique(a: int, b: int, q: int)
    requires b > 0 && (q - 1) * b < a <= q * b
    ensures CeilDiv(a, b) == q
  {
    var c := CeilDiv(a, b);
    if c < q {
      assert c * b <= (q - 1) * b by { MulMono(c, q - 1, b); }
    } else if c > q {
      assert q * b <= (c - 1) * b by { MulMono(q, c - 1, b); }
    }
  }

  lemma MulMono(x: int, y: int, b: int)
    requires x <= y && b > 0
    ensures x * b <= y * b
  {
    assert y * b - x * b == (y - x) * b;
  }

  /** `Math.ceil((end - start) / (1000 * 60 * 60 * 24))`: the days started between the two instants. */
  function Days(start: int, end: int): (d: int)
    ensures (d - 1) * MsPerDay < end - start <= d * MsPerDay
  {
    CeilDiv(end - start, MsPerDay)
  }

  /** `x || 0` on a number that may be missing: a missing price counts as 0. */
  function PriceOrZero(price: Option<int>): int {
    match price
    case Some(p) => p
    case None => 0
  }

  /** `calculateRentalAmount(start, end)` */
  function Amount(start: int, end: int, price: Option<int>): (r: int)
    ensures r == Days(start, end) * PriceOrZero(price)
  {
    Days(start, end) * PriceOrZero(price)
  }

  /** Nothing is charged for a free or unpriced book, nor for an empty period. */
  lemma AmountZero(start: int, end: int, price: Option<int>)
    ensures PriceOrZero(price) == 0 ==> Amount(start, end, price) == 0
    ensures end == start ==> Amount(start, end, price) == 0
  {
    if end == start {
      CeilDivUnique(0, MsPerDay, 0);
    }
  }

  /** Any started day counts whole: one millisecond is one day, and `k` whole days are `k` days. */
  lemma PartialDayCountsWhole(start: int, k: int)
    ensures Days(start, start + 1) == 1
    ensures Days(start, start + k * MsPerDay) == k
  {
    CeilDivUnique(1, MsPerDay, 1);
    assert (k - 1) * MsPerDay == k * MsPerDay - MsPerDay;
    CeilDivUnique(k * MsPerDay, MsPerDay, k);
  }

  /** For a fixed start and a price that is not negative, a later end never costs less. */
  lemma AmountMonotone(start: int, end1: int, end2: int, price: Option<int>)
    requires end1 <= end2 && PriceOrZero(price) >= 0
    ensures Amount(start, end1, price) <= Amount(start, end2, price)
  {
    var d1, d2 := Days(start, end1), Days(start, end2);
    if d1 > d2 {
      assert d2 * MsPerDay <= (d1 - 1) * MsPerDay by { MulMono(d2, d1 - 1, MsPerDay); }
    }
    var p := PriceOrZero(price);
    assert d2 * p - d1 * p == (d2 - d1) * p;
  }

  /** A week at 5 a day costs 35. */
  lemma WeekAtFive(start: int)
    ensures Amount(start, start + 7 * MsPerDay, Some(5)) == 35
  {
    PartialDayCountsWhole(start, 7);
  }

  /** An end before the start is not refused: the amount comes out negative. */
  lemma EndBeforeStartIsNegative(start: int)
    ensures Amount(start + MsPerDay, start, Some(5)) == -5
  {
    PartialDayCountsWhole(start + MsPerDay, -1);
  }

  // ---------------------------------------------------------------------------
  // Submitting

  const LoginToast: Toast := Toast("Error", "You must be logged in to rent books", true)
  const FailureToast: Toast := Toast("Error", "Failed to initiate payment. Please try again.", true)

  /**
   * The parameters `handleSubmit` passes to `initiatePayment`, or `None` when
   * nobody is signed in; `format` stands for the `yyyy-MM-dd` date formatting.
   */
  function PaymentParams(userId: Option<string>, book: BookTypes.Book, start: int, end: int, format: int -> string)
    : (r: Option<Esewa.CreatePaymentParams>)
    ensures r.None? <==> userId.None?
    ensures r.Some? ==>
      && r.value.amount == Amount(start, end, Some(book.rentalPrice))
      && r.value.bookId == book.id
      && r.value.borrowerId == userId.value
      && r.value.lenderId == book.ownerId
      && r.value.startDate == format(start) && r.value.endDate == format(end)
  {
    match userId
    case None => None
    case Some(uid) =>
      Some(Esewa.CreatePaymentParams(Amount(start, end, Some(book.rentalPrice)), book.id, uid, book.ownerId,
        format(start), format(end)))
  }

  /** The toast shown: the login error without a user, the failure message when initiation threw, none otherwise. */
  function SubmitToast(userId: Option<string>, initiationFailed: bool): (t: Option<Toast>)
    ensures userId.None? ==> t == Some(LoginToast)
    ensures userId.Some? ==> (t.Some? <==> initiationFailed) && (t.Some? ==> t.value == FailureToast)
  {
    if userId.None? then Some(LoginToast)
    else if initiationFailed then Some(FailureToast)
    else None
  }

  /** The gateway is asked for exactly the computed amount, with no tax or charges on top. */
  lemma GatewayChargesComputedAmount(userId: string, book: BookTypes.Book, start: int, end: int,
                                     format: int -> string, paymentId: string, config: Esewa.Config)
    ensures var p := PaymentParams(Some(userId), book, start, end, format).value;
      var payload := Esewa.BuildPayload(paymentId, p.amount, config);
      payload.tAmt == Days(start, end) * book.rentalPrice && payload.txAmt + payload.psc + payload.pdc == 0
  {
  }
}
