/** The booking document (models/Booking.js): status, payment enumerations and
    their defaults, and the pre-save hook that prices a booking whenever its
    dates change. */
module BookingModel {
  import opened Common

  datatype Status = Pending | Confirmed | Cancelled | Completed
  datatype PaymentStatus = PaymentPending | Paid | Refunded
  datatype PaymentMethod = CreditCard | DebitCard | PayPal

  function StatusName(s: Status): (n: string)
    ensures ParseStatus(n) == Some(s)
  {
    match s
    case Pending => "pending"
    case Confirmed => "confirmed"
    case Cancelled => "cancelled"
    case Completed => "completed"
  }

  /** The enum check on `status`: exactly the four names are accepted. */
  function ParseStatus(n: string): (r: Option<Status>)
    ensures r.Some? <==> n in {"pending", "confirmed", "cancelled", "completed"}
  {
    if n == "pending" then Some(Pending)
    else if n == "confirmed" then Some(Confirmed)
    else if n == "cancelled" then Some(Cancelled)
    else if n == "completed" then Some(Completed)
    else None
  }

  function ParsePaymentStatus(n: string): (r: Option<PaymentStatus>)
    ensures r.Some? <==> n in {"pending", "paid", "refunded"}
  {
    if n == "pending" then Some(PaymentPending)
    else if n == "paid" then Some(Paid)
    else if n == "refunded" then Some(Refunded)
    else None
  }

  function ParsePaymentMethod(n: string): (r: Option<PaymentMethod>)
    ensures r.Some? <==> n in {"credit_card", "debit_card", "paypal"}
  {
    if n == "credit_card" then Some(CreditCard)
    else if n == "debit_card" then Some(DebitCard)
    else if n == "paypal" then Some(PayPal)
    else None
  }

  datatype Booking = Booking(
    user: UserId,
    car: CarId,
    startDate: Ms,
    endDate: Ms,
    totalPrice: int,
    status: Status,
    paymentStatus: PaymentStatus,
    paymentMethod: PaymentMethod,
    pickupLocation: string,
    dropoffLocation: string,
    additionalDrivers: int,
    insurance: bool,
    notes: Option<string>)

  /** `Math.ceil(ms / DayMs)`: the whole days a span of milliseconds is
      charged for. A started day counts in full. */
  function ChargedDays(ms: int): (d: int)
    ensures (d - 1) * DayMs < ms <= d * DayMs
  {
    -((-ms) / DayMs)
  }

  /** The price the pre-save hook stores: charged days times the car's daily
      price. It takes no account of additional drivers or insurance. */
  function ServerPrice(startDate: Ms, endDate: Ms, pricePerDay: int): int {
    ChargedDays(endDate - startDate) * pricePerDay
  }

  /** Equal dates are a zero-day booking, and nothing rejects them: the price is 0. */
  lemma SameDayIsFree(t: Ms, pricePerDay: int)
    ensures ServerPrice(t, t, pricePerDay) == 0
  {
  }

  /** Any part of a day is charged as one day. */
  lemma PartialDayChargedInFull(startDate: Ms, endDate: Ms, pricePerDay: int)
    requires startDate < endDate <= startDate + DayMs
    ensures ServerPrice(startDate, endDate, pricePerDay) == pricePerDay
  {
    assert ChargedDays(endDate - startDate) == 1;
  }

  /** An exact number of days is charged exactly. */
  lemma WholeDaysChargedExactly(startDate: Ms, days: int, pricePerDay: int)
    ensures ServerPrice(startDate, startDate + days * DayMs, pricePerDay) == days * pricePerDay
  {
    var d := ChargedDays(days * DayMs);
    assert (d - 1) * DayMs < days * DayMs <= d * DayMs;
    assert d - 1 < days <= d;
  }

  /** The pre-save hook. When either date was modified in this save the total
      is recomputed from the car's daily price; otherwise the booking, its
      total included, is stored as it is. Only the total can change. */
  function PreSave(b: Booking, datesModified: bool, pricePerDay: int): (r: Booking)
    ensures r.(totalPrice := b.totalPrice) == b
    ensures !datesModified ==> r == b
    ensures datesModified ==> r.totalPrice == ChargedDays(b.endDate - b.startDate) * pricePerDay
  {
    if datesModified then b.(totalPrice := ServerPrice(b.startDate, b.endDate, pricePerDay)) else b
  }

  /** The JSON body of a booking request, after the body's own date strings
      have been read as instants. Fields a client may leave out are options. */
  datatype BookingBody = BookingBody(
    car: CarId,
    startDate: Ms,
    endDate: Ms,
    paymentMethod: string,
    pickupLocation: string,
    dropoffLocation: string,
    additionalDrivers: Option<int>,
    insurance: Option<bool>,
    notes: Option<string>,
    user: Option<UserId>,
    totalPrice: Option<int>,
    status: Option<string>,
    paymentStatus: Option<string>)

  /** The schema accepts the document `{...body, user}`: enumerations are
      valid and the required location strings are non-empty. */
  predicate BodyValid(b: BookingBody) {
    && ParsePaymentMethod(b.paymentMethod).Some?
    && b.pickupLocation != "" && b.dropoffLocation != ""
    && (b.status.Some? ==> ParseStatus(b.status.value).Some?)
    && (b.paymentStatus.Some? ==> ParsePaymentStatus(b.paymentStatus.value).Some?)
  }

  /** `new Booking({...body, user})` saved for the first time: the caller
      replaces any `user` the body names, absent fields take their defaults,
      and the hook, which sees both dates as modified, overwrites any
      `totalPrice` the body supplied. */
  function NewBooking(b: BookingBody, user: UserId, pricePerDay: int): (r: Option<Booking>)
    ensures r.Some? <==> BodyValid(b)
    ensures r.Some? ==> && r.value.user == user && r.value.car == b.car
                        && r.value.startDate == b.startDate && r.value.endDate == b.endDate
                        && r.value.totalPrice == ServerPrice(b.startDate, b.endDate, pricePerDay)
                        && (b.additionalDrivers.None? ==> r.value.additionalDrivers == 0)
                        && (b.additionalDrivers.Some? ==> r.value.additionalDrivers == b.additionalDrivers.value)
                        && (b.insurance.None? ==> !r.value.insurance)
                        && (b.insurance.Some? ==> r.value.insurance == b.insurance.value)
                        && (b.status.None? ==> r.value.status == Pending)
                        && (b.status.Some? ==> StatusName(r.value.status) == b.status.value)
                        && (b.paymentStatus.None? ==> r.value.paymentStatus == PaymentPending)
                        && (b.paymentStatus.Some? ==> ParsePaymentStatus(b.paymentStatus.value) == Some(r.value.paymentStatus))
                        && ParsePaymentMethod(b.paymentMethod) == Some(r.value.paymentMethod)
                        && r.value.pickupLocation == b.pickupLocation && r.value.dropoffLocation == b.dropoffLocation
                        && r.value.notes == b.notes
  {
    if !BodyValid(b) then None
    else
      var draft := Booking(
        user, b.car, b.startDate, b.endDate, b.totalPrice.GetOr(0),
        if b.status.Some? then ParseStatus(b.status.value).value else Pending,
        if b.paymentStatus.Some? then ParsePaymentStatus(b.paymentStatus.value).value else PaymentPending,
        ParsePaymentMethod(b.paymentMethod).value,
        b.pickupLocation, b.dropoffLocation,
        b.additionalDrivers.GetOr(0), b.insurance.GetOr(false), b.notes);
      Some(PreSave(draft, true, pricePerDay))
  }
}
