/** The booking page (client/src/pages/BookingForm.js): the form state, the
    change handlers, the effect that recomputes the displayed total, the
    submit-enabled condition and the body posted to the server. Dates are
    milliseconds; `differenceInDays` is whole-day division truncated toward
    zero, without time-zone or daylight-saving adjustment. */
module BookingFormPage {
  import opened Common
  import opened JsText
  import opened CarModel
  import opened BookingModel

  /** A value held in the form object. */
  datatype FormValue = Null | Str(s: string) | Num(n: int) | Bool(b: bool) | Date(ms: Ms)

  /** A JavaScript number as the page computes it: an integer, or NaN. */
  datatype JsNumber = Number(value: int) | NaN

  /** JavaScript truthiness of a form value; every Date object is truthy. */
  predicate Truthy(v: FormValue) {
    match v
    case Null => false
    case Str(s) => s != ""
    case Num(n) => n != 0
    case Bool(b) => b
    case Date(_) => true
  }

  /** The numeric coercion `*` applies to a form value. */
  function ToNumber(v: FormValue): (r: JsNumber)
    ensures v.Num? ==> r == Number(v.n)
    ensures v.Str? ==> (r.NaN? <==> NumberOf(v.s).None?)
    ensures v.Str? && NumberOf(v.s).Some? ==> r == Number(NumberOf(v.s).value)
  {
    match v
    case Null => Number(0)
    case Str(s) => if NumberOf(s).Some? then Number(NumberOf(s).value) else NaN
    case Num(n) => Number(n)
    case Bool(b) => Number(if b then 1 else 0)
    case Date(ms) => Number(ms)
  }

  /** A driver count typed as the decimal digits of `n` is read as `n`. */
  lemma TypedCountReadBack(n: int)
    ensures ToNumber(Str(IntToString(n))) == Number(n)
  {
    NumberOfIntToString(n);
  }

  /** The keys of the form object. */
  const FormKeys: set<string> := {"startDate", "endDate", "pickupLocation", "dropoffLocation",
                                   "additionalDrivers", "insurance", "paymentMethod", "notes"}

  /** The inputs wired to `handleChange`, by their `name`. */
  const InputNames: set<string> := {"pickupLocation", "dropoffLocation", "additionalDrivers",
                                     "paymentMethod", "insurance", "notes"}

  /** The form's first state: no dates, empty text, no extra drivers, no
      insurance. */
  const InitialForm: map<string, FormValue> := map[
    "startDate" := Null, "endDate" := Null, "pickupLocation" := Str(""), "dropoffLocation" := Str(""),
    "additionalDrivers" := Num(0), "insurance" := Bool(false), "paymentMethod" := Str(""), "notes" := Str("")]

  /** The form has its keys, and its dates are null or dates. */
  predicate WellFormed(form: map<string, FormValue>) {
    && form.Keys == FormKeys
    && (form["startDate"].Null? || form["startDate"].Date?)
    && (form["endDate"].Null? || form["endDate"].Date?)
  }

  /** `differenceInDays`: whole days, truncated toward zero. */
  function ClientDays(ms: int): (d: int)
    ensures ms >= 0 ==> 0 <= d && d * DayMs <= ms < (d + 1) * DayMs
    ensures ms < 0 ==> d <= 0 && (d - 1) * DayMs < ms <= d * DayMs
  {
    if ms >= 0 then ms / DayMs else -((-ms) / DayMs)
  }

  /** The total of the price effect: a day rate of the car's price plus 10
      per additional driver plus 20 for insurance, times the days; NaN when
      the driver count is not a number. */
  function ClientTotal(days: int, pricePerDay: int, drivers: JsNumber, insurance: bool): (r: JsNumber)
    ensures r.NaN? <==> drivers.NaN?
    ensures r.Number? ==> r.value == days * (pricePerDay + 10 * drivers.value + (if insurance then 20 else 0))
  {
    match drivers
    case NaN => NaN
    case Number(n) =>
      var basePrice := days * pricePerDay;
      var additionalDriverCost := n * 10 * days;
      var insuranceCost := if insurance then 20 * days else 0;
      Number(basePrice + additionalDriverCost + insuranceCost)
  }

  /** The effect's guard: both dates and the car are present. */
  predicate ReadyToPrice(form: map<string, FormValue>, car: Option<Car>)
    requires WellFormed(form)
  {
    Truthy(form["startDate"]) && Truthy(form["endDate"]) && car.Some?
  }

  /** The price effect: the total shown after a render. Without both dates
      and the car it keeps the previous total. */
  function PriceEffect(prev: JsNumber, form: map<string, FormValue>, car: Option<Car>): (r: JsNumber)
    requires WellFormed(form)
    ensures !ReadyToPrice(form, car) ==> r == prev
  {
    if ReadyToPrice(form, car) then
      ClientTotal(ClientDays(form["endDate"].ms - form["startDate"].ms), car.value.pricePerDay,
                  ToNumber(form["additionalDrivers"]), Truthy(form["insurance"]))
    else prev
  }

  /** The page's whole-day count agrees with the server's charged days
      exactly when the range is negative or a whole number of days. */
  lemma DaysAgreeIff(ms: int)
    ensures ClientDays(ms) == ChargedDays(ms) <==> ms < 0 || ms % DayMs == 0
  {
    var c, s := ClientDays(ms), ChargedDays(ms);
    if ms >= 0 && ms % DayMs != 0 {
      assert ms == (ms / DayMs) * DayMs + ms % DayMs;
      assert c * DayMs < ms;
      assert c < s;
    } else if ms >= 0 {
      assert ms == (ms / DayMs) * DayMs;
      assert c * DayMs == ms;
      assert s * DayMs == ms;
    }
  }

  /** Without extras, the displayed total equals the stored price exactly
      when the days agree (for a car with a non-zero price). */
  lemma NoExtrasAgreeIff(startDate: Ms, endDate: Ms, pricePerDay: int)
    requires pricePerDay != 0
    ensures ClientTotal(ClientDays(endDate - startDate), pricePerDay, Number(0), false)
              == Number(ServerPrice(startDate, endDate, pricePerDay))
            <==> endDate - startDate < 0 || (endDate - startDate) % DayMs == 0
  {
    var ms := endDate - startDate;
    DaysAgreeIff(ms);
    if ClientDays(ms) * pricePerDay == ChargedDays(ms) * pricePerDay {
      assert (ClientDays(ms) - ChargedDays(ms)) * pricePerDay == 0;
    }
  }

  /** Over a whole number of days the displayed total is the stored price
      plus the extras, which the server never charges. */
  lemma ExtrasOnlyOnClient(startDate: Ms, endDate: Ms, pricePerDay: int, drivers: int, insurance: bool)
    requires (endDate - startDate) % DayMs == 0
    ensures var days := ClientDays(endDate - startDate);
            ClientTotal(days, pricePerDay, Number(drivers), insurance)
              == Number(ServerPrice(startDate, endDate, pricePerDay) + days * (10 * drivers + (if insurance then 20 else 0)))
  {
    DaysAgreeIff(endDate - startDate);
  }

  /** A day and a half at 50 a day is shown as 50 and stored as 100. */
  lemma DayAndAHalfDisagrees(startDate: Ms)
    ensures ClientTotal(ClientDays(DayMs + DayMs / 2), 50, Number(0), false) == Number(50)
    ensures ServerPrice(startDate, startDate + DayMs + DayMs / 2, 50) == 100
  {
    assert ClientDays(DayMs + DayMs / 2) == 1;
    assert ChargedDays(DayMs + DayMs / 2) == 2;
  }

  /** The submit button is enabled: both dates and a payment method set. */
  predicate SubmitEnabled(form: map<string, FormValue>)
    requires WellFormed(form)
  {
    Truthy(form["startDate"]) && Truthy(form["endDate"]) && Truthy(form["paymentMethod"])
  }

  /** The fresh form cannot be submitted; a well-formed one can exactly when
      both dates are picked and a payment method chosen, whatever the other
      fields hold. */
  lemma SubmitEnabledIff(form: map<string, FormValue>)
    requires WellFormed(form)
    ensures !SubmitEnabled(InitialForm)
    ensures SubmitEnabled(form) <==> form["startDate"].Date? && form["endDate"].Date?
                                     && Truthy(form["paymentMethod"])
  {
  }

  /** The posted body: the form object with `car` set to the route's car
      id; it carries no price, so the server computes its own. */
  function SubmitBody(form: map<string, FormValue>, carId: string): (r: map<string, FormValue>)
    requires WellFormed(form)
    ensures r.Keys == FormKeys + {"car"}
    ensures "totalPrice" !in r
    ensures r["car"] == Str(carId)
    ensures forall k :: k in FormKeys ==> r[k] == form[k]
  {
    form["car" := Str(carId)]
  }

  /** The component's state: the route's car id, the form object, the car
      once loaded, and the total shown. */
  class BookingForm {
    const carId: string
    var formData: map<string, FormValue>
    var car: Option<Car>
    var totalPrice: JsNumber

    ghost predicate Valid()
      reads this
    {
      WellFormed(formData)
    }

    /** The first render: the initial form, no car, a total of 0. */
    constructor (carId: string)
      ensures Valid()
      ensures this.carId == carId && formData == InitialForm && car == None && totalPrice == Number(0)
    {
      this.carId := carId;
      formData := InitialForm;
      car := None;
      totalPrice := Number(0);
    }

    /** The effect run after a render in which the form or the car changed. */
    method RunPriceEffect()
      requires Valid()
      modifies `totalPrice
      ensures Valid()
      ensures totalPrice == PriceEffect(old(totalPrice), formData, car)
    {
      totalPrice := PriceEffect(totalPrice, formData, car);
    }

    /** `setCar(response.data)`, then the effect. */
    method CarLoaded(c: Car)
      requires Valid()
      modifies this
      ensures Valid()
      ensures car == Some(c) && formData == old(formData)
      ensures totalPrice == PriceEffect(old(totalPrice), formData, car)
    {
      car := Some(c);
      RunPriceEffect();
    }

    /** `handleChange`: the named input's field becomes the checkbox state for
        `insurance` and the raw text for the others; every other field is as
        it was. Then the effect. */
    method HandleChange(name: string, value: string, checked: bool)
      requires Valid() && name in InputNames
      modifies this
      ensures Valid()
      ensures car == old(car)
      ensures formData.Keys == old(formData).Keys
      ensures formData[name] == (if name == "insurance" then Bool(checked) else Str(value))
      ensures forall k :: k in formData && k != name ==> formData[k] == old(formData)[k]
      ensures totalPrice == PriceEffect(old(totalPrice), formData, car)
    {
      formData := formData[name := if name == "insurance" then Bool(checked) else Str(value)];
      RunPriceEffect();
    }

    /** The start date picker's `onChange`; `None` is a cleared picker. */
    method SetStartDate(d: Option<Ms>)
      requires Valid()
      modifies this
      ensures Valid()
      ensures car == old(car)
      ensures formData == old(formData)["startDate" := if d.Some? then Date(d.value) else Null]
      ensures totalPrice == PriceEffect(old(totalPrice), formData, car)
    {
      formData := formData["startDate" := if d.Some? then Date(d.value) else Null];
      RunPriceEffect();
    }

    /** The end date picker's `onChange`. */
    method SetEndDate(d: Option<Ms>)
      requires Valid()
      modifies this
      ensures Valid()
      ensures car == old(car)
      ensures formData == old(formData)["endDate" := if d.Some? then Date(d.value) else Null]
      ensures totalPrice == PriceEffect(old(totalPrice), formData, car)
    {
      formData := formData["endDate" := if d.Some? then Date(d.value) else Null];
      RunPriceEffect();
    }
  }

  /** From the fresh page, loading the car and picking both dates shows the
      client total for those dates; until then the total stays 0. */
  method PickDatesScenario(c: Car, startDate: Ms, endDate: Ms) returns (shown: JsNumber)
    ensures shown == ClientTotal(ClientDays(endDate - startDate), c.pricePerDay, Number(0), false)
  {
    var page := new BookingForm("car");
    page.CarLoaded(c);
    assert page.totalPrice == Number(0);
    page.SetStartDate(Some(startDate));
    assert page.totalPrice == Number(0);
    page.SetEndDate(Some(endDate));
    shown := page.totalPrice;
  }
}
