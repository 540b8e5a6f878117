/**
 * The record shapes of the invoice system: an intermediate stop, an additional
 * charge, the trip/journey/payment enumerations with their stored spellings,
 * the form payload `InvoiceFormData` and the stored `Invoice`.
 *
 * Money and distances are whole numbers (`nat`); the stored column names are the
 * snake_case forms of the field names below (`customerName` is `customer_name`).
 */
module InvoiceTypes {
  import opened Wrappers

  /** An intermediate stop of an outstation route; `id` only keys the list in the UI. */
  datatype Stop = Stop(id: string, location: string, city: string)

  /**
   * A stop as it may be found in stored data: records written by older versions
   * of the form hold a bare location string instead of a `Stop`.
   */
  datatype StopEntry = Legacy(text: string) | Structured(stop: Stop)

  /** One additional charge line: its kind ("Toll", "Parking", ...) and its amount. */
  datatype Charge = Charge(kind: string, amount: nat)

  /** A JavaScript number as `parseFloat` yields it, restricted to whole values. */
  datatype NumberValue = NotANumber | Num(value: int)

  datatype TripType = OneWay | RoundTrip | Local
  /** The legacy journey classification, kept for older records. */
  datatype JourneyType = OneWayJourney | TwoWayJourney
  datatype PaymentMode = Cash | Upi | Bank

  function TripTypeName(t: TripType): string
  {
    match t
    case OneWay => "oneway"
    case RoundTrip => "roundtrip"
    case Local => "local"
  }

  /** Reads a stored trip type; any other spelling is not a trip type. */
  function ParseTripType(s: string): (r: Option<TripType>)
    ensures r.Some? <==> s in {"oneway", "roundtrip", "local"}
    ensures r.Some? ==> TripTypeName(r.value) == s
  {
    if s == "oneway" then Some(OneWay)
    else if s == "roundtrip" then Some(RoundTrip)
    else if s == "local" then Some(Local)
    else None
  }

  function JourneyTypeName(j: JourneyType): string
  {
    match j
    case OneWayJourney => "one-way"
    case TwoWayJourney => "two-way"
  }

  function ParseJourneyType(s: string): (r: Option<JourneyType>)
    ensures r.Some? <==> s in {"one-way", "two-way"}
    ensures r.Some? ==> JourneyTypeName(r.value) == s
  {
    if s == "one-way" then Some(OneWayJourney)
    else if s == "two-way" then Some(TwoWayJourney)
    else None
  }

  function PaymentModeName(m: PaymentMode): string
  {
    match m
    case Cash => "cash"
    case Upi => "upi"
    case Bank => "bank"
  }

  function ParsePaymentMode(s: string): (r: Option<PaymentMode>)
    ensures r.Some? <==> s in {"cash", "upi", "bank"}
    ensures r.Some? ==> PaymentModeName(r.value) == s
  {
    if s == "cash" then Some(Cash)
    else if s == "upi" then Some(Upi)
    else if s == "bank" then Some(Bank)
    else None
  }

  /** Every enumeration value reads back from its stored spelling. */
  lemma SpellingsRoundTrip(t: TripType, j: JourneyType, m: PaymentMode)
    ensures ParseTripType(TripTypeName(t)) == Some(t)
    ensures ParseJourneyType(JourneyTypeName(j)) == Some(j)
    ensures ParsePaymentMode(PaymentModeName(m)) == Some(m)
  {
  }

  /**
   * The fields a form submits: everything of an invoice except its identity and
   * audit fields. `Option` marks a field that may be absent (`undefined`/`null`).
   * `startingKm`, `closingKm`, `driverAllowance` and `vehicleModel` are written by
   * the form although the declared record type does not list them.
   */
  datatype InvoiceFormData = InvoiceFormData(
    invoiceDate: string,
    customerName: string,
    customerPhone: string,
    pickupLocation: string,
    pickupCity: Option<string>,
    destination: string,                 // the drop area
    dropCity: Option<string>,
    journeyDate: string,
    returnDate: Option<string>,
    journeyType: Option<JourneyType>,
    cabNumber: string,
    cabType: string,
    driverName: string,
    driverPhone: string,
    fareAmount: nat,                     // the base fare
    tollAmount: nat,                     // legacy; superseded by additionalCharges
    totalAmount: nat,
    tripType: Option<TripType>,
    totalKm: Option<NumberValue>,
    totalHours: Option<NumberValue>,
    stops: Option<seq<StopEntry>>,
    additionalCharges: Option<seq<Charge>>,
    paymentMode: Option<PaymentMode>,
    startingKm: Option<nat>,
    closingKm: Option<nat>,
    driverAllowance: Option<nat>,
    vehicleModel: Option<string>)

  /**
   * A stored invoice: the store-assigned identity and audit fields around the
   * submitted `data`, so that `InvoiceFormData` is `Invoice` without exactly
   * `id`, `invoice_number`, `created_at` and `updated_at`.
   */
  datatype Invoice = Invoice(
    id: Option<string>,
    invoiceNumber: Option<nat>,
    createdAt: Option<string>,
    updatedAt: Option<string>,
    data: InvoiceFormData)

  /** An invoice's form data with every field empty. */
  function EmptyFormData(): InvoiceFormData
  {
    InvoiceFormData("", "", "", "", None, "", None, "", None, None, "", "", "", "", 0, 0, 0,
                    None, None, None, None, None, None, None, None, None, None)
  }
}
