/**
 * The invoice form: its controlled state (stops, additional charges, base fare,
 * trip type, local-trip usage, mileage, driver allowance, vehicle model), the
 * uncontrolled named inputs it reads through `FormData`, the handlers that
 * change them, the derived total, the submitted payload and the single-slot
 * draft kept in local storage.
 *
 * The pure parts (total, filters, normalisation, clamping, formatters, payload,
 * draft snapshot) are functions; the component state is the class `Form`, whose
 * handlers are methods stated against those functions.
 */
module InvoiceForm {
  import opened Wrappers
  import opened Lists
  import opened Strings
  import opened InvoiceTypes

  // ---------------------------------------------------------------------------
  // Derived total

  /** The sum of the charge amounts (`reduce((sum, c) => sum + (c.amount || 0), 0)`). */
  function ChargesTotal(charges: seq<Charge>): (r: nat)
    ensures r == 0 <==> forall i :: 0 <= i < |charges| ==> charges[i].amount == 0
    ensures forall i :: 0 <= i < |charges| ==> charges[i].amount <= r
  {
    if charges == [] then 0 else charges[0].amount + ChargesTotal(charges[1..])
  }

  /** `totalAmount`: base fare plus all additional charges plus the driver allowance. */
  function TotalAmount(baseFare: nat, charges: seq<Charge>, driverAllowance: nat): (r: nat)
    ensures r >= baseFare + driverAllowance
  {
    baseFare + ChargesTotal(charges) + driverAllowance
  }

  /** Appending a charge adds its amount to the total; a new zero charge leaves it unchanged. */
  lemma {:induction false} ChargesTotalAppend(charges: seq<Charge>, c: Charge)
    ensures ChargesTotal(charges + [c]) == ChargesTotal(charges) + c.amount
  {
    if charges != [] {
      assert (charges + [c])[1..] == charges[1..] + [c];
      ChargesTotalAppend(charges[1..], c);
    }
  }

  /** Replacing one charge changes the total by the difference of the two amounts. */
  lemma {:induction false} ChargesTotalUpdate(charges: seq<Charge>, i: nat, c: Charge)
    requires i < |charges|
    ensures ChargesTotal(charges[i := c]) + charges[i].amount == ChargesTotal(charges) + c.amount
  {
    if i > 0 {
      assert charges[i := c][1..] == charges[1..][i - 1 := c];
      ChargesTotalUpdate(charges[1..], i - 1, c);
    } else {
      assert charges[i := c][1..] == charges[1..];
    }
  }

  /** Removing a charge takes its amount off the total. */
  lemma {:induction false} ChargesTotalRemove(charges: seq<Charge>, i: nat)
    requires i < |charges|
    ensures ChargesTotal(RemoveAt(charges, i)) + charges[i].amount == ChargesTotal(charges)
  {
    if i > 0 {
      assert RemoveAt(charges, i)[1..] == RemoveAt(charges[1..], i - 1);
      ChargesTotalRemove(charges[1..], i - 1);
    } else {
      assert RemoveAt(charges, i) == charges[1..];
    }
  }

  // ---------------------------------------------------------------------------
  // What is submitted

  /** A stop is submitted when its trimmed location is not empty; its city plays no part. */
  predicate KeepsStop(s: Stop)
  {
    Trim(s.location) != ""
  }

  /** A charge is submitted when its amount is positive. */
  predicate KeepsCharge(c: Charge)
  {
    c.amount > 0
  }

  function FinalStops(stops: seq<Stop>): seq<Stop>
  {
    Filter(stops, KeepsStop)
  }

  function FinalCharges(charges: seq<Charge>): seq<Charge>
  {
    Filter(charges, KeepsCharge)
  }

  /**
   * The submitted stops are, in their original order, exactly the stops whose
   * location has a character other than white space.
   */
  lemma SubmittedStops(stops: seq<Stop>)
    ensures IsSubsequence(FinalStops(stops), stops)
    ensures forall i :: 0 <= i < |FinalStops(stops)| ==> !AllSpace(FinalStops(stops)[i].location)
    ensures forall i :: 0 <= i < |stops| && !AllSpace(stops[i].location) ==> stops[i] in FinalStops(stops)
    ensures forall x: Stop :: !AllSpace(x.location) ==> multiset(FinalStops(stops))[x] == multiset(stops)[x]
  {
    forall x: Stop | !AllSpace(x.location)
      ensures multiset(FinalStops(stops))[x] == multiset(stops)[x]
    {
      TrimEmptyIff(x.location);
      FilterKeepsCopies(stops, KeepsStop, x);
    }
    FilterIsSubsequence(stops, KeepsStop);
    FilterMembers(stops, KeepsStop);
    FilterSatisfies(stops, KeepsStop);
    var r := FinalStops(stops);
    forall i | 0 <= i < |r|
      ensures !AllSpace(r[i].location)
    {
      TrimEmptyIff(r[i].location);
    }
    forall i | 0 <= i < |stops| && !AllSpace(stops[i].location)
      ensures stops[i] in r
    {
      TrimEmptyIff(stops[i].location);
    }
  }

  /** Dropping the zero charges does not change their total. */
  lemma {:induction false} FinalChargesTotal(charges: seq<Charge>)
    ensures ChargesTotal(FinalCharges(charges)) == ChargesTotal(charges)
  {
    if charges != [] {
      FinalChargesTotal(charges[1..]);
    }
  }

  /** A blank stop is dropped whatever city it names; a stop with a location is kept. */
  lemma BlankStopDropped(blank: Stop, kept: Stop)
    requires AllSpace(blank.location) && !AllSpace(kept.location)
    ensures FinalStops([blank, kept]) == [kept]
  {
    TrimEmptyIff(blank.location);
    TrimEmptyIff(kept.location);
    FilterSecondOfTwo(blank, kept, KeepsStop);
  }

  /** A zero charge is dropped; a positive one is kept. */
  lemma ZeroChargeDropped()
    ensures FinalCharges([Charge("Toll", 0), Charge("Parking", 150)]) == [Charge("Parking", 150)]
  {
    assert [Charge("Toll", 0), Charge("Parking", 150)][1..] == [Charge("Parking", 150)];
  }

  // ---------------------------------------------------------------------------
  // Legacy stops

  /** One stored stop as the form uses it: a bare string becomes a stop with a fresh id and no city. */
  function NormaliseStop(e: StopEntry, freshId: string): Stop
  {
    if e.Legacy? then Stop(freshId, e.text, "") else e.stop
  }

  /**
   * The stored stops made into `Stop` records, in order; `idFor(i)` stands for the
   * random id drawn for the entry at position `i`.
   */
  function NormaliseStops(entries: seq<StopEntry>, idFor: nat -> string): (r: seq<Stop>)
    ensures |r| == |entries|
    ensures forall i :: 0 <= i < |r| ==> r[i] == NormaliseStop(entries[i], idFor(i))
    ensures forall i :: 0 <= i < |r| && entries[i].Legacy? ==> r[i] == Stop(idFor(i), entries[i].text, "")
    ensures forall i :: 0 <= i < |r| && entries[i].Structured? ==> r[i] == entries[i].stop
  {
    seq(|entries|, (i: nat) requires i < |entries| => NormaliseStop(entries[i], idFor(i)))
  }

  /** The stored form of a list of stops. */
  function Wrap(stops: seq<Stop>): (r: seq<StopEntry>)
    ensures |r| == |stops|
    ensures forall i :: 0 <= i < |r| ==> r[i] == Structured(stops[i])
  {
    seq(|stops|, i requires 0 <= i < |stops| => Structured(stops[i]))
  }

  /** Normalising stops that are already records gives them back unchanged. */
  lemma NormaliseWrapped(stops: seq<Stop>, idFor: nat -> string)
    ensures NormaliseStops(Wrap(stops), idFor) == stops
  {
  }

  /** Normalisation is idempotent: a second pass draws no new ids. */
  lemma NormaliseIdempotent(entries: seq<StopEntry>, idFor: nat -> string, idFor': nat -> string)
    ensures NormaliseStops(Wrap(NormaliseStops(entries, idFor)), idFor') == NormaliseStops(entries, idFor)
  {
  }

  // ---------------------------------------------------------------------------
  // Numeric entry

  /** `val < 0 ? 0 : val || 0` for `val = parseFloat(input)`: the money and mileage entries. */
  function ClampEntry(v: NumberValue): (r: nat)
    ensures v.Num? && v.value >= 0 ==> r == v.value
    ensures v.NotANumber? || v.value < 0 ==> r == 0
  {
    match v
    case NotANumber => 0
    case Num(x) => if x < 0 then 0 else x
  }

  /** `val < 0 ? 0 : val`: the local-trip hours and km entries, which keep NaN. */
  function ClampKeepingNaN(v: NumberValue): (r: NumberValue)
    ensures r.Num? ==> r.value >= 0
    ensures r.NotANumber? <==> v.NotANumber?
    ensures v.Num? && v.value >= 0 ==> r == v
  {
    match v
    case NotANumber => NotANumber
    case Num(x) => if x < 0 then Num(0) else v
  }

  /** A stored value is never negative (NaN aside). */
  predicate NonNegative(v: NumberValue)
  {
    v.Num? ==> v.value >= 0
  }

  // ---------------------------------------------------------------------------
  // Vehicle number and phone formatting

  predicate IsPlateChar(c: char)
  {
    IsUpper(c) || IsDigit(c)
  }

  predicate IsNotBlank(c: char)
  {
    c != ' '
  }

  /** `value.toUpperCase().replace(/[^A-Z0-9]/g, '')`. */
  function PlateChars(value: string): (r: string)
    ensures forall i :: 0 <= i < |r| ==> IsPlateChar(r[i])
    ensures |r| <= |value|
  {
    FilterSatisfies(ToUpper(value), IsPlateChar);
    Filter(ToUpper(value), IsPlateChar)
  }

  /** The spaces inserted after the 2nd, 4th and 6th character, then the cut at 13 characters. */
  function Grouped(raw: string): string
  {
    var f1 := if |raw| > 2 then raw[..2] + " " + raw[2..] else raw;
    var f2 := if |raw| > 4 then f1[..5] + " " + raw[4..] else f1;
    var f3 := if |raw| > 6 then f2[..8] + " " + raw[6..] else f2;
    Take(f3, 13)
  }

  /** `formatVehicleNumber`: groups the plate as `XX 00 XX 0000`. */
  function FormatVehicleNumber(value: string): string
  {
    Grouped(PlateChars(value))
  }

  /** `s` with its spaces removed. */
  function WithoutSpaces(s: string): string
  {
    Filter(s, IsNotBlank)
  }

  function Min(a: int, b: int): int { if a < b then a else b }

  /** The grouping in closed form: up to four groups of the first ten characters. */
  lemma GroupedForm(raw: string)
    ensures Grouped(raw) ==
      if |raw| <= 2 then raw
      else if |raw| <= 4 then raw[..2] + " " + raw[2..]
      else if |raw| <= 6 then raw[..2] + " " + raw[2..4] + " " + raw[4..]
      else raw[..2] + " " + raw[2..4] + " " + raw[4..6] + " " + raw[6..Min(|raw|, 10)]
  {
    if |raw| > 6 {
      var f1 := raw[..2] + " " + raw[2..];
      var f2 := f1[..5] + " " + raw[4..];
      assert f1[..5] == raw[..2] + " " + raw[2..4];
      assert f2[..8] == raw[..2] + " " + raw[2..4] + " " + raw[4..6];
    } else if |raw| > 4 {
      var f1 := raw[..2] + " " + raw[2..];
      assert f1[..5] == raw[..2] + " " + raw[2..4];
    }
  }

  /** Only the first ten characters of the plate take part in the grouping. */
  lemma GroupedFirstTen(raw: string)
    ensures Grouped(Take(raw, 10)) == Grouped(raw)
  {
    GroupedForm(raw);
    GroupedForm(Take(raw, 10));
    if |raw| > 10 {
      var t := raw[..10];
      assert t[..2] == raw[..2] && t[2..4] == raw[2..4] && t[4..6] == raw[4..6] && t[6..10] == raw[6..10];
    }
  }

  lemma BlankDropped()
    ensures WithoutSpaces(" ") == []
  {
    assert " "[1..] == [];
  }

  /** Removing the spaces from a space-free piece, a space and the rest. */
  lemma WithoutSpacesJoin(a: string, b: string)
    requires forall i :: 0 <= i < |a| ==> IsNotBlank(a[i])
    ensures WithoutSpaces(a + " " + b) == a + WithoutSpaces(b)
  {
    FilterKeepsAll(a, IsNotBlank);
    FilterConcat(a + " ", b, IsNotBlank);
    FilterConcat(a, " ", IsNotBlank);
    BlankDropped();
  }

  /** The characters of a four-group plate, position by position. */
  lemma GroupedFourChars(raw: string)
    requires |raw| > 6
    ensures var g := raw[..2] + " " + raw[2..4] + " " + raw[4..6] + " " + raw[6..Min(|raw|, 10)];
      && |g| == Min(|raw|, 10) + 3
      && forall i :: 0 <= i < |g| ==>
           g[i] == if i < 2 then raw[i] else if i == 2 then ' ' else if i < 5 then raw[i - 1]
                   else if i == 5 then ' ' else if i < 8 then raw[i - 2] else if i == 8 then ' ' else raw[i - 3]
  {
    var m := Min(|raw|, 10);
    var a, b, c, d := raw[..2], raw[2..4], raw[4..6], raw[6..m];
    var g1 := a + " " + b;
    var g2 := g1 + " " + c;
    var g := g2 + " " + d;
    assert |g1| == 5 && |g2| == 8;
    assert forall i :: 0 <= i < 5 ==> g1[i] == if i < 2 then raw[i] else if i == 2 then ' ' else raw[i - 1];
    assert forall i :: 0 <= i < 8 ==> g2[i] == if i < 5 then g1[i] else if i == 5 then ' ' else raw[i - 2];
    assert forall i :: 0 <= i < |g| ==> g[i] == if i < 8 then g2[i] else if i == 8 then ' ' else raw[i - 3];
  }

  /** A plate with more than six characters: four groups. */
  lemma GroupedShapeFour(raw: string)
    requires |raw| > 6
    requires forall i :: 0 <= i < |raw| ==> IsPlateChar(raw[i])
    ensures var g := raw[..2] + " " + raw[2..4] + " " + raw[4..6] + " " + raw[6..Min(|raw|, 10)];
      && |g| <= 13
      && (forall i :: 0 <= i < |g| ==> (g[i] == ' ' <==> i == 2 || i == 5 || i == 8))
      && (forall i :: 0 <= i < |g| ==> g[i] == ' ' || IsPlateChar(g[i]))
      && WithoutSpaces(g) == Take(raw, 10)
  {
    var g := raw[..2] + " " + raw[2..4] + " " + raw[4..6] + " " + raw[6..Min(|raw|, 10)];
    GroupedFourChars(raw);
    forall i | 0 <= i < |g|
      ensures (g[i] == ' ' <==> i == 2 || i == 5 || i == 8) && (g[i] == ' ' || IsPlateChar(g[i]))
    {
      var j := if i < 2 then i else if i < 5 then i - 1 else if i < 8 then i - 2 else i - 3;
      if i != 2 && i != 5 && i != 8 {
        assert g[i] == raw[j] && IsPlateChar(raw[j]);
      }
    }
    GroupedFourCompact(raw);
  }

  /** Without its spaces, a four-group plate is its first ten characters. */
  lemma GroupedFourCompact(raw: string)
    requires |raw| > 6
    requires forall i :: 0 <= i < |raw| ==> IsPlateChar(raw[i])
    ensures WithoutSpaces(raw[..2] + " " + raw[2..4] + " " + raw[4..6] + " " + raw[6..Min(|raw|, 10)]) == Take(raw, 10)
  {
    var m := Min(|raw|, 10);
    var a, b, c, d := raw[..2], raw[2..4], raw[4..6], raw[6..m];
    assert a + " " + b + " " + c + " " + d == a + " " + (b + " " + (c + " " + d));
    WithoutSpacesJoin(a, b + " " + (c + " " + d));
    WithoutSpacesJoin(b, c + " " + d);
    WithoutSpacesJoin(c, d);
    FilterKeepsAll(d, IsNotBlank);
    assert a + (b + (c + d)) == raw[..m];
  }

  /** A plate with five or six characters: three groups. */
  lemma GroupedShapeThree(raw: string)
    requires 4 < |raw| <= 6
    requires forall i :: 0 <= i < |raw| ==> IsPlateChar(raw[i])
    ensures var g := raw[..2] + " " + raw[2..4] + " " + raw[4..];
      && (forall i :: 0 <= i < |g| ==> (g[i] == ' ' <==> i == 2 || i == 5))
      && (forall i :: 0 <= i < |g| ==> g[i] == ' ' || IsPlateChar(g[i]))
      && WithoutSpaces(g) == raw
  {
    var a, b, c := raw[..2], raw[2..4], raw[4..];
    var g1 := a + " " + b;
    var g := g1 + " " + c;
    assert |g1| == 5;
    assert forall i :: 0 <= i < 5 ==> g1[i] == if i < 2 then raw[i] else if i == 2 then ' ' else raw[i - 1];
    assert forall i :: 0 <= i < |g| ==> g[i] == if i < 5 then g1[i] else if i == 5 then ' ' else raw[i - 2];
    forall i | 0 <= i < |g|
      ensures (g[i] == ' ' <==> i == 2 || i == 5) && (g[i] == ' ' || IsPlateChar(g[i]))
    {
      var j := if i < 2 then i else if i < 5 then i - 1 else i - 2;
      if i != 2 && i != 5 {
        assert g[i] == raw[j] && IsPlateChar(raw[j]);
      }
    }
    assert g == a + " " + (b + " " + c);
    WithoutSpacesJoin(a, b + " " + c);
    WithoutSpacesJoin(b, c);
    FilterKeepsAll(c, IsNotBlank);
    assert a + (b + c) == raw;
  }

  /** A plate with three or four characters: two groups. */
  lemma GroupedShapeTwo(raw: string)
    requires 2 < |raw| <= 4
    requires forall i :: 0 <= i < |raw| ==> IsPlateChar(raw[i])
    ensures var g := raw[..2] + " " + raw[2..];
      && (forall i :: 0 <= i < |g| ==> (g[i] == ' ' <==> i == 2))
      && (forall i :: 0 <= i < |g| ==> g[i] == ' ' || IsPlateChar(g[i]))
      && WithoutSpaces(g) == raw
  {
    var a, b := raw[..2], raw[2..];
    var g := a + " " + b;
    forall i | 0 <= i < |g|
      ensures g[i] == if i < 2 then raw[i] else if i == 2 then ' ' else raw[i - 1]
    {
    }
    WithoutSpacesJoin(a, b);
    FilterKeepsAll(b, IsNotBlank);
    assert a + b == raw;
  }

  /**
   * The shape of a grouped plate: at most 13 characters, spaces exactly at
   * positions 2, 5 and 8 (as far as the text reaches), every other character a
   * plate character, and without its spaces it is the first ten plate characters.
   */
  lemma GroupedShape(raw: string)
    requires forall i :: 0 <= i < |raw| ==> IsPlateChar(raw[i])
    ensures |Grouped(raw)| <= 13
    ensures forall i :: 0 <= i < |Grouped(raw)| ==> (Grouped(raw)[i] == ' ' <==> i == 2 || i == 5 || i == 8)
    ensures forall i :: 0 <= i < |Grouped(raw)| ==> Grouped(raw)[i] == ' ' || IsPlateChar(Grouped(raw)[i])
    ensures WithoutSpaces(Grouped(raw)) == Take(raw, 10)
  {
    GroupedForm(raw);
    if |raw| <= 2 {
      FilterKeepsAll(raw, IsNotBlank);
    } else if |raw| <= 4 {
      GroupedShapeTwo(raw);
    } else if |raw| <= 6 {
      GroupedShapeThree(raw);
    } else {
      GroupedShapeFour(raw);
    }
  }

  /**
   * `formatVehicleNumber`, applied on every keystroke to the text it produced,
   * is a fixed point after one application.
   */
  lemma FormatVehicleNumberIdempotent(value: string)
    ensures FormatVehicleNumber(FormatVehicleNumber(value)) == FormatVehicleNumber(value)
  {
    var raw := PlateChars(value);
    var g := Grouped(raw);
    GroupedShape(raw);
    assert ToUpper(g) == g;
    FilterAgree(g, IsPlateChar, IsNotBlank);
    assert PlateChars(g) == Take(raw, 10);
    GroupedFirstTen(raw);
  }

  /** The formatted plate in terms of the typed text. */
  lemma FormatVehicleNumberShape(value: string)
    ensures |FormatVehicleNumber(value)| <= 13
    ensures forall i :: 0 <= i < |FormatVehicleNumber(value)| ==>
              (FormatVehicleNumber(value)[i] == ' ' <==> i == 2 || i == 5 || i == 8)
    ensures WithoutSpaces(FormatVehicleNumber(value)) == Take(PlateChars(value), 10)
  {
    GroupedShape(PlateChars(value));
  }

  /** `validatePhone`: the digits of the typed text, at most ten of them. */
  function PhoneDigits(value: string): (r: string)
    ensures AllDigits(r) && |r| == Min(|DigitsOf(value)|, 10)
    ensures r <= DigitsOf(value)
    ensures |DigitsOf(value)| <= 10 ==> r == DigitsOf(value)
  {
    Take(DigitsOf(value), 10)
  }

  /** Re-filtering an already filtered phone number changes nothing. */
  lemma PhoneDigitsIdempotent(value: string)
    ensures PhoneDigits(PhoneDigits(value)) == PhoneDigits(value)
  {
    DigitsOfDigits(PhoneDigits(value));
  }

  // ---------------------------------------------------------------------------
  // Form state and the submitted payload

  /**
   * Everything the form holds: the values of its named inputs (what `FormData`
   * reads) and its controlled state.
   */
  datatype FormState = FormState(
    inputs: map<string, string>,
    stops: seq<Stop>,
    charges: seq<Charge>,
    tripType: TripType,
    baseFare: nat,
    totalKm: NumberValue,
    totalHours: NumberValue,
    vehicleModel: string,
    startingKm: nat,
    closingKm: nat,
    driverAllowance: nat)

  /** `formData.get(name)`: the value of a named input, absent when there is none. */
  function Entry(inputs: map<string, string>, name: string): Option<string>
  {
    if name in inputs then Some(inputs[name]) else None
  }

  /** `n || undefined`. */
  function NonZero(n: nat): (r: Option<nat>)
    ensures r.Some? <==> n != 0
    ensures r.GetOr(0) == n
  {
    if n == 0 then None else Some(n)
  }

  /** `s || undefined`. */
  function NonEmpty(s: string): Option<string>
  {
    if s == "" then None else Some(s)
  }

  /** The payload `handleSubmit` builds from the form. */
  function Payload(s: FormState): (p: InvoiceFormData)
    ensures p.totalKm.Some? <==> s.tripType == Local
    ensures p.totalHours.Some? <==> s.tripType == Local
    ensures p.tripType == Some(s.tripType)
    ensures p.tollAmount == 0
    ensures p.fareAmount == s.baseFare
    ensures p.totalAmount == TotalAmount(s.baseFare, s.charges, s.driverAllowance)
  {
    InvoiceFormData(
      invoiceDate := Entry(s.inputs, "invoice_date").GetOr(""),
      customerName := Entry(s.inputs, "customer_name").GetOr(""),
      customerPhone := Entry(s.inputs, "customer_phone").GetOr(""),
      pickupLocation := Entry(s.inputs, "pickup_location").GetOr(""),
      pickupCity := Entry(s.inputs, "pickup_city"),
      destination := Entry(s.inputs, "destination").GetOr(""),
      dropCity := Entry(s.inputs, "drop_city"),
      journeyDate := Entry(s.inputs, "journey_date").GetOr(""),
      returnDate := Entry(s.inputs, "return_date"),
      journeyType := if "journey_type" in s.inputs then ParseJourneyType(s.inputs["journey_type"]) else None,
      cabNumber := Entry(s.inputs, "cab_number").GetOr(""),
      cabType := Entry(s.inputs, "cab_type").GetOr(""),
      driverName := Entry(s.inputs, "driver_name").GetOr(""),
      driverPhone := Entry(s.inputs, "driver_phone").GetOr(""),
      fareAmount := s.baseFare,
      tollAmount := 0,
      totalAmount := TotalAmount(s.baseFare, s.charges, s.driverAllowance),
      tripType := Some(s.tripType),
      totalKm := if s.tripType == Local then Some(s.totalKm) else None,
      totalHours := if s.tripType == Local then Some(s.totalHours) else None,
      stops := Some(Wrap(FinalStops(s.stops))),
      additionalCharges := Some(FinalCharges(s.charges)),
      paymentMode := if "payment_mode" in s.inputs then ParsePaymentMode(s.inputs["payment_mode"]) else None,
      startingKm := NonZero(s.startingKm),
      closingKm := NonZero(s.closingKm),
      driverAllowance := NonZero(s.driverAllowance),
      vehicleModel := NonEmpty(s.vehicleModel))
  }

  /**
   * The submitted record keeps the stored invariant: its total is its fare plus
   * its (filtered) charges plus its allowance, it holds no zero charge and no
   * blank stop, and its stops are records.
   */
  lemma SubmittedRecord(s: FormState)
    ensures var p := Payload(s);
      && p.additionalCharges.Some? && p.stops.Some?
      && p.totalAmount == p.fareAmount + ChargesTotal(p.additionalCharges.value) + p.driverAllowance.GetOr(0)
      && (forall i :: 0 <= i < |p.additionalCharges.value| ==> p.additionalCharges.value[i].amount > 0)
      && (forall i :: 0 <= i < |p.stops.value| ==>
            p.stops.value[i].Structured? && !AllSpace(p.stops.value[i].stop.location))
  {
    FinalChargesTotal(s.charges);
    FilterSatisfies(s.charges, KeepsCharge);
    StoredStopsKept(s.stops);
  }

  /** The stored form of the submitted stops holds only records, each with a location. */
  lemma StoredStopsKept(stops: seq<Stop>)
    ensures var r := Wrap(FinalStops(stops));
      forall i :: 0 <= i < |r| ==> r[i].Structured? && !AllSpace(r[i].stop.location)
  {
    SubmittedStops(stops);
  }

  /** With no charges and no allowance the total is the base fare. */
  lemma TotalIsFareWithoutExtras(s: FormState)
    requires s.charges == [] && s.driverAllowance == 0
    ensures Payload(s).totalAmount == s.baseFare
  {
  }

  // ---------------------------------------------------------------------------
  // The draft slot

  /**
   * A draft as kept in local storage: the named inputs' values and the complex
   * state. A draft read back may lack any complex field (`None`, or 0 for the
   * numbers, which the loader treats alike).
   */
  datatype Draft = Draft(
    entries: map<string, string>,
    stops: Option<seq<StopEntry>>,
    additionalCharges: Option<seq<Charge>>,
    baseFare: nat,
    tripType: Option<TripType>,
    totalKm: Option<NumberValue>,
    totalHours: Option<NumberValue>,
    vehicleModel: string,
    startingKm: nat,
    closingKm: nat,
    driverAllowance: nat)

  /** The single `invoice_draft` slot: empty, holding text that does not parse, or a draft. */
  datatype DraftSlot = NoDraft | Unreadable | Saved(draft: Draft)

  /** What `saveDraft` writes: the inputs and the complex state, but not the trip type or local usage. */
  function Snapshot(s: FormState): Draft
  {
    Draft(s.inputs, Some(Wrap(s.stops)), Some(s.charges), s.baseFare, None, None, None,
          s.vehicleModel, s.startingKm, s.closingKm, s.driverAllowance)
  }

  /** A JavaScript number's truthiness. */
  predicate Truthy(v: NumberValue)
  {
    v.Num? && v.value != 0
  }

  /** The inputs after every draft entry that names an existing input has been written into it. */
  function LoadInputs(inputs: map<string, string>, entries: map<string, string>): (r: map<string, string>)
    ensures r.Keys == inputs.Keys
    ensures forall k :: k in r ==> r[k] == if k in entries then entries[k] else inputs[k]
  {
    map k | k in inputs :: if k in entries then entries[k] else inputs[k]
  }

  /** The draft-loading effect applied to a form: each present, truthy draft field replaces the state. */
  function ApplyDraft(s: FormState, d: Draft, idFor: nat -> string): FormState
  {
    FormState(
      LoadInputs(s.inputs, d.entries),
      if d.stops.Some? then NormaliseStops(d.stops.value, idFor) else s.stops,
      Restored(d.additionalCharges, s.charges),
      Restored(d.tripType, s.tripType),
      RestoredAmount(d.baseFare, s.baseFare),
      RestoredNumber(d.totalKm, s.totalKm),
      RestoredNumber(d.totalHours, s.totalHours),
      if d.vehicleModel != "" then d.vehicleModel else s.vehicleModel,
      RestoredAmount(d.startingKm, s.startingKm),
      RestoredAmount(d.closingKm, s.closingKm),
      RestoredAmount(d.driverAllowance, s.driverAllowance))
  }

  /** `if (draft.x) setX(draft.x)` for a field the draft may lack. */
  function Restored<T>(saved: Option<T>, current: T): T
  {
    if saved.Some? then saved.value else current
  }

  /** `if (draft.x) setX(draft.x)` for an amount: a saved 0 does not replace the current value. */
  function RestoredAmount(saved: nat, current: nat): nat
  {
    if saved != 0 then saved else current
  }

  /** `if (draft.x) setX(draft.x)` for local usage: a saved 0 or NaN does not replace the current value. */
  function RestoredNumber(saved: Option<NumberValue>, current: NumberValue): NumberValue
  {
    if saved.Some? && Truthy(saved.value) then saved.value else current
  }

  /** The state of a new form (no invoice being edited) over the given named inputs. */
  function Blank(inputs: map<string, string>): FormState
  {
    FormState(inputs, [], [], OneWay, 0, Num(0), Num(0), "", 0, 0, 0)
  }

  /** `x || 0` for a stored hours or km value. */
  function OrZero(v: Option<NumberValue>): (r: NumberValue)
    ensures r.Num?
    ensures v.Some? && v.value.Num? && v.value.value != 0 ==> r == v.value
    ensures v.None? || v.value == NotANumber || v.value == Num(0) ==> r == Num(0)
  {
    if v.Some? && Truthy(v.value) then v.value else Num(0)
  }

  /** The initial state: from the invoice being edited, or blank. */
  function InitialState(initial: Option<Invoice>, inputs: map<string, string>, idFor: nat -> string): FormState
  {
    match initial
    case None => Blank(inputs)
    case Some(inv) =>
      FormState(
        inputs,
        NormaliseStops(inv.data.stops.GetOr([]), idFor),
        inv.data.additionalCharges.GetOr([]),
        inv.data.tripType.GetOr(OneWay),
        inv.data.fareAmount,
        OrZero(inv.data.totalKm),
        OrZero(inv.data.totalHours),
        inv.data.vehicleModel.GetOr(""),
        inv.data.startingKm.GetOr(0),
        inv.data.closingKm.GetOr(0),
        inv.data.driverAllowance.GetOr(0))
  }

  /**
   * Saving a form and loading the draft into a new form restores the inputs the
   * new form has, the stops, the charges and the money and mileage fields; the
   * trip type and the local usage are not saved, so they keep their initial values.
   */
  lemma DraftRoundTrip(t: FormState, inputs: map<string, string>, idFor: nat -> string)
    ensures var r := ApplyDraft(Blank(inputs), Snapshot(t), idFor);
      && r.stops == t.stops && r.charges == t.charges
      && r.baseFare == t.baseFare && r.vehicleModel == t.vehicleModel
      && r.startingKm == t.startingKm && r.closingKm == t.closingKm
      && r.driverAllowance == t.driverAllowance
      && r.inputs.Keys == inputs.Keys
      && (forall k :: k in inputs && k in t.inputs ==> r.inputs[k] == t.inputs[k])
      && (forall k :: k in inputs && k !in t.inputs ==> r.inputs[k] == inputs[k])
      && r.tripType == OneWay && r.totalKm == Num(0) && r.totalHours == Num(0)
  {
    NormaliseWrapped(t.stops, idFor);
  }

  /**
   * The loop over the draft's entries: each one that names an existing input is
   * written into it (`namedItem(key).value = value`); other entries are ignored.
   */
  method CopyEntries(inputs: map<string, string>, entries: map<string, string>) returns (loaded: map<string, string>)
    ensures loaded == LoadInputs(inputs, entries)
  {
    loaded := inputs;
    var pending := entries.Keys;
    while pending != {}
      invariant pending <= entries.Keys
      invariant loaded.Keys == inputs.Keys
      invariant forall k :: k in loaded ==>
        loaded[k] == if k in entries && k !in pending then entries[k] else inputs[k]
      decreases pending
    {
      var k :| k in pending;
      if k in loaded {
        loaded := loaded[k := entries[k]];
      }
      pending := pending - {k};
    }
  }

  /** The draft slot and the form. */
  class DraftStore {
    var slot: DraftSlot

    constructor (initial: DraftSlot)
      ensures slot == initial
    {
      slot := initial;
    }

    /** `localStorage.setItem('invoice_draft', ...)`: last writer wins. */
    method Save(d: Draft)
      modifies this
      ensures slot == Saved(d)
    {
      slot := Saved(d);
    }

    /** `localStorage.removeItem('invoice_draft')`. */
    method Clear()
      modifies this
      ensures slot == NoDraft
    {
      slot := NoDraft;
    }
  }

  class Form {
    /** Whether an existing invoice is being edited (`initialData` was given). */
    const editing: bool
    var inputs: map<string, string>
    var stops: seq<Stop>
    var charges: seq<Charge>
    var tripType: TripType
    var baseFare: nat
    var totalKm: NumberValue
    var totalHours: NumberValue
    var vehicleModel: string
    var startingKm: nat
    var closingKm: nat
    var driverAllowance: nat

    function State(): FormState
      reads this
    {
      FormState(inputs, stops, charges, tripType, baseFare, totalKm, totalHours,
                vehicleModel, startingKm, closingKm, driverAllowance)
    }

    /** The total shown and submitted, recomputed from the current state. */
    function Total(): (r: nat)
      reads this
      ensures r == Payload(State()).totalAmount
    {
      TotalAmount(baseFare, charges, driverAllowance)
    }

    /** Mounting the form, with `inputs` the named inputs and their default values. */
    constructor (initial: Option<Invoice>, inputs: map<string, string>, idFor: nat -> string)
      ensures editing == initial.Some?
      ensures State() == InitialState(initial, inputs, idFor)
    {
      var s := InitialState(initial, inputs, idFor);
      editing := initial.Some?;
      this.inputs := s.inputs;
      stops := s.stops;
      charges := s.charges;
      tripType := s.tripType;
      baseFare := s.baseFare;
      totalKm := s.totalKm;
      totalHours := s.totalHours;
      vehicleModel := s.vehicleModel;
      startingKm := s.startingKm;
      closingKm := s.closingKm;
      driverAllowance := s.driverAllowance;
    }

    // --- stops

    /** "+ Add Intermediate Stop": appends a blank stop with a fresh id. */
    method AddStop(freshId: string)
      modifies this
      ensures State() == old(State()).(stops := old(stops) + [Stop(freshId, "", "")])
    {
      stops := stops + [Stop(freshId, "", "")];
    }

    /** "Remove" on stop `index`. */
    method RemoveStop(index: nat)
      modifies this
      ensures State() == old(State()).(stops := RemoveAt(old(stops), index))
      ensures index < |old(stops)| ==> multiset(stops) + multiset{old(stops)[index]} == multiset(old(stops))
    {
      if index < |stops| {
        RemoveAtMultiset(stops, index);
      }
      stops := RemoveAt(stops, index);
    }

    method SetStopLocation(index: nat, location: string)
      requires index < |stops|
      modifies this
      ensures State() == old(State()).(stops := old(stops)[index := old(stops)[index].(location := location)])
    {
      var updated := stops[index].(location := location);
      stops := stops[index := updated];
    }

    method SetStopCity(index: nat, city: string)
      requires index < |stops|
      modifies this
      ensures State() == old(State()).(stops := old(stops)[index := old(stops)[index].(city := city)])
    {
      var updated := stops[index].(city := city);
      stops := stops[index := updated];
    }

    // --- additional charges

    /** A quick-add button: appends a charge of the given kind with amount 0. */
    method AddCharge(kind: string)
      modifies this
      ensures State() == old(State()).(charges := old(charges) + [Charge(kind, 0)])
      ensures Total() == old(Total())
    {
      ChargesTotalAppend(charges, Charge(kind, 0));
      charges := charges + [Charge(kind, 0)];
    }

    method RemoveCharge(index: nat)
      modifies this
      ensures State() == old(State()).(charges := RemoveAt(old(charges), index))
      ensures index < |old(charges)| ==> Total() + old(charges)[index].amount == old(Total())
      ensures index < |old(charges)| ==> multiset(charges) + multiset{old(charges)[index]} == multiset(old(charges))
    {
      if index < |charges| {
        ChargesTotalRemove(charges, index);
        RemoveAtMultiset(charges, index);
      }
      charges := RemoveAt(charges, index);
    }

    method SetChargeKind(index: nat, kind: string)
      requires index < |charges|
      modifies this
      ensures State() == old(State()).(charges := old(charges)[index := old(charges)[index].(kind := kind)])
      ensures Total() == old(Total())
    {
      var updated := charges[index].(kind := kind);
      ChargesTotalUpdate(charges, index, updated);
      charges := charges[index := updated];
    }

    method SetChargeAmount(index: nat, typed: NumberValue)
      requires index < |charges|
      modifies this
      ensures State() == old(State()).(charges := old(charges)[index := old(charges)[index].(amount := ClampEntry(typed))])
      ensures Total() + old(charges)[index].amount == old(Total()) + ClampEntry(typed)
    {
      var updated := charges[index].(amount := ClampEntry(typed));
      ChargesTotalUpdate(charges, index, updated);
      charges := charges[index := updated];
    }

    // --- numeric entries

    method SetBaseFare(typed: NumberValue)
      modifies this
      ensures State() == old(State()).(baseFare := ClampEntry(typed))
    {
      baseFare := ClampEntry(typed);
    }

    method SetDriverAllowance(typed: NumberValue)
      modifies this
      ensures State() == old(State()).(driverAllowance := ClampEntry(typed))
    {
      driverAllowance := ClampEntry(typed);
    }

    method SetStartingKm(typed: NumberValue)
      modifies this
      ensures State() == old(State()).(startingKm := ClampEntry(typed))
    {
      startingKm := ClampEntry(typed);
    }

    method SetClosingKm(typed: NumberValue)
      modifies this
      ensures State() == old(State()).(closingKm := ClampEntry(typed))
    {
      closingKm := ClampEntry(typed);
    }

    method SetTotalHours(typed: NumberValue)
      modifies this
      ensures State() == old(State()).(totalHours := ClampKeepingNaN(typed))
      ensures NonNegative(totalHours)
    {
      totalHours := ClampKeepingNaN(typed);
    }

    method SetTotalKm(typed: NumberValue)
      modifies this
      ensures State() == old(State()).(totalKm := ClampKeepingNaN(typed))
      ensures NonNegative(totalKm)
    {
      totalKm := ClampKeepingNaN(typed);
    }

    // --- other controlled fields and formatted inputs

    /** The trip-type select offers one way and round trip; `local` only arrives with an edited invoice. */
    method SetTripType(t: TripType)
      requires t != Local
      modifies this
      ensures State() == old(State()).(tripType := t)
    {
      tripType := t;
    }

    method SetVehicleModel(model: string)
      modifies this
      ensures State() == old(State()).(vehicleModel := model)
    {
      vehicleModel := model;
    }

    /** Typing in the vehicle-number input: the input shows the formatted text. */
    method EnterCabNumber(typed: string)
      modifies this
      ensures State() == old(State()).(inputs := old(inputs)["cab_number" := FormatVehicleNumber(typed)])
    {
      inputs := inputs["cab_number" := FormatVehicleNumber(typed)];
    }

    /** Typing in a phone input (`customer_phone` or `driver_phone`): only up to ten digits stay. */
    method EnterPhone(control: string, typed: string)
      modifies this
      ensures State() == old(State()).(inputs := old(inputs)[control := PhoneDigits(typed)])
    {
      inputs := inputs[control := PhoneDigits(typed)];
    }

    // --- draft and submission

    /** `saveDraft`: copies every named input, then the complex state, into the slot. */
    method SaveDraft(store: DraftStore)
      modifies store
      ensures store.slot == Saved(Snapshot(State()))
    {
      var entries: map<string, string> := map[];
      var pending := inputs.Keys;
      while pending != {}
        invariant pending <= inputs.Keys
        invariant entries.Keys == inputs.Keys - pending
        invariant forall k :: k in entries ==> entries[k] == inputs[k]
        decreases pending
      {
        var k :| k in pending;
        entries := entries[k := inputs[k]];
        pending := pending - {k};
      }
      assert entries == inputs;
      store.Save(Draft(entries, Some(Wrap(stops)), Some(charges), baseFare, None, None, None,
                       vehicleModel, startingKm, closingKm, driverAllowance));
    }

    /**
     * The draft-loading effect: skipped when editing and when the slot is empty or
     * unreadable; otherwise each named input found in the draft takes its value and
     * each present, truthy complex field replaces the state.
     */
    method LoadDraft(store: DraftStore, idFor: nat -> string)
      modifies this
      ensures editing || !store.slot.Saved? ==> State() == old(State())
      ensures !editing && store.slot.Saved? ==> State() == ApplyDraft(old(State()), store.slot.draft, idFor)
    {
      if editing || !store.slot.Saved? {
        return;
      }
      var d := store.slot.draft;
      var loaded := CopyEntries(inputs, d.entries);
      inputs := loaded;
      RestoreLists(d, idFor);
      RestoreUsage(d);
      RestoreAmounts(d);
    }

    /** The stops, the charges and the trip type, each when the draft has it. */
    method RestoreLists(d: Draft, idFor: nat -> string)
      modifies this
      ensures State() == old(State()).(
        stops := if d.stops.Some? then NormaliseStops(d.stops.value, idFor) else old(stops),
        charges := Restored(d.additionalCharges, old(charges)),
        tripType := Restored(d.tripType, old(tripType)))
    {
      if d.stops.Some? { stops := NormaliseStops(d.stops.value, idFor); }
      if d.additionalCharges.Some? { charges := d.additionalCharges.value; }
      if d.tripType.Some? { tripType := d.tripType.value; }
    }

    /** The local-trip usage and the vehicle model, each when the draft's value is truthy. */
    method RestoreUsage(d: Draft)
      modifies this
      ensures State() == old(State()).(
        totalKm := RestoredNumber(d.totalKm, old(totalKm)),
        totalHours := RestoredNumber(d.totalHours, old(totalHours)),
        vehicleModel := if d.vehicleModel != "" then d.vehicleModel else old(vehicleModel))
    {
      if d.totalKm.Some? && Truthy(d.totalKm.value) { totalKm := d.totalKm.value; }
      if d.totalHours.Some? && Truthy(d.totalHours.value) { totalHours := d.totalHours.value; }
      if d.vehicleModel != "" { vehicleModel := d.vehicleModel; }
    }

    /** The base fare, the mileage and the driver allowance, each when the draft's value is not 0. */
    method RestoreAmounts(d: Draft)
      modifies this
      ensures State() == old(State()).(
        baseFare := RestoredAmount(d.baseFare, old(baseFare)),
        startingKm := RestoredAmount(d.startingKm, old(startingKm)),
        closingKm := RestoredAmount(d.closingKm, old(closingKm)),
        driverAllowance := RestoredAmount(d.driverAllowance, old(driverAllowance)))
    {
      if d.baseFare != 0 { baseFare := d.baseFare; }
      if d.startingKm != 0 { startingKm := d.startingKm; }
      if d.closingKm != 0 { closingKm := d.closingKm; }
      if d.driverAllowance != 0 { driverAllowance := d.driverAllowance; }
    }

    /**
     * `handleSubmit`: builds the payload and hands it to the caller's submit
     * operation, whose outcome is `accepted`; the draft is removed only on success.
     */
    method Submit(store: DraftStore, accepted: bool) returns (payload: InvoiceFormData)
      modifies store
      ensures payload == Payload(State())
      ensures store.slot == if accepted then NoDraft else old(store.slot)
    {
      payload := Payload(State());
      if accepted {
        store.Clear();
      }
    }
  }
}
