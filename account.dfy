/**
 * The revenue and trip figures of the account page: all-time revenue, revenue of
 * the current month and year, and the "trips this month" count. Each invoice's
 * date is read through `dateOf`, which stands for `new Date(invoice_date)`
 * followed by `getMonth()`/`getFullYear()`; the current month is passed in.
 */
module Account {
  import opened Wrappers
  import opened Lists
  import opened InvoiceTypes

  /** What `new Date(s)` yields for the month arithmetic: an invalid date, or a calendar month. */
  datatype CalendarMonth = InvalidDate | Month(year: int, month: nat)

  /** The current year and month (`now.getFullYear()`, `now.getMonth()`). */
  datatype YearMonth = YearMonth(year: int, month: nat)

  /** The amount an invoice contributes: `total_amount || 0`. */
  function Amount(invoice: Invoice): nat
  {
    invoice.data.totalAmount
  }

  /** `invoices.reduce((sum, i) => sum + (i.total_amount || 0), 0)`. */
  function TotalRevenue(invoices: seq<Invoice>): (r: nat)
    ensures forall i :: 0 <= i < |invoices| ==> Amount(invoices[i]) <= r
    ensures r == 0 <==> forall i :: 0 <= i < |invoices| ==> Amount(invoices[i]) == 0
  {
    if invoices == [] then 0
    else
      var init := invoices[..|invoices| - 1];
      assert forall i :: 0 <= i < |init| ==> init[i] == invoices[i];
      TotalRevenue(init) + Amount(invoices[|invoices| - 1])
  }

  /** Whether an invoice's date falls in the given month of the given year; an invalid date never does. */
  predicate InMonth(date: CalendarMonth, now: YearMonth)
  {
    date.Month? && date.month == now.month && date.year == now.year
  }

  /** The invoices that count for the current month: same month and same year. */
  function ThisMonth(now: YearMonth, dateOf: string -> CalendarMonth): Invoice -> bool
  {
    (invoice: Invoice) => InMonth(dateOf(invoice.data.invoiceDate), now)
  }

  /** `currentMonthRevenue`: the amounts of the invoices dated in the current month and year. */
  function CurrentMonthRevenue(invoices: seq<Invoice>, now: YearMonth, dateOf: string -> CalendarMonth): nat
  {
    if invoices == [] then 0
    else
      var init := invoices[..|invoices| - 1];
      var last := invoices[|invoices| - 1];
      CurrentMonthRevenue(init, now, dateOf) + (if ThisMonth(now, dateOf)(last) then Amount(last) else 0)
  }

  /** The month's revenue is the total revenue of the month's invoices. */
  lemma {:induction false} CurrentMonthRevenueIsFiltered(invoices: seq<Invoice>, now: YearMonth, dateOf: string -> CalendarMonth)
    ensures CurrentMonthRevenue(invoices, now, dateOf) == TotalRevenue(Filter(invoices, ThisMonth(now, dateOf)))
  {
    if invoices != [] {
      var init, last := invoices[..|invoices| - 1], invoices[|invoices| - 1];
      var p := ThisMonth(now, dateOf);
      CurrentMonthRevenueIsFiltered(init, now, dateOf);
      assert invoices == init + [last];
      FilterConcat(init, [last], p);
      FilterOne(last, p);
      TotalRevenueAppend(Filter(init, p), Filter([last], p));
      assert TotalRevenue([last]) == Amount(last) by { assert [last][..0] == []; }
    }
  }

  /** Revenue adds up over concatenation. */
  lemma {:induction false} TotalRevenueAppend(a: seq<Invoice>, b: seq<Invoice>)
    ensures TotalRevenue(a + b) == TotalRevenue(a) + TotalRevenue(b)
    decreases |b|
  {
    if b == [] {
      assert a + b == a;
    } else {
      var b' := b[..|b| - 1];
      assert (a + b)[..|a + b| - 1] == a + b';
      TotalRevenueAppend(a, b');
    }
  }

  /** A selection of the invoices never earns more than all of them. */
  lemma {:induction false} FilteredRevenueBounded(invoices: seq<Invoice>, p: Invoice -> bool)
    ensures TotalRevenue(Filter(invoices, p)) <= TotalRevenue(invoices)
  {
    if invoices != [] {
      var head, tail := invoices[0], invoices[1..];
      FilteredRevenueBounded(tail, p);
      assert invoices == [head] + tail;
      TotalRevenueAppend([head], tail);
      if p(head) {
        assert Filter(invoices, p) == [head] + Filter(tail, p);
        TotalRevenueAppend([head], Filter(tail, p));
      }
    }
  }

  /** The current month's revenue never exceeds the total revenue. */
  lemma MonthWithinTotal(invoices: seq<Invoice>, now: YearMonth, dateOf: string -> CalendarMonth)
    ensures CurrentMonthRevenue(invoices, now, dateOf) <= TotalRevenue(invoices)
  {
    CurrentMonthRevenueIsFiltered(invoices, now, dateOf);
    FilteredRevenueBounded(invoices, ThisMonth(now, dateOf));
  }

  // ---------------------------------------------------------------------------
  // Trips this month

  /** The invoices the trips count selects as written: same month number, any year. */
  function SameMonthNumber(now: YearMonth, dateOf: string -> CalendarMonth): Invoice -> bool
  {
    (invoice: Invoice) => dateOf(invoice.data.invoiceDate).Month? && dateOf(invoice.data.invoiceDate).month == now.month
  }

  /** "trips this month" as written: `filter(getMonth() === now.getMonth()).length`. */
  function TripsThisMonthAsWritten(invoices: seq<Invoice>, now: YearMonth, dateOf: string -> CalendarMonth): (r: nat)
    ensures r <= |invoices|
  {
    |Filter(invoices, SameMonthNumber(now, dateOf))|
  }

  /** "trips this month" counting the invoices of the current month and year, as the revenue does. */
  function TripsThisMonth(invoices: seq<Invoice>, now: YearMonth, dateOf: string -> CalendarMonth): (r: nat)
    ensures r <= |invoices|
  {
    |Filter(invoices, ThisMonth(now, dateOf))|
  }

  /**
   * The corrected count is the number of invoices whose amounts make up the
   * month's revenue, and never more than the count as written.
   */
  lemma TripsMatchRevenue(invoices: seq<Invoice>, now: YearMonth, dateOf: string -> CalendarMonth)
    ensures CurrentMonthRevenue(invoices, now, dateOf) == TotalRevenue(Filter(invoices, ThisMonth(now, dateOf)))
    ensures TripsThisMonth(invoices, now, dateOf) <= TripsThisMonthAsWritten(invoices, now, dateOf)
  {
    CurrentMonthRevenueIsFiltered(invoices, now, dateOf);
    forall x: Invoice
      ensures ThisMonth(now, dateOf)(x) ==> SameMonthNumber(now, dateOf)(x)
    {
      assert ThisMonth(now, dateOf)(x) == InMonth(dateOf(x.data.invoiceDate), now);
    }
    FilterWeaker(invoices, ThisMonth(now, dateOf), SameMonthNumber(now, dateOf));
  }

  /** Filtering by a stronger predicate selects no more elements. */
  lemma {:induction false} FilterWeaker<T>(s: seq<T>, p: T -> bool, q: T -> bool)
    requires forall x :: p(x) ==> q(x)
    ensures |Filter(s, p)| <= |Filter(s, q)|
  {
    if s != [] {
      FilterWeaker(s[1..], p, q);
    }
  }

  /**
   * The count as written also counts last year's invoices of the same month,
   * which the month's revenue leaves out.
   */
  lemma TripsAsWrittenCountOtherYears()
    ensures var now, dateOf := YearMonth(2026, 9), (s: string) => Month(2025, 9);
      var invoices := [Invoice(None, Some(1), None, None, EmptyFormData().(totalAmount := 500))];
      && TripsThisMonthAsWritten(invoices, now, dateOf) == 1
      && CurrentMonthRevenue(invoices, now, dateOf) == 0
      && TripsThisMonth(invoices, now, dateOf) == 0
  {
    var now, dateOf := YearMonth(2026, 9), (s: string) => Month(2025, 9);
    var invoices := [Invoice(None, Some(1), None, None, EmptyFormData().(totalAmount := 500))];
    assert invoices[..0] == [] && invoices[1..] == [];
    assert SameMonthNumber(now, dateOf)(invoices[0]);
    assert dateOf(invoices[0].data.invoiceDate) == Month(2025, 9);
    assert !ThisMonth(now, dateOf)(invoices[0]);
  }
}
