/**
 * The invoice-history page: the statistics shown above the list (revenue, this
 * month's revenue, number of trips, most frequent route), the search box that
 * narrows the list, and the local update after an invoice is deleted.
 */
module Dashboard {
  import opened Wrappers
  import opened Lists
  import opened Strings
  import opened InvoiceTypes
  import opened Account

  /** The four figures of the statistics panel. */
  datatype Stats = Stats(totalRevenue: nat, monthlyRevenue: nat, totalTrips: nat, topRoute: string)

  /** The separator between the two ends of a route key, as the page spells it (three characters). */
  const Separator: string := ['\U{201A}', '\U{00DC}', '\U{00ED}']

  /** `a || b` on an optional string: the first when it is present and not empty. */
  function OrElse(a: Option<string>, b: string): (r: string)
    ensures r == b || (a.Some? && r == a.value && r != "")
  {
    if a.Some? && a.value != "" then a.value else b
  }

  /** The key of a route: its two ends joined by the separator with a space on each side. */
  function Route(from: string, to: string): string
  {
    from + " " + Separator + " " + to
  }

  /** An invoice's route key: pickup city (else pickup area) to drop city (else drop area). */
  function RouteKey(invoice: Invoice): string
  {
    Route(OrElse(invoice.data.pickupCity, invoice.data.pickupLocation),
          OrElse(invoice.data.dropCity, invoice.data.destination))
  }

  /** The route keys of a list of invoices, in list order. */
  function RouteKeys(invoices: seq<Invoice>): (keys: seq<string>)
    ensures |keys| == |invoices|
    ensures forall i :: 0 <= i < |invoices| ==> keys[i] == RouteKey(invoices[i])
  {
    seq(|invoices|, (i: nat) requires i < |invoices| => RouteKey(invoices[i]))
  }

  /** How often `key` occurs in `keys`. */
  function Count(keys: seq<string>, key: string): nat
  {
    if keys == [] then 0
    else Count(keys[..|keys| - 1], key) + (if keys[|keys| - 1] == key then 1 else 0)
  }

  // ---------------------------------------------------------------------------
  // The most frequent route

  /**
   * The distinct keys in order of first appearance. This is the order in which
   * the counting dictionary lists its entries: a route key always contains a
   * space, so it is never an array-index property name, and such names are
   * listed in insertion order.
   */
  function FirstSeen(keys: seq<string>): seq<string>
  {
    if keys == [] then []
    else
      var d := FirstSeen(keys[..|keys| - 1]);
      var k := keys[|keys| - 1];
      if k in d then d else d + [k]
  }

  /** Every key is listed once, and only keys are listed. */
  lemma {:induction false} FirstSeenMembers(keys: seq<string>)
    ensures forall k :: k in FirstSeen(keys) <==> k in keys
    ensures forall i, j :: 0 <= i < j < |FirstSeen(keys)| ==> FirstSeen(keys)[i] != FirstSeen(keys)[j]
  {
    if keys != [] {
      var init := keys[..|keys| - 1];
      FirstSeenMembers(init);
      assert keys == init + [keys[|keys| - 1]];
    }
  }

  /** The tally of the keys seen so far: each first-seen key with its count. */
  ghost predicate Tallied(seen: seq<string>, order: seq<string>, counts: map<string, nat>)
  {
    && order == FirstSeen(seen)
    && (forall k :: k in counts <==> k in order)
    && (forall k :: k in counts ==> counts[k] == Count(seen, k))
  }
  /** A key that occurs has a positive count. */
  lemma {:induction false} CountPresent(keys: seq<string>, key: string)
    requires key in keys
    ensures Count(keys, key) > 0
  {
    var init := keys[..|keys| - 1];
    if keys[|keys| - 1] != key {
      assert key in init by { assert keys == init + [keys[|keys| - 1]]; }
      CountPresent(init, key);
    }
  }

  /** A key that does not occur has count 0. */
  lemma {:induction false} CountAbsent(keys: seq<string>, key: string)
    requires key !in keys
    ensures Count(keys, key) == 0
  {
    if keys != [] {
      var init := keys[..|keys| - 1];
      assert key !in init by { assert keys == init + [keys[|keys| - 1]]; }
      CountAbsent(init, key);
    }
  }
  /** Counting one more key keeps the tally: a new key is appended, a known one gets one more. */
  lemma TallyStep(seen: seq<string>, route: string, order: seq<string>, counts: map<string, nat>)
    requires Tallied(seen, order, counts)
    ensures Tallied(seen + [route],
                    if route in counts then order else order + [route],
                    counts[route := (if route in counts then counts[route] else 0) + 1])
  {
    var s := seen + [route];
    FirstSeenAppend(seen, route);
    if route !in counts {
      FirstSeenMembers(seen);
      CountAbsent(seen, route);
    }
    var counts' := counts[route := (if route in counts then counts[route] else 0) + 1];
    forall k | k in counts'
      ensures counts'[k] == Count(s, k)
    {
      CountAppend(seen, route, k);
    }
  }

  /** One more key adds one to its own count and leaves the others. */
  lemma CountAppend(seen: seq<string>, route: string, k: string)
    ensures Count(seen + [route], k) == Count(seen, k) + (if k == route then 1 else 0)
  {
    var s := seen + [route];
    assert s[..|s| - 1] == seen;
  }

  /** One more key is listed last when it is new, and changes nothing otherwise. */
  lemma FirstSeenAppend(seen: seq<string>, route: string)
    ensures FirstSeen(seen + [route]) == if route in FirstSeen(seen) then FirstSeen(seen) else FirstSeen(seen) + [route]
  {
    var s := seen + [route];
    assert s[..|s| - 1] == seen;
  }

  /**
   * The scan over the entries: start from `-` with count 0 and take an entry
   * only when its count is strictly greater than the best so far.
   */
  function Best(order: seq<string>, count: string -> nat): (string, nat)
  {
    if order == [] then ("-", 0)
    else
      var (top, max) := Best(order[..|order| - 1], count);
      var route := order[|order| - 1];
      if count(route) > max then (route, count(route)) else (top, max)
  }

  /** The counts of the route keys. */
  function CountIn(keys: seq<string>): string -> nat
  {
    (k: string) => Count(keys, k)
  }

  /** The most frequent route key, `-` when there is none. */
  function TopRoute(keys: seq<string>): string
  {
    Best(FirstSeen(keys), CountIn(keys)).0
  }

  /**
   * Over entries that all occur, the scan ends on an entry `order[p]` of
   * greatest count, and every entry before it has a smaller count.
   */
  lemma {:induction false} BestIsFirstMaximum(order: seq<string>, count: string -> nat) returns (p: nat)
    requires forall i :: 0 <= i < |order| ==> count(order[i]) > 0
    ensures order == [] ==> Best(order, count) == ("-", 0)
    ensures order != [] ==> p < |order| && order[p] == Best(order, count).0 && count(order[p]) == Best(order, count).1
    ensures forall i :: 0 <= i < |order| ==> count(order[i]) <= Best(order, count).1
    ensures forall i :: 0 <= i < p && i < |order| ==> count(order[i]) < Best(order, count).1
  {
    p := 0;
    if order != [] {
      var last := |order| - 1;
      var init := order[..last];
      var q := BestIsFirstMaximum(init, count);
      var (top, max) := Best(init, count);
      if count(order[last]) > max {
        p := last;
        forall i | 0 <= i < last
          ensures count(order[i]) < count(order[last])
        {
          assert init[i] == order[i];
        }
      } else {
        p := q;
        assert init != [];
        assert init[p] == order[p];
        forall i | 0 <= i < |order|
          ensures count(order[i]) <= max
        {
          if i < last {
            assert init[i] == order[i];
          }
        }
        forall i | 0 <= i < p
          ensures count(order[i]) < max
        {
          assert init[i] == order[i];
        }
      }
    }
  }

  /** The keys first seen among the first `n` keys are the first entries of all first-seen keys. */
  lemma {:induction false} FirstSeenPrefix(keys: seq<string>, n: nat)
    requires n <= |keys|
    ensures FirstSeen(keys[..n]) <= FirstSeen(keys)
    decreases |keys|
  {
    if n < |keys| {
      var init := keys[..|keys| - 1];
      assert keys[..n] == init[..n];
      FirstSeenPrefix(init, n);
    } else {
      assert keys[..n] == keys;
    }
  }

  /**
   * The scan over the first-seen keys ends on entry `p`: a key of greatest
   * count, counted more often than every key first seen before it.
   */
  lemma TopRouteScan(keys: seq<string>) returns (p: nat)
    ensures keys == [] ==> TopRoute(keys) == "-"
    ensures keys != [] ==> p < |FirstSeen(keys)| && FirstSeen(keys)[p] == TopRoute(keys)
    ensures forall j :: 0 <= j < |FirstSeen(keys)| ==> Count(keys, FirstSeen(keys)[j]) <= Count(keys, TopRoute(keys))
    ensures forall j :: 0 <= j < p && j < |FirstSeen(keys)| ==> Count(keys, FirstSeen(keys)[j]) < Count(keys, TopRoute(keys))
  {
    var order, count := FirstSeen(keys), CountIn(keys);
    FirstSeenMembers(keys);
    forall i | 0 <= i < |order|
      ensures count(order[i]) > 0
    {
      assert order[i] in keys;
      CountPresent(keys, order[i]);
    }
    p := BestIsFirstMaximum(order, count);
    if keys != [] {
      assert keys[0] in order;
    }
  }

  /** The top route of a non-empty list is one of its keys, and no key occurs more often. */
  lemma TopRouteIsMostFrequent(keys: seq<string>)
    ensures keys == [] ==> TopRoute(keys) == "-"
    ensures keys != [] ==> TopRoute(keys) in keys
    ensures forall k :: k in keys ==> Count(keys, k) <= Count(keys, TopRoute(keys))
  {
    var p := TopRouteScan(keys);
    var order := FirstSeen(keys);
    FirstSeenMembers(keys);
    forall k | k in keys
      ensures Count(keys, k) <= Count(keys, TopRoute(keys))
    {
      var j :| 0 <= j < |order| && order[j] == k;
    }
  }

  /** Among the keys with the greatest count the top route is the one seen first. */
  lemma TopRouteIsFirstSeen(keys: seq<string>)
    ensures forall i :: 0 <= i < |keys| && Count(keys, keys[i]) == Count(keys, TopRoute(keys)) ==>
      TopRoute(keys) in keys[..i + 1]
  {
    var p := TopRouteScan(keys);
    forall i | 0 <= i < |keys| && Count(keys, keys[i]) == Count(keys, TopRoute(keys))
      ensures TopRoute(keys) in keys[..i + 1]
    {
      SeenByFirstTie(keys, p, i);
    }
  }

  /**
   * If `FirstSeen(keys)[p]` beats every key first seen before it, it has been
   * seen by the time any key with the same count is.
   */
  lemma SeenByFirstTie(keys: seq<string>, p: nat, i: nat)
    requires p < |FirstSeen(keys)| && i < |keys|
    requires forall j :: 0 <= j < p ==> Count(keys, FirstSeen(keys)[j]) < Count(keys, FirstSeen(keys)[p])
    requires Count(keys, keys[i]) == Count(keys, FirstSeen(keys)[p])
    ensures FirstSeen(keys)[p] in keys[..i + 1]
  {
    var order := FirstSeen(keys);
    var prefix := FirstSeen(keys[..i + 1]);
    FirstSeenPrefix(keys, i + 1);
    FirstSeenMembers(keys[..i + 1]);
    assert keys[i] in keys[..i + 1];
    var j :| 0 <= j < |prefix| && prefix[j] == keys[i];
    assert order[j] == keys[i];
    assert p <= j;
    assert prefix[p] == order[p];
  }

  // ---------------------------------------------------------------------------
  // The displayed top route

  /** The first position at which `q` occurs in `s`, if any. */
  function FirstIndex(s: string, q: string): (r: Option<nat>)
    ensures r.Some? ==> r.value + |q| <= |s|
    decreases |s|
  {
    if q <= s then Some(0)
    else if s == [] then None
    else
      match FirstIndex(s[1..], q)
      case None => None
      case Some(i) => Some(i + 1)
  }

  /** `FirstIndex` finds the first occurrence, and finds none only when there is none. */
  lemma {:induction false} FirstIndexFinds(s: string, q: string)
    ensures FirstIndex(s, q).Some? ==> OccursAt(s, q, FirstIndex(s, q).value)
    ensures FirstIndex(s, q).Some? ==> forall j :: 0 <= j < FirstIndex(s, q).value ==> !OccursAt(s, q, j)
    ensures FirstIndex(s, q).None? ==> forall j :: 0 <= j <= |s| ==> !OccursAt(s, q, j)
    decreases |s|
  {
    if !(q <= s) && s != [] {
      FirstIndexFinds(s[1..], q);
      OccursInTail(s, q);
    }
  }

  /** An occurrence with none before it is the one `FirstIndex` finds. */
  lemma {:induction false} FirstIndexAt(s: string, q: string, k: nat)
    requires OccursAt(s, q, k)
    requires forall j :: 0 <= j < k ==> !OccursAt(s, q, j)
    ensures FirstIndex(s, q) == Some(k)
    decreases k
  {
    if k == 0 {
      assert q <= s;
    } else {
      assert !OccursAt(s, q, 0);
      assert !(q <= s);
      OccursInTail(s, q);
      assert OccursAt(s[1..], q, k - 1);
      forall j | 0 <= j < k - 1
        ensures !OccursAt(s[1..], q, j)
      {
        assert !OccursAt(s, q, j + 1);
      }
      FirstIndexAt(s[1..], q, k - 1);
    }
  }

  /** An occurrence past the first character is an occurrence in the tail, one position earlier. */
  lemma OccursInTail(s: string, q: string)
    requires s != []
    ensures forall j :: 1 <= j <= |s| ==> (OccursAt(s, q, j) <==> OccursAt(s[1..], q, j - 1))
  {
    forall j | 1 <= j <= |s|
      ensures OccursAt(s, q, j) <==> OccursAt(s[1..], q, j - 1)
    {
      if j <= |s| - |q| {
        assert s[1..][j - 1..j - 1 + |q|] == s[j..j + |q|];
      }
    }
  }

  /**
   * `route.split(Separator)[1]`: the text after the first separator, up to the
   * next separator or the end; `None` when the separator does not occur.
   */
  function SecondPiece(route: string): Option<string>
  {
    match FirstIndex(route, Separator)
    case None => None
    case Some(i) =>
      var rest := route[i + |Separator|..];
      match FirstIndex(rest, Separator)
      case None => Some(rest)
      case Some(j) => Some(rest[..j])
  }

  /** The shown top route: the trimmed second piece of the key, or the whole key when that is missing or blank. */
  function Display(route: string): string
  {
    match SecondPiece(route)
    case None => route
    case Some(piece) => if Trim(piece) == "" then route else Trim(piece)
  }

  /** No character of the separator is white space. */
  lemma SeparatorHasNoSpace()
    ensures forall i :: 0 <= i < |Separator| ==> !IsSpace(Separator[i])
  {
  }

  /**
   * For a route whose ends do not contain the separator, the display is the
   * trimmed drop end, or the whole key when the drop end is blank.
   */
  lemma DisplayShowsDrop(from: string, to: string)
    requires !Contains(from, Separator) && !Contains(to, Separator)
    ensures Display(Route(from, to)) == if Trim(to) == "" then Route(from, to) else Trim(to)
  {
    SecondPieceOfRoute(from, to);
    TrimSkipsLeadingSpace(' ', to);
  }

  /** The second piece of such a route key is the drop end behind its leading space. */
  lemma SecondPieceOfRoute(from: string, to: string)
    requires !Contains(from, Separator) && !Contains(to, Separator)
    ensures SecondPiece(Route(from, to)) == Some([' '] + to)
  {
    FirstSeparator(from, to);
    AfterSeparator(from, to);
    NoSeparatorAfterSpace(to);
  }

  /** Behind the joining separator of a route key come a space and the drop end. */
  lemma AfterSeparator(from: string, to: string)
    ensures Route(from, to)[|from| + 1 + |Separator|..] == [' '] + to
  {
    var key := Route(from, to);
    assert key == (from + " " + Separator) + ([' '] + to);
  }

  /** In a route key whose pickup end lacks the separator, the first separator is the joining one. */
  lemma FirstSeparator(from: string, to: string)
    requires !Contains(from, Separator)
    ensures FirstIndex(Route(from, to), Separator) == Some(|from| + 1)
  {
    SeparatorAfterPickup(from, to);
    NoSeparatorBefore(from, to);
    FirstIndexAt(Route(from, to), Separator, |from| + 1);
  }

  /** The joining separator of a route key starts right after the pickup end and its space. */
  lemma SeparatorAfterPickup(from: string, to: string)
    ensures OccursAt(Route(from, to), Separator, |from| + 1)
  {
    var key := Route(from, to);
    assert key[|from| + 1..|from| + 4] == Separator;
  }

  /** No separator of a route key starts inside its pickup end or at the space after it. */
  lemma NoSeparatorBefore(from: string, to: string)
    requires !Contains(from, Separator)
    ensures forall j :: 0 <= j <= |from| ==> !OccursAt(Route(from, to), Separator, j)
  {
    var key := Route(from, to);
    var n := |from|;
    ContainsIff(from, Separator);
    SeparatorHasNoSpace();
    assert key[n] == ' ';
    forall j | 0 <= j <= n
      ensures !OccursAt(key, Separator, j)
    {
      if j + 3 <= n {
        assert key[j..j + 3] == from[j..j + 3];
        assert !OccursAt(from, Separator, j);
      } else if j + 3 <= |key| {
        assert key[j..j + 3][n - j] == ' ';
      }
    }
  }

  /** A space followed by a drop end without the separator holds no separator. */
  lemma NoSeparatorAfterSpace(to: string)
    requires !Contains(to, Separator)
    ensures FirstIndex([' '] + to, Separator) == None
  {
    var rest := [' '] + to;
    ContainsIff(to, Separator);
    SeparatorHasNoSpace();
    forall j | 0 <= j <= |rest|
      ensures !OccursAt(rest, Separator, j)
    {
      if j + 3 <= |rest| {
        if j == 0 {
          assert rest[j..j + 3][0] == ' ';
        } else {
          assert rest[j..j + 3] == to[j - 1..j + 2];
          assert !OccursAt(to, Separator, j - 1);
        }
      }
    }
    FirstIndexFinds(rest, Separator);
  }

  /** With no invoices the top route shows `-`. */
  lemma NoInvoicesShowDash()
    ensures Display(TopRoute(RouteKeys([]))) == "-"
  {
    assert RouteKeys([]) == [];
    assert FirstIndex("-", Separator) == None;
  }

  /** Of two different keys, the one counted twice wins over the one counted once. */
  lemma TwiceBeatsOnce(x: string, y: string)
    requires x != y
    ensures TopRoute([x, x, y]) == x
  {
    var keys := [x, x, y];
    var one: seq<string> := [x];
    assert keys[..2][..1] == one && keys[..2] == [x, x] && one[..0] == [];
    assert FirstSeen(one) == one;
    assert FirstSeen(keys[..2]) == one;
    assert FirstSeen(keys) == [x, y];
    assert Count(one, x) == 1 && Count(one, y) == 0;
    assert Count(keys[..2], x) == 2 && Count(keys[..2], y) == 0;
    assert Count(keys, x) == 2 && Count(keys, y) == 1;
    assert [x, y][..1] == one;
    assert CountIn(keys)(x) == 2 && CountIn(keys)(y) == 1;
    assert Best(one, CountIn(keys)) == (x, 2);
  }

  /** Routes A to B, A to B and A to C: the panel shows `B`. */
  lemma TopRouteExample()
    ensures Display(TopRoute([Route("A", "B"), Route("A", "B"), Route("A", "C")])) == "B"
  {
    var ab, ac := Route("A", "B"), Route("A", "C");
    assert ab[|ab| - 1] != ac[|ac| - 1];
    TwiceBeatsOnce(ab, ac);
    ContainsIff("A", Separator);
    ContainsIff("B", Separator);
    DisplayShowsDrop("A", "B");
    TrimKeepsWord("B");
  }

  // ---------------------------------------------------------------------------
  // The statistics

  /** What the panel shows for a list of invoices in the given current month. */
  function StatsOf(data: seq<Invoice>, now: YearMonth, dateOf: string -> CalendarMonth): Stats
  {
    Stats(TotalRevenue(data), CurrentMonthRevenue(data, now, dateOf), |data|, Display(TopRoute(RouteKeys(data))))
  }

  /** The keys of a longer prefix add the next invoice's key. */
  lemma KeysStep(data: seq<Invoice>, i: nat)
    requires i < |data|
    ensures RouteKeys(data)[..i + 1] == RouteKeys(data)[..i] + [RouteKey(data[i])]
  {
  }

  /** Both revenues of a longer prefix add the next invoice's amount, the month's only when it is dated in the month. */
  lemma RevenueStep(data: seq<Invoice>, i: nat, now: YearMonth, dateOf: string -> CalendarMonth)
    requires i < |data|
    ensures TotalRevenue(data[..i + 1]) == TotalRevenue(data[..i]) + data[i].data.totalAmount
    ensures CurrentMonthRevenue(data[..i + 1], now, dateOf) == CurrentMonthRevenue(data[..i], now, dateOf)
      + (if InMonth(dateOf(data[i].data.invoiceDate), now) then data[i].data.totalAmount else 0)
  {
    assert data[..i + 1][..i] == data[..i];
  }

  /** `routeCounts[route] = (routeCounts[route] || 0) + 1`: one more occurrence of `route`, a new key going last. */
  method CountRoute(ghost seen: seq<string>, order: seq<string>, routeCounts: map<string, nat>, route: string)
    returns (order': seq<string>, routeCounts': map<string, nat>)
    requires Tallied(seen, order, routeCounts)
    ensures Tallied(seen + [route], order', routeCounts')
  {
    TallyStep(seen, route, order, routeCounts);
    var previous := if route in routeCounts then routeCounts[route] else 0;
    order' := if route in routeCounts then order else order + [route];
    routeCounts' := routeCounts[route := previous + 1];
  }

  /** The body of the first pass of `calculateStats`: add invoice `i` to both revenues and to the route counts. */
  method ScanOne(data: seq<Invoice>, i: nat, now: YearMonth, dateOf: string -> CalendarMonth, keys: seq<string>,
                 totalRev: nat, monthRev: nat, order: seq<string>, routeCounts: map<string, nat>)
    returns (totalRev': nat, monthRev': nat, order': seq<string>, routeCounts': map<string, nat>)
    requires i < |data| && keys == RouteKeys(data)
    requires totalRev == TotalRevenue(data[..i])
    requires monthRev == CurrentMonthRevenue(data[..i], now, dateOf)
    requires Tallied(keys[..i], order, routeCounts)
    ensures totalRev' == TotalRevenue(data[..i + 1])
    ensures monthRev' == CurrentMonthRevenue(data[..i + 1], now, dateOf)
    ensures Tallied(keys[..i + 1], order', routeCounts')
  {
    var amount := data[i].data.totalAmount;
    RevenueStep(data, i, now, dateOf);
    totalRev' := totalRev + amount;
    monthRev' := monthRev;
    if InMonth(dateOf(data[i].data.invoiceDate), now) {
      monthRev' := monthRev + amount;
    }
    KeysStep(data, i);
    order', routeCounts' := CountRoute(keys[..i], order, routeCounts, RouteKey(data[i]));
  }

  /**
   * `calculateStats`: one pass summing the revenue, the month's revenue and the
   * count of each route key, then one pass over the counted keys picking the
   * most frequent.
   */
  method CalculateStats(data: seq<Invoice>, now: YearMonth, dateOf: string -> CalendarMonth) returns (stats: Stats)
    ensures stats == StatsOf(data, now, dateOf)
  {
    var keys := RouteKeys(data);
    var totalRev, monthRev := 0, 0;
    var routeCounts: map<string, nat> := map[];
    var order: seq<string> := [];   // the dictionary's keys in insertion order
    var i := 0;
    while i < |data|
      invariant 0 <= i <= |data|
      invariant totalRev == TotalRevenue(data[..i])
      invariant monthRev == CurrentMonthRevenue(data[..i], now, dateOf)
      invariant Tallied(keys[..i], order, routeCounts)
    {
      totalRev, monthRev, order, routeCounts := ScanOne(data, i, now, dateOf, keys, totalRev, monthRev, order, routeCounts);
      i := i + 1;
    }
    assert data[..i] == data && keys[..i] == keys;
    var topRoute := MostFrequent(order, routeCounts, CountIn(keys));
    stats := Stats(totalRev, monthRev, |data|, Display(topRoute));
  }

  /**
   * The second pass of `calculateStats`: over the counted keys in insertion
   * order, keep the first key whose count beats every earlier one.
   */
  method MostFrequent(order: seq<string>, routeCounts: map<string, nat>, ghost count: string -> nat)
    returns (topRoute: string)
    requires forall k :: k in order ==> k in routeCounts && routeCounts[k] == count(k)
    ensures topRoute == Best(order, count).0
  {
    topRoute := "-";
    var maxCount := 0;
    var j := 0;
    while j < |order|
      invariant 0 <= j <= |order|
      invariant (topRoute, maxCount) == Best(order[..j], count)
    {
      var route := order[j];
      assert order[..j + 1][..j] == order[..j];
      if routeCounts[route] > maxCount {
        maxCount := routeCounts[route];
        topRoute := route;
      }
      j := j + 1;
    }
    assert order[..j] == order;
  }

  /** The month's revenue is at most the total, and an empty list shows `-`. */
  lemma StatsBounds(data: seq<Invoice>, now: YearMonth, dateOf: string -> CalendarMonth)
    ensures StatsOf(data, now, dateOf).monthlyRevenue <= StatsOf(data, now, dateOf).totalRevenue
    ensures StatsOf(data, now, dateOf).totalTrips == |data|
    ensures data == [] ==> StatsOf(data, now, dateOf) == Stats(0, 0, 0, "-")
  {
    MonthWithinTotal(data, now, dateOf);
    if data == [] {
      NoInvoicesShowDash();
    }
  }

  // ---------------------------------------------------------------------------
  // Search

  /** An invoice matches a lower-cased query by its number, lower-cased name or phone. */
  predicate Matches(invoice: Invoice, query: string)
  {
    || (invoice.invoiceNumber.Some? && Contains(Decimal(invoice.invoiceNumber.value), query))
    || Contains(ToLower(invoice.data.customerName), query)
    || Contains(invoice.data.customerPhone, query)
  }

  function Matching(query: string): Invoice -> bool
  {
    (invoice: Invoice) => Matches(invoice, query)
  }

  /** The search effect: every invoice for a blank query, else those matching the lower-cased, untrimmed query. */
  function Search(invoices: seq<Invoice>, searchQuery: string): seq<Invoice>
  {
    if Trim(searchQuery) == "" then invoices else Filter(invoices, Matching(ToLower(searchQuery)))
  }

  /**
   * The search keeps the list order; a blank query keeps everything, and
   * otherwise an invoice is kept exactly when it matches.
   */
  lemma SearchSelects(invoices: seq<Invoice>, searchQuery: string)
    ensures IsSubsequence(Search(invoices, searchQuery), invoices)
    ensures AllSpace(searchQuery) ==> Search(invoices, searchQuery) == invoices
    ensures !AllSpace(searchQuery) ==> forall i :: 0 <= i < |invoices| ==>
      (invoices[i] in Search(invoices, searchQuery) <==> Matches(invoices[i], ToLower(searchQuery)))
    ensures !AllSpace(searchQuery) ==> forall x :: Matches(x, ToLower(searchQuery)) ==>
      multiset(Search(invoices, searchQuery))[x] == multiset(invoices)[x]
  {
    TrimEmptyIff(searchQuery);
    if Trim(searchQuery) == "" {
      SubsequenceOfItself(invoices);
    } else {
      var p := Matching(ToLower(searchQuery));
      FilterIsSubsequence(invoices, p);
      FilterMembers(invoices, p);
      FilterSatisfies(invoices, p);
      var r := Filter(invoices, p);
      forall i | 0 <= i < |invoices| && invoices[i] in r
        ensures Matches(invoices[i], ToLower(searchQuery))
      {
        var k :| 0 <= k < |r| && r[k] == invoices[i];
      }
      forall x | Matches(x, ToLower(searchQuery))
        ensures multiset(r)[x] == multiset(invoices)[x]
      {
        FilterKeepsCopies(invoices, p, x);
      }
    }
  }

  /**
   * The query is not trimmed: for invoice 7 with no name and no phone, `7` finds
   * it and ` 7` does not.
   */
  lemma QueryNotTrimmed(invoice: Invoice)
    requires invoice.invoiceNumber == Some(7)
    requires invoice.data.customerName == "" && invoice.data.customerPhone == ""
    ensures Search([invoice], "7") == [invoice]
    ensures Search([invoice], " 7") == []
  {
    assert !IsSpace("7"[0]) && !IsSpace(" 7"[1]);
    LowerKeepsNonLetters("7");
    LowerKeepsNonLetters(" 7");
    NumberQueryMatches(invoice);
    SpacedQueryMisses(invoice);
    SearchOne(invoice, "7");
    SearchOne(invoice, " 7");
  }

  /** Searching a one-invoice list with a non-blank query. */
  lemma SearchOne(invoice: Invoice, searchQuery: string)
    requires !AllSpace(searchQuery)
    ensures Search([invoice], searchQuery) == if Matches(invoice, ToLower(searchQuery)) then [invoice] else []
  {
    TrimEmptyIff(searchQuery);
    assert [invoice][1..] == [];
  }

  /** Invoice 7 is found by the query `7`. */
  lemma NumberQueryMatches(invoice: Invoice)
    requires invoice.invoiceNumber == Some(7)
    ensures Matches(invoice, "7")
  {
    assert Decimal(7) == "7";
    assert "7" <= "7";
  }

  /** Invoice 7, with no name and no phone, does not contain ` 7`. */
  lemma SpacedQueryMisses(invoice: Invoice)
    requires invoice.invoiceNumber == Some(7)
    requires invoice.data.customerName == "" && invoice.data.customerPhone == ""
    ensures !Matches(invoice, " 7")
  {
    assert Decimal(7) == "7";
    assert !Contains("7", " 7") by {
      assert "7"[1..] == "";
    }
    assert ToLower("") == "";
  }

  // ---------------------------------------------------------------------------
  // Deleting

  function Other(id: Option<string>): Invoice -> bool
  {
    (invoice: Invoice) => invoice.id != id
  }

  /** `list.filter(i => i.id !== id)`. */
  function RemoveById(invoices: seq<Invoice>, id: Option<string>): seq<Invoice>
  {
    Filter(invoices, Other(id))
  }

  /** Removal drops exactly the invoices with that id and keeps the rest in order. */
  lemma RemoveByIdExact(invoices: seq<Invoice>, id: Option<string>)
    ensures IsSubsequence(RemoveById(invoices, id), invoices)
    ensures forall x :: x in RemoveById(invoices, id) ==> x in invoices && x.id != id
    ensures forall i :: 0 <= i < |invoices| && invoices[i].id != id ==> invoices[i] in RemoveById(invoices, id)
    ensures forall x: Invoice :: x.id != id ==> multiset(RemoveById(invoices, id))[x] == multiset(invoices)[x]
  {
    forall x: Invoice | x.id != id
      ensures multiset(RemoveById(invoices, id))[x] == multiset(invoices)[x]
    {
      FilterKeepsCopies(invoices, Other(id), x);
    }
    FilterIsSubsequence(invoices, Other(id));
    FilterMembers(invoices, Other(id));
    var r := RemoveById(invoices, id);
    forall x | x in r
      ensures x in invoices && x.id != id
    {
      var k :| 0 <= k < |r| && r[k] == x;
    }
  }

  /** Removing from the searched list gives the search of the shortened list. */
  lemma SearchAfterRemove(invoices: seq<Invoice>, searchQuery: string, id: Option<string>)
    ensures RemoveById(Search(invoices, searchQuery), id) == Search(RemoveById(invoices, id), searchQuery)
  {
    if Trim(searchQuery) != "" {
      FilterCommutes(invoices, Matching(ToLower(searchQuery)), Other(id));
    }
  }

  /** Removing an invoice from the shown search results gives the search of the list without it. */
  lemma RemoveFromShown(invoices: seq<Invoice>, shown: seq<Invoice>, searchQuery: string, id: Option<string>)
    requires shown == Search(invoices, searchQuery)
    ensures RemoveById(shown, id) == Search(RemoveById(invoices, id), searchQuery)
  {
    SearchAfterRemove(invoices, searchQuery, id);
  }

  /** The state of the history page. */
  class History {
    var invoices: seq<Invoice>
    var filtered: seq<Invoice>
    var query: string
    var stats: Stats

    /** The shown list is the search of the loaded list. */
    predicate Valid()
      reads this
    {
      filtered == Search(invoices, query)
    }

    /** The page before anything is loaded. */
    constructor()
      ensures invoices == [] && filtered == [] && query == "" && stats == Stats(0, 0, 0, "-")
      ensures Valid()
    {
      invoices, filtered, query := [], [], "";
      stats := Stats(0, 0, 0, "-");
    }

    /** The search effect, run whenever the query or the list changes. */
    method Refilter()
      modifies this
      ensures invoices == old(invoices) && query == old(query) && stats == old(stats)
      ensures filtered == Search(invoices, query)
    {
      filtered := Search(invoices, query);
    }

    /** Typing in the search box. */
    method SetQuery(q: string)
      modifies this
      ensures invoices == old(invoices) && stats == old(stats) && query == q
      ensures Valid()
    {
      query := q;
      Refilter();
    }

    /** `fetchInvoices` after the store answered with `data`: list, shown list and statistics replaced. */
    method Loaded(data: seq<Invoice>, now: YearMonth, dateOf: string -> CalendarMonth)
      modifies this
      ensures invoices == data && query == old(query)
      ensures stats == StatsOf(data, now, dateOf)
      ensures Valid()
    {
      invoices := data;
      filtered := data;
      stats := CalculateStats(data, now, dateOf);
      Refilter();
    }

    /** After a confirmed deletion: the invoices with that id leave both lists and the statistics are recomputed. */
    method Remove(id: Option<string>, now: YearMonth, dateOf: string -> CalendarMonth)
      requires Valid()
      modifies this
      ensures invoices == RemoveById(old(invoices), id)
      ensures filtered == RemoveById(old(filtered), id)
      ensures query == old(query)
      ensures stats == StatsOf(invoices, now, dateOf)
      ensures Valid()
    {
      // The search effect then re-runs on the new list; by `RemoveFromShown` it
      // shows the list that was just set, which is what `Valid` records.
      RemoveFromShown(invoices, filtered, query, id);
      invoices := RemoveById(invoices, id);
      filtered := RemoveById(filtered, id);
      Recount(now, dateOf);
    }

    /** `calculateStats` on the current list. */
    method Recount(now: YearMonth, dateOf: string -> CalendarMonth)
      modifies this
      ensures invoices == old(invoices) && filtered == old(filtered) && query == old(query)
      ensures stats == StatsOf(invoices, now, dateOf)
    {
      stats := CalculateStats(invoices, now, dateOf);
    }

    /**
     * `handleDelete`: nothing changes unless the user confirmed and the store
     * deleted the invoice; then every invoice with that id leaves both lists
     * and the statistics are recomputed. A store error is reported.
     */
    method Delete(target: Invoice, confirmed: bool, storeDeleted: bool, now: YearMonth, dateOf: string -> CalendarMonth)
      returns (reported: bool)
      requires Valid()
      modifies this
      ensures reported <==> confirmed && !storeDeleted
      ensures !(confirmed && storeDeleted) ==>
        invoices == old(invoices) && filtered == old(filtered) && query == old(query) && stats == old(stats)
      ensures confirmed && storeDeleted ==>
        && invoices == RemoveById(old(invoices), target.id)
        && filtered == RemoveById(old(filtered), target.id)
        && query == old(query)
        && stats == StatsOf(invoices, now, dateOf)
      ensures Valid()
    {
      if !confirmed {
        return false;
      }
      if !storeDeleted {
        return true;
      }
      Remove(target.id, now, dateOf);
      reported := false;
    }
  }
}
