/**
 * The dashboard (src/dashboard-main.js): revenue per currency this month, this year and on
 * average, the stacked currency display, the five most recent invoices and the six-month
 * revenue chart. A JavaScript object used as a dictionary is a sequence of (key, value)
 * entries in insertion order.
 */
module Dashboard {
  import opened Wrappers
  import opened Strings
  import opened Records
  import opened Render
  import opened Html
  import opened Sorting

  // ---------------------------------------------------------------------------
  // Revenue per currency
  // ---------------------------------------------------------------------------

  /** The invoice's currency, "USD" when it has none. */
  function CurrencyOf(inv: StoredInvoice): string
  {
    if inv.record.meta.currency == "" then "USD" else inv.record.meta.currency
  }

  /** The total of an invoice, a missing one being 0. */
  function TotalOf(inv: StoredInvoice): real
  {
    inv.record.totals.total
  }

  /** What the invoices in currency `c` add up to. */
  function CurrencyTotal(list: seq<StoredInvoice>, c: string): real
  {
    if list == [] then 0.0
    else CurrencyTotal(list[..|list| - 1], c) + (if CurrencyOf(list[|list| - 1]) == c then TotalOf(list[|list| - 1]) else 0.0)
  }

  /** How many invoices are in currency `c`. */
  function CurrencyCount(list: seq<StoredInvoice>, c: string): nat
  {
    if list == [] then 0
    else CurrencyCount(list[..|list| - 1], c) + (if CurrencyOf(list[|list| - 1]) == c then 1 else 0)
  }

  /** The currencies the invoices use. */
  function CurrenciesIn(list: seq<StoredInvoice>): set<string>
  {
    if list == [] then {} else CurrenciesIn(list[..|list| - 1]) + {CurrencyOf(list[|list| - 1])}
  }

  /** What all the invoices add up to. */
  function ListTotal(list: seq<StoredInvoice>): real
  {
    if list == [] then 0.0 else ListTotal(list[..|list| - 1]) + TotalOf(list[|list| - 1])
  }

  /** The keys of a dictionary, in insertion order. */
  function CodesOf(entries: seq<(string, real)>): (codes: seq<string>)
    ensures |codes| == |entries| && forall k :: 0 <= k < |entries| ==> codes[k] == entries[k].0
  {
    if entries == [] then []
    else
      var init := entries[..|entries| - 1];
      assert forall i :: 0 <= i < |init| ==> init[i] == entries[i];
      CodesOf(init) + [entries[|entries| - 1].0]
  }

  function SumValues(entries: seq<(string, real)>): real
  {
    if entries == [] then 0.0 else SumValues(entries[..|entries| - 1]) + entries[|entries| - 1].1
  }

  /** Where `key` sits among the keys, if anywhere. */
  function IndexOf(keys: seq<string>, key: string): (r: Option<nat>)
    ensures r.Some? ==> r.value < |keys| && keys[r.value] == key
    ensures r.None? ==> key !in keys
  {
    if keys == [] then None
    else if keys[|keys| - 1] == key then Some(|keys| - 1)
    else IndexOf(keys[..|keys| - 1], key)
  }

  /** A dictionary of the currency totals of `list`: one entry per currency used, each with its total. */
  ghost predicate CurrencyBuckets(entries: seq<(string, real)>, list: seq<StoredInvoice>)
  {
    Distinct(CodesOf(entries))
    && (forall c :: c in CodesOf(entries) <==> c in CurrenciesIn(list))
    && forall k :: 0 <= k < |entries| ==> entries[k].1 == CurrencyTotal(list, entries[k].0)
  }

  /** The currencies the invoices use, each once, in the order of their first invoice. */
  function FirstSeen(list: seq<StoredInvoice>): seq<string>
  {
    if list == [] then []
    else
      var seen := FirstSeen(list[..|list| - 1]);
      var c := CurrencyOf(list[|list| - 1]);
      if c in seen then seen else seen + [c]
  }

  /**
   * `sumByCurrency`: one bucket per currency, in the order the currencies first appear (the
   * insertion order of the object's keys).
   */
  method SumByCurrency(list: seq<StoredInvoice>) returns (totals: seq<(string, real)>)
    ensures CurrencyBuckets(totals, list) && CodesOf(totals) == FirstSeen(list)
  {
    totals := [];
    var i := 0;
    while i < |list|
      invariant 0 <= i <= |list|
      invariant CurrencyBuckets(totals, list[..i]) && CodesOf(totals) == FirstSeen(list[..i])
    {
      totals := AddToTotals(totals, list, i);
      i := i + 1;
    }
    assert list[..i] == list;
  }

  /** One step of `sumByCurrency`: the invoice's total added to its currency's bucket, opened at zero if new. */
  method AddToTotals(totals: seq<(string, real)>, list: seq<StoredInvoice>, i: nat)
    returns (next: seq<(string, real)>)
    requires i < |list| && CurrencyBuckets(totals, list[..i]) && CodesOf(totals) == FirstSeen(list[..i])
    ensures CurrencyBuckets(next, list[..i + 1]) && CodesOf(next) == FirstSeen(list[..i + 1])
  {
    var done, inv := list[..i], list[i];
    assert list[..i + 1] == done + [inv];
    assert (done + [inv])[..i] == done;
    var c := CurrencyOf(inv);
    var found := IndexOf(CodesOf(totals), c);
    if found.Some? {
      var j := found.value;
      BucketsExisting(totals, done, inv, j);
      next := totals[j := (c, totals[j].1 + TotalOf(inv))];
      assert CodesOf(next) == CodesOf(totals);
    } else {
      BucketsNew(totals, done, inv);
      next := totals + [(c, TotalOf(inv))];
      assert CodesOf(next) == CodesOf(totals) + [c];
    }
  }

  lemma Snoc(l: seq<StoredInvoice>, x: StoredInvoice, c: string)
    ensures CurrencyTotal(l + [x], c) == CurrencyTotal(l, c) + (if CurrencyOf(x) == c then TotalOf(x) else 0.0)
    ensures CurrencyCount(l + [x], c) == CurrencyCount(l, c) + (if CurrencyOf(x) == c then 1 else 0)
    ensures CurrenciesIn(l + [x]) == CurrenciesIn(l) + {CurrencyOf(x)}
    ensures ListTotal(l + [x]) == ListTotal(l) + TotalOf(x)
  {
    assert (l + [x])[..|l|] == l;
  }

  /** An invoice in a currency that has a bucket adds its total to that bucket. */
  lemma BucketsExisting(totals: seq<(string, real)>, l: seq<StoredInvoice>, x: StoredInvoice, j: nat)
    requires CurrencyBuckets(totals, l) && j < |totals| && totals[j].0 == CurrencyOf(x)
    ensures CurrencyBuckets(totals[j := (CurrencyOf(x), totals[j].1 + TotalOf(x))], l + [x])
  {
    var r, l' := totals[j := (CurrencyOf(x), totals[j].1 + TotalOf(x))], l + [x];
    assert CodesOf(r) == CodesOf(totals);
    Snoc(l, x, CurrencyOf(x));
    assert CurrenciesIn(l') == CurrenciesIn(l) by {
      assert CurrencyOf(x) == CodesOf(totals)[j];
    }
    forall k | 0 <= k < |r|
      ensures r[k].1 == CurrencyTotal(l', r[k].0)
    {
      Snoc(l, x, r[k].0);
    }
  }

  /** An invoice in a new currency opens a bucket for it, after the others. */
  lemma BucketsNew(totals: seq<(string, real)>, l: seq<StoredInvoice>, x: StoredInvoice)
    requires CurrencyBuckets(totals, l) && CurrencyOf(x) !in CodesOf(totals)
    ensures CurrencyBuckets(totals + [(CurrencyOf(x), TotalOf(x))], l + [x])
  {
    var r := totals + [(CurrencyOf(x), TotalOf(x))];
    assert CodesOf(r) == CodesOf(totals) + [CurrencyOf(x)];
    assert CurrencyOf(x) !in CurrenciesIn(l);
    forall c
      ensures CurrencyTotal(l + [x], c) == CurrencyTotal(l, c) + (if CurrencyOf(x) == c then TotalOf(x) else 0.0)
      ensures CurrenciesIn(l + [x]) == CurrenciesIn(l) + {CurrencyOf(x)}
    {
      Snoc(l, x, c);
    }
    UsedCurrencyTotal(l, CurrencyOf(x));
  }

  /** A currency nobody uses totals 0. */
  lemma {:induction false} UsedCurrencyTotal(l: seq<StoredInvoice>, c: string)
    requires c !in CurrenciesIn(l)
    ensures CurrencyTotal(l, c) == 0.0
  {
    if l != [] {
      UsedCurrencyTotal(l[..|l| - 1], c);
    }
  }

  /** Adding one invoice to the list adds its total to the one bucket of its currency. */
  lemma {:induction false} CodesSumStep(l: seq<StoredInvoice>, x: StoredInvoice, codes: seq<string>)
    requires Distinct(codes)
    ensures CodesSum(l + [x], codes) == CodesSum(l, codes) + (if CurrencyOf(x) in codes then TotalOf(x) else 0.0)
  {
    if codes != [] {
      var cs := codes[..|codes| - 1];
      assert Distinct(cs);
      assert (l + [x])[..|l + [x]| - 1] == l;
      CodesSumStep(l, x, cs);
      assert codes == cs + [codes[|codes| - 1]];
    }
  }

  /** The totals of the currencies `codes`, added up. */
  function CodesSum(list: seq<StoredInvoice>, codes: seq<string>): real
  {
    if codes == [] then 0.0 else CodesSum(list, codes[..|codes| - 1]) + CurrencyTotal(list, codes[|codes| - 1])
  }

  lemma {:induction false} CodesSumAll(list: seq<StoredInvoice>, codes: seq<string>)
    requires Distinct(codes) && forall c :: c in CurrenciesIn(list) ==> c in codes
    ensures CodesSum(list, codes) == ListTotal(list)
  {
    if list == [] {
      CodesSumZero(codes);
    } else {
      var l := list[..|list| - 1];
      assert list == l + [list[|list| - 1]];
      CodesSumAll(l, codes);
      CodesSumStep(l, list[|list| - 1], codes);
    }
  }

  lemma {:induction false} CodesSumZero(codes: seq<string>)
    ensures CodesSum([], codes) == 0.0
  {
    if codes != [] {
      CodesSumZero(codes[..|codes| - 1]);
    }
  }

  lemma {:induction false} SumValuesCodes(entries: seq<(string, real)>, list: seq<StoredInvoice>)
    requires forall k :: 0 <= k < |entries| ==> entries[k].1 == CurrencyTotal(list, entries[k].0)
    ensures SumValues(entries) == CodesSum(list, CodesOf(entries))
  {
    if entries != [] {
      var init := entries[..|entries| - 1];
      SumValuesCodes(init, list);
      assert CodesOf(entries)[..|entries| - 1] == CodesOf(init);
    }
  }

  /** The buckets add up to what the whole list adds up to. */
  lemma BucketsAddUp(entries: seq<(string, real)>, list: seq<StoredInvoice>)
    requires CurrencyBuckets(entries, list)
    ensures SumValues(entries) == ListTotal(list)
  {
    SumValuesCodes(entries, list);
    CodesSumAll(list, CodesOf(entries));
  }

  /** A currency in use has at least one invoice. */
  lemma {:induction false} UsedCurrencyCounted(list: seq<StoredInvoice>, c: string)
    ensures c in CurrenciesIn(list) <==> CurrencyCount(list, c) > 0
  {
    if list != [] {
      UsedCurrencyCounted(list[..|list| - 1], c);
    }
  }

  /** `avgInvoice`: for each bucket whose currency has invoices, its total over their number. */
  function Averages(entries: seq<(string, real)>, list: seq<StoredInvoice>): seq<(string, real)>
  {
    if entries == [] then []
    else
      var e := entries[|entries| - 1];
      var count := CurrencyCount(list, e.0);
      Averages(entries[..|entries| - 1], list) + (if count > 0 then [(e.0, e.1 / count as real)] else [])
  }

  /**
   * Every currency with revenue gets an average and no other does: the average times the number
   * of invoices in the currency is the currency's total.
   */
  lemma {:induction false} AveragesOfBuckets(entries: seq<(string, real)>, list: seq<StoredInvoice>)
    requires forall c :: c in CodesOf(entries) ==> c in CurrenciesIn(list)
    ensures var avg := Averages(entries, list);
            |avg| == |entries|
            && forall k :: 0 <= k < |avg| ==>
                 avg[k].0 == entries[k].0 && IsAverage(avg[k].1, entries[k].1, CurrencyCount(list, avg[k].0))
  {
    if entries != [] {
      var init := entries[..|entries| - 1];
      var e := entries[|entries| - 1];
      assert CodesOf(entries)[..|init|] == CodesOf(init);
      assert e.0 == CodesOf(entries)[|init|];
      UsedCurrencyCounted(list, e.0);
      AveragesOfBuckets(init, list);
      var count := CurrencyCount(list, e.0);
      var a := Averages(init, list);
      var avg := a + [(e.0, e.1 / count as real)];
      assert Averages(entries, list) == avg;
      DivTimes(e.1, count);
      forall k | 0 <= k < |avg|
        ensures avg[k].0 == entries[k].0 && IsAverage(avg[k].1, entries[k].1, CurrencyCount(list, avg[k].0))
      {
        if k < |a| {
          assert avg[k] == a[k] && entries[k] == init[k];
        }
      }
    }
  }

  /** `avg` is the mean of `n` values adding up to `total`. */
  predicate IsAverage(avg: real, total: real, n: nat)
  {
    n > 0 && avg * n as real == total
  }

  lemma DivTimes(a: real, n: nat)
    requires n > 0
    ensures IsAverage(a / n as real, a, n)
  {
  }

  // ---------------------------------------------------------------------------
  // The statistics
  // ---------------------------------------------------------------------------

  /** The invoices created in a month of a year. */
  function InMonth(list: seq<StoredInvoice>, year: int, month: MonthIndex): (r: seq<StoredInvoice>)
  {
    if list == [] then []
    else
      var x := list[|list| - 1];
      InMonth(list[..|list| - 1], year, month) + (if x.created.year == year && x.created.month == month then [x] else [])
  }

  /** The invoices created in a year. */
  function InYear(list: seq<StoredInvoice>, year: int): (r: seq<StoredInvoice>)
  {
    if list == [] then []
    else
      var x := list[|list| - 1];
      InYear(list[..|list| - 1], year) + (if x.created.year == year then [x] else [])
  }

  /** This month's invoices are this year's invoices of this month: a sub-list of this year's. */
  lemma {:induction false} MonthWithinYear(list: seq<StoredInvoice>, year: int, month: MonthIndex)
    ensures InMonth(list, year, month) == InMonth(InYear(list, year), year, month)
    ensures |InMonth(list, year, month)| <= |InYear(list, year)|
  {
    if list != [] {
      var init := list[..|list| - 1];
      var x := list[|list| - 1];
      MonthWithinYear(init, year, month);
      var y := InYear(init, year);
      var m := if x.created.year == year && x.created.month == month then [x] else [];
      assert InMonth(list, year, month) == InMonth(init, year, month) + m;
      if x.created.year == year {
        assert InYear(list, year) == y + [x];
        assert (y + [x])[..|y|] == y;
        assert InMonth(y + [x], year, month) == InMonth(y, year, month) + m;
      } else {
        assert InYear(list, year) == y;
      }
    }
  }

  datatype Stats = Stats(
    monthlyRevenue: seq<(string, real)>, yearlyRevenue: seq<(string, real)>, avgInvoice: seq<(string, real)>,
    totalInvoices: nat, thisMonthCount: nat)

  /** `calculateStats` for the current year and month. */
  method CalculateStats(invoices: seq<StoredInvoice>, year: int, month: MonthIndex) returns (stats: Stats)
    ensures CurrencyBuckets(stats.monthlyRevenue, InMonth(invoices, year, month))
    ensures CurrencyBuckets(stats.yearlyRevenue, InYear(invoices, year))
    ensures stats.totalInvoices == |invoices| && stats.thisMonthCount == |InMonth(invoices, year, month)|
    ensures stats.thisMonthCount <= |InYear(invoices, year)|
    ensures |stats.avgInvoice| == |CurrenciesIn(invoices)|
    ensures forall k :: 0 <= k < |stats.avgInvoice| ==>
              var c := stats.avgInvoice[k].0;
              c in CurrenciesIn(invoices) && IsAverage(stats.avgInvoice[k].1, CurrencyTotal(invoices, c), CurrencyCount(invoices, c))
    ensures Distinct(CodesOf(stats.avgInvoice))
    ensures forall c :: c in CurrenciesIn(invoices) ==> c in CodesOf(stats.avgInvoice)
  {
    var thisMonth := InMonth(invoices, year, month);
    var thisYear := InYear(invoices, year);
    var monthly := SumByCurrency(thisMonth);
    var yearly := SumByCurrency(thisYear);
    var allTime := SumByCurrency(invoices);
    AveragesOfBuckets(allTime, invoices);
    DistinctCodesCount(CodesOf(allTime), CurrenciesIn(invoices));
    MonthWithinYear(invoices, year, month);
    AverageCodes(allTime, invoices);
    stats := Stats(monthly, yearly, Averages(allTime, invoices), |invoices|, |thisMonth|);
  }

  /** The averages keep the buckets' keys, in the same order. */
  lemma AverageCodes(entries: seq<(string, real)>, list: seq<StoredInvoice>)
    requires forall c :: c in CodesOf(entries) ==> c in CurrenciesIn(list)
    ensures CodesOf(Averages(entries, list)) == CodesOf(entries)
  {
    AveragesOfBuckets(entries, list);
  }

  /** Distinct keys that are exactly the members of a set are as many as the set. */
  lemma {:induction false} DistinctCodesCount(codes: seq<string>, s: set<string>)
    requires Distinct(codes) && forall c :: c in codes <==> c in s
    ensures |codes| == |s|
  {
    if codes != [] {
      var last := codes[|codes| - 1];
      var init := codes[..|codes| - 1];
      assert Distinct(init);
      assert last !in init;
      assert forall c :: c in codes <==> c in init || c == last;
      DistinctCodesCount(init, s - {last});
    }
  }

  // ---------------------------------------------------------------------------
  // The stacked display
  // ---------------------------------------------------------------------------

  /** A stats card: one value in the large font, or one smaller line per currency. */
  datatype Stacked = Single(value: Value) | Lines(values: seq<Value>)

  function Formatted(entries: seq<(string, real)>): (vs: seq<Value>)
    ensures |vs| == |entries| && forall k :: 0 <= k < |entries| ==> vs[k] == Currency(entries[k].1, entries[k].0)
  {
    if entries == [] then []
    else
      var init := entries[..|entries| - 1];
      assert forall i :: 0 <= i < |init| ==> init[i] == entries[i];
      Formatted(init) + [Currency(entries[|entries| - 1].1, entries[|entries| - 1].0)]
  }

  /** `renderStacked`, with `localeCompare` on the codes as a rank. */
  function RenderStacked(entries: seq<(string, real)>, rank: string -> int): (r: Stacked)
    ensures entries == [] ==> r == Single(Currency(0.0, "USD"))
    ensures |entries| == 1 ==> r.Single?
    ensures |entries| > 1 ==> r.Lines? && |r.values| == |entries|
  {
    if entries == [] then Single(Currency(0.0, "USD"))
    else
      var sorted := SortByKey(entries, (e: (string, real)) => rank(e.0) as real);
      if |sorted| == 1 then Single(Currency(sorted[0].1, sorted[0].0)) else Lines(Formatted(sorted))
  }

  /**
   * No revenue shows $0.00 in dollars; one currency shows its amount alone; several show one line
   * per entry, the same entries reordered so that the codes ascend in the collation.
   */
  lemma StackedShape(entries: seq<(string, real)>, rank: string -> int)
    ensures entries == [] ==> RenderStacked(entries, rank) == Single(Currency(0.0, "USD"))
    ensures |entries| == 1 ==> RenderStacked(entries, rank) == Single(Currency(entries[0].1, entries[0].0))
    ensures |entries| > 1 ==>
              var r := RenderStacked(entries, rank);
              var sorted := SortByKey(entries, (e: (string, real)) => rank(e.0) as real);
              r.Lines? && |r.values| == |entries| && multiset(sorted) == multiset(entries)
              && (forall k :: 0 <= k < |entries| ==> r.values[k] == Currency(sorted[k].1, sorted[k].0))
              && forall i, j :: 0 <= i < j < |entries| ==> rank(sorted[i].0) <= rank(sorted[j].0)
  {
    var key := (e: (string, real)) => rank(e.0) as real;
    var sorted := SortByKey(entries, key);
    if |entries| == 1 {
      SortKeepsSorted(entries, key);
    }
    SortSorted(entries, key);
    assert forall i, j :: 0 <= i < j < |sorted| ==> key(sorted[i]) <= key(sorted[j]);
  }

  // ---------------------------------------------------------------------------
  // Recent invoices
  // ---------------------------------------------------------------------------

  /** A row of the recent table: escaped number, escaped client name or "N/A", creation, amount. */
  datatype RecentRow = RecentRow(number: string, client: string, created: Created, amount: Value)

  function RecentRowOf(inv: StoredInvoice): RecentRow
  {
    RecentRow(Escape(inv.record.invoiceNumber), Escape(OrElse(inv.record.client.name, "N/A")),
              inv.created, Currency(TotalOf(inv), inv.record.meta.currency))
  }

  /** `renderRecentInvoices`: the empty state (`None`) or a row for each of the first five. */
  function RenderRecent(invoices: seq<StoredInvoice>): (r: Option<seq<RecentRow>>)
    ensures r.None? <==> invoices == []
    ensures r.Some? ==> 1 <= |r.value| <= 5 && |r.value| <= |invoices|
  {
    if invoices == [] then None
    else
      var recent := Take(invoices, 5);
      Some(seq(|recent|, k requires 0 <= k < |recent| => RecentRowOf(recent[k])))
  }

  /** An empty list shows the empty state; otherwise the first five invoices, or all when fewer, in list order. */
  lemma RecentFirstFive(invoices: seq<StoredInvoice>)
    ensures RenderRecent(invoices).None? <==> invoices == []
    ensures invoices != [] ==>
              var rows := RenderRecent(invoices).value;
              |rows| == (if |invoices| < 5 then |invoices| else 5) && |rows| >= 1
              && forall k :: 0 <= k < |rows| ==> rows[k] == RecentRowOf(invoices[k])
  {
  }

  // ---------------------------------------------------------------------------
  // The revenue chart
  // ---------------------------------------------------------------------------

  /** A calendar month: its year and `getMonth()` index. */
  datatype Slot = Slot(year: int, month: MonthIndex)

  /** `new Date(year, month - i, 1)`: `i` months before, the year carried over. */
  function MonthsBefore(year: int, month: MonthIndex, i: int): Slot
  {
    var t := year * 12 + month - i;
    Slot(t / 12, t % 12)
  }

  /** The month after. */
  function NextMonth(s: Slot): Slot
  {
    if s.month == 11 then Slot(s.year + 1, 0) else Slot(s.year, s.month + 1)
  }

  /** `${getFullYear()}`. */
  function YearText(y: int): string
  {
    if y < 0 then "-" + NatToString(-y) else NatToString(y)
  }

  /** The month number 1 to 12, two digits. */
  function MonthText(m: MonthIndex): string
  {
    PadStart(NatToString(m + 1), 2, '0')
  }

  /** The chart's bucket key 'YYYY-MM'. */
  function MonthKey(s: Slot): string
  {
    YearText(s.year) + "-" + MonthText(s.month)
  }

  function KeyOf(c: Created): string
  {
    MonthKey(Slot(c.year, c.month))
  }

  /** What the invoices whose creation month has key `key` add up to. */
  function MonthRevenue(list: seq<StoredInvoice>, key: string): (r: real)
    ensures (forall k :: 0 <= k < |list| ==> KeyOf(list[k].created) != key) ==> r == 0.0
  {
    if list == [] then 0.0
    else MonthRevenue(list[..|list| - 1], key) + (if KeyOf(list[|list| - 1].created) == key then TotalOf(list[|list| - 1]) else 0.0)
  }

  /** The six months ending with the current one, oldest first: consecutive, across a new year too. */
  lemma SixConsecutive(year: int, month: MonthIndex)
    ensures MonthsBefore(year, month, 0) == Slot(year, month)
    ensures forall i :: 1 <= i <= 5 ==> NextMonth(MonthsBefore(year, month, i)) == MonthsBefore(year, month, i - 1)
  {
    forall i | 1 <= i <= 5
      ensures NextMonth(MonthsBefore(year, month, i)) == MonthsBefore(year, month, i - 1)
    {
      var t := year * 12 + month - i;
      var q, r := t / 12, t % 12;
      assert t == q * 12 + r;
      if r == 11 {
        assert (t + 1) / 12 == q + 1 && (t + 1) % 12 == 0;
      } else {
        assert (t + 1) / 12 == q && (t + 1) % 12 == r + 1;
      }
    }
  }

  lemma YearTextInjective(a: int, b: int)
    ensures YearText(a) == YearText(b) ==> a == b
  {
    if a < 0 && b < 0 {
      assert YearText(a)[1..] == NatToString(-a);
      assert YearText(b)[1..] == NatToString(-b);
      NatToStringInjective(-a, -b);
    } else if a >= 0 && b >= 0 {
      NatToStringInjective(a, b);
    } else if a < 0 {
      SignNotDigit(NatToString(-a), NatToString(b));
    } else {
      SignNotDigit(NatToString(-b), NatToString(a));
    }
  }

  lemma NatToStringInjective(a: nat, b: nat)
    ensures NatToString(a) == NatToString(b) ==> a == b
  {
    NatToStringValue(a);
    NatToStringValue(b);
  }

  lemma SignNotDigit(s: string, t: string)
    requires AllDigits(t) && |t| >= 1
    ensures "-" + s != t
  {
    assert ("-" + s)[0] == '-' && IsDigit(t[0]);
  }

  lemma MonthTextShape(m: MonthIndex)
    ensures |MonthText(m)| == 2 && AllDigits(MonthText(m)) && DecimalValue(MonthText(m)) == m + 1
  {
    NatToStringLength(m + 1, 2);
    ZeroPadValue(NatToString(m + 1), 2);
    NatToStringValue(m + 1);
  }

  /** Different months have different keys. */
  lemma MonthKeyInjective(s: Slot, t: Slot)
    ensures MonthKey(s) == MonthKey(t) ==> s == t
  {
    if MonthKey(s) == MonthKey(t) {
      MonthTextShape(s.month);
      MonthTextShape(t.month);
      var a, b := YearText(s.year), YearText(t.year);
      var key := MonthKey(s);
      assert |a| == |b|;
      assert key[..|a|] == a;
      assert MonthKey(t)[..|b|] == b;
      YearTextInjective(s.year, t.year);
      assert a == b;
      assert key[|a| + 1..] == MonthText(s.month);
      assert MonthKey(t)[|b| + 1..] == MonthText(t.month);
    }
  }

  /** Six different keys: the chart has exactly six buckets. */
  lemma KeysDistinct(keys: seq<string>, year: int, month: MonthIndex)
    requires |keys| == 6 && forall k :: 0 <= k < 6 ==> keys[k] == ChartKey(year, month, k)
    ensures Distinct(keys)
  {
    forall i, j | 0 <= i < j < 6
      ensures keys[i] != keys[j]
    {
      var ti, tj := year * 12 + month - (5 - i), year * 12 + month - (5 - j);
      assert ti == (ti / 12) * 12 + ti % 12 && tj == (tj / 12) * 12 + tj % 12;
      assert MonthsBefore(year, month, 5 - i) != MonthsBefore(year, month, 5 - j);
      MonthKeyInjective(MonthsBefore(year, month, 5 - i), MonthsBefore(year, month, 5 - j));
    }
  }

  lemma RevenueSnoc(l: seq<StoredInvoice>, x: StoredInvoice, key: string)
    ensures MonthRevenue(l + [x], key) == MonthRevenue(l, key) + (if KeyOf(x.created) == key then TotalOf(x) else 0.0)
  {
    assert (l + [x])[..|l|] == l;
  }

  /** An invoice of one of the six months adds its total to that month's bucket only. */
  lemma ChartHit(values: seq<real>, keys: seq<string>, l: seq<StoredInvoice>, x: StoredInvoice, j: nat)
    requires |values| == |keys| && Distinct(keys) && j < |keys| && keys[j] == KeyOf(x.created)
    requires forall k :: 0 <= k < |keys| ==> values[k] == MonthRevenue(l, keys[k])
    ensures forall k :: 0 <= k < |keys| ==> values[j := values[j] + TotalOf(x)][k] == MonthRevenue(l + [x], keys[k])
  {
    forall k | 0 <= k < |keys|
      ensures values[j := values[j] + TotalOf(x)][k] == MonthRevenue(l + [x], keys[k])
    {
      RevenueSnoc(l, x, keys[k]);
    }
  }

  /** An invoice of any other month changes no bucket. */
  lemma ChartMiss(values: seq<real>, keys: seq<string>, l: seq<StoredInvoice>, x: StoredInvoice)
    requires |values| == |keys| && KeyOf(x.created) !in keys
    requires forall k :: 0 <= k < |keys| ==> values[k] == MonthRevenue(l, keys[k])
    ensures forall k :: 0 <= k < |keys| ==> values[k] == MonthRevenue(l + [x], keys[k])
  {
    forall k | 0 <= k < |keys|
      ensures values[k] == MonthRevenue(l + [x], keys[k])
    {
      RevenueSnoc(l, x, keys[k]);
    }
  }

  /** The key of bucket `k` of the chart (0 the oldest): the month `5 - k` months back. */
  function ChartKey(year: int, month: MonthIndex, k: int): string
  {
    MonthKey(MonthsBefore(year, month, 5 - k))
  }

  /** The short name of that month. */
  function ChartLabel(year: int, month: MonthIndex, k: int): string
  {
    MonthNames[MonthsBefore(year, month, 5 - k).month]
  }

  /** The keys of the first `n` buckets. */
  function ChartKeys(year: int, month: MonthIndex, n: nat): (r: seq<string>)
    ensures |r| == n && forall k :: 0 <= k < n ==> r[k] == ChartKey(year, month, k)
  {
    if n == 0 then [] else ChartKeys(year, month, n - 1) + [ChartKey(year, month, n - 1)]
  }

  /** The month names of the first `n` buckets. */
  function ChartLabels(year: int, month: MonthIndex, n: nat): (r: seq<string>)
    ensures |r| == n && forall k :: 0 <= k < n ==> r[k] == ChartLabel(year, month, k)
  {
    if n == 0 then [] else ChartLabels(year, month, n - 1) + [ChartLabel(year, month, n - 1)]
  }

  /** The largest of the values and 1. */
  function MaxOr1(vs: seq<real>): (m: real)
    ensures m >= 1.0 && (forall k :: 0 <= k < |vs| ==> vs[k] <= m)
    ensures m == 1.0 || exists k :: 0 <= k < |vs| && vs[k] == m
  {
    if vs == [] then 1.0
    else
      var rest := MaxOr1(vs[..|vs| - 1]);
      var last := vs[|vs| - 1];
      assert forall k :: 0 <= k < |vs| - 1 ==> vs[k] == vs[..|vs| - 1][k];
      if last > rest then last else rest
  }

  /** The short English month names the chart labels use. */
  const MonthNames: seq<string> := ["Jan", "Feb", "Mar", "Apr", "May", "Jun", "Jul", "Aug", "Sep", "Oct", "Nov", "Dec"]

  datatype Chart = Chart(keys: seq<string>, labels: seq<string>, values: seq<real>, maxValue: real)

  /**
   * `createRevenueChart`'s data: six buckets, oldest month first, set to 0; then each invoice's
   * total added to the bucket of its creation month when there is one.
   */
  method RevenueChart(invoices: seq<StoredInvoice>, year: int, month: MonthIndex) returns (chart: Chart)
    ensures |chart.keys| == 6 && |chart.labels| == 6 && |chart.values| == 6
    ensures forall k :: 0 <= k < 6 ==>
              chart.keys[k] == ChartKey(year, month, k) && chart.labels[k] == ChartLabel(year, month, k)
    ensures forall k :: 0 <= k < 6 ==> chart.values[k] == MonthRevenue(invoices, chart.keys[k])
    ensures chart.maxValue == MaxOr1(chart.values)
  {
    var keys, labels, zeros := SixMonths(year, month);
    KeysDistinct(keys, year, month);
    var values := AddRevenue(invoices, keys, zeros);
    chart := Chart(keys, labels, values, MaxOr1(values));
  }

  /** The six buckets, oldest month first, each set to 0, with their month names. */
  method SixMonths(year: int, month: MonthIndex) returns (keys: seq<string>, labels: seq<string>, values: seq<real>)
    ensures |keys| == 6 && |labels| == 6 && |values| == 6 && forall k :: 0 <= k < 6 ==> values[k] == 0.0
    ensures forall k :: 0 <= k < 6 ==>
              keys[k] == ChartKey(year, month, k) && labels[k] == ChartLabel(year, month, k)
  {
    keys, labels, values := [], [], [];
    var k := 0;
    while k < 6
      invariant 0 <= k <= 6
      invariant |keys| == k && |labels| == k && |values| == k
      invariant forall k' :: 0 <= k' < k ==> values[k'] == 0.0
      invariant keys == ChartKeys(year, month, k) && labels == ChartLabels(year, month, k)
    {
      var key, name := ChartMonth(year, month, k);
      keys := keys + [key];
      labels := labels + [name];
      values := values + [0.0];
      k := k + 1;
    }
  }

  /** Bucket `k` of the chart: the month `i = 5 - k` months back, its key and its name. */
  method ChartMonth(year: int, month: MonthIndex, k: int) returns (key: string, name: string)
    ensures key == ChartKey(year, month, k) && name == ChartLabel(year, month, k)
  {
    var date := MonthsBefore(year, month, 5 - k);
    key := MonthKey(date);
    name := MonthNames[date.month];
  }

  /** Each invoice's total added to the bucket of its creation month, when there is one. */
  method AddRevenue(invoices: seq<StoredInvoice>, keys: seq<string>, zeros: seq<real>) returns (values: seq<real>)
    requires Distinct(keys) && |zeros| == |keys| && forall k :: 0 <= k < |keys| ==> zeros[k] == 0.0
    ensures |values| == |keys|
    ensures forall k :: 0 <= k < |keys| ==> values[k] == MonthRevenue(invoices, keys[k])
  {
    values := zeros;
    var n := 0;
    while n < |invoices|
      invariant 0 <= n <= |invoices|
      invariant |values| == |keys|
      invariant forall k :: 0 <= k < |keys| ==> values[k] == MonthRevenue(invoices[..n], keys[k])
    {
      values := AddMonthRevenue(values, keys, invoices[..n], invoices[n]);
      assert invoices[..n + 1] == invoices[..n] + [invoices[n]];
      n := n + 1;
    }
    assert invoices[..n] == invoices;
  }

  /** One step of the chart loop: the invoice's total added to its month's bucket, if the chart has one. */
  method AddMonthRevenue(values: seq<real>, keys: seq<string>, ghost done: seq<StoredInvoice>, inv: StoredInvoice)
    returns (next: seq<real>)
    requires Distinct(keys) && |values| == |keys|
    requires forall k :: 0 <= k < |keys| ==> values[k] == MonthRevenue(done, keys[k])
    ensures |next| == |keys|
    ensures forall k :: 0 <= k < |keys| ==> next[k] == MonthRevenue(done + [inv], keys[k])
  {
    var found := IndexOf(keys, KeyOf(inv.created));
    if found.Some? {
      var j := found.value;
      ChartHit(values, keys, done, inv, j);
      next := values[j := values[j] + TotalOf(inv)];
    } else {
      ChartMiss(values, keys, done, inv);
      next := values;
    }
  }
}
