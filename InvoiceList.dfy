/**
 * The invoice list page (src/invoices-main.js): search and consultant filtering, the sort
 * orders, the consultant choices, the table rows and the pagination buttons. The page's
 * module-level variables are the fields of `ListPage`.
 */
module InvoiceList {
  import opened Wrappers
  import opened Strings
  import opened Records
  import opened Render
  import opened Html
  import opened Sorting

  const PageSize: nat := 20
  const AllConsultants: string := "All Consultants"

  // ---------------------------------------------------------------------------
  // Filtering
  // ---------------------------------------------------------------------------

  /** The search: no query, or the lower-cased query inside the lower-cased number or client name. */
  predicate MatchesSearch(inv: StoredInvoice, query: string)
    ensures MatchesSearch(inv, query) ==>
              query == [] || |query| <= |inv.record.invoiceNumber| || |query| <= |inv.record.client.name|
  {
    query == []
    || Contains(ToLower(inv.record.invoiceNumber), query)
    || Contains(ToLower(inv.record.client.name), query)
  }

  /** The consultant filter: none chosen, or some item whose trimmed consultant is the chosen one. */
  predicate MatchesConsultant(inv: StoredInvoice, selected: string)
  {
    selected == []
    || exists k :: 0 <= k < |inv.record.items| && inv.record.items[k].consultant != ""
                   && Trim(inv.record.items[k].consultant) == selected
  }

  predicate Keeps(inv: StoredInvoice, query: string, selected: string)
  {
    MatchesSearch(inv, query) && MatchesConsultant(inv, selected)
  }

  /** The invoices kept, in their original order. */
  function Filter(invs: seq<StoredInvoice>, query: string, selected: string): (r: seq<StoredInvoice>)
    ensures |r| <= |invs|
    ensures forall x :: x in r ==> x in invs && Keeps(x, query, selected)
  {
    if invs == [] then []
    else Filter(invs[..|invs| - 1], query, selected)
         + (if Keeps(invs[|invs| - 1], query, selected) then [invs[|invs| - 1]] else [])
  }

  /** Nothing that passes both tests is dropped. */
  lemma {:induction false} FilterKeepsAll(invs: seq<StoredInvoice>, query: string, selected: string)
    ensures forall x :: x in invs && Keeps(x, query, selected) ==> x in Filter(invs, query, selected)
  {
    if invs != [] {
      var init := invs[..|invs| - 1];
      FilterKeepsAll(init, query, selected);
      assert forall x :: x in invs ==> x in init || x == invs[|invs| - 1];
    }
  }

  /** An empty query and no chosen consultant keep the whole list. */
  lemma {:induction false} NoFilterKeepsList(invs: seq<StoredInvoice>)
    ensures Filter(invs, "", "") == invs
  {
    if invs != [] {
      NoFilterKeepsList(invs[..|invs| - 1]);
    }
  }

  // ---------------------------------------------------------------------------
  // Sorting
  // ---------------------------------------------------------------------------

  /** The total of an invoice, a missing one being 0. */
  function TotalOf(inv: StoredInvoice): real
  {
    inv.record.totals.total
  }

  /**
   * The sort orders as keys that ascend: newest first, oldest first, largest amount first,
   * smallest first, client name in the supplied collation; any other choice does not sort.
   */
  function SortKey(sortBy: string, rank: string -> int): (key: Option<StoredInvoice -> real>)
    ensures key.Some? <==> sortBy in {"date-desc", "date-asc", "amount-desc", "amount-asc", "client-asc"}
  {
    if sortBy == "date-desc" then Some((inv: StoredInvoice) => -(inv.created.time as real))
    else if sortBy == "date-asc" then Some((inv: StoredInvoice) => inv.created.time as real)
    else if sortBy == "amount-desc" then Some((inv: StoredInvoice) => -TotalOf(inv))
    else if sortBy == "amount-asc" then Some((inv: StoredInvoice) => TotalOf(inv))
    else if sortBy == "client-asc" then Some((inv: StoredInvoice) => rank(inv.record.client.name) as real)
    else None
  }

  /** `sortInvoices` on the filtered list. */
  function SortInvoices(invs: seq<StoredInvoice>, sortBy: string, rank: string -> int): (r: seq<StoredInvoice>)
    ensures multiset(r) == multiset(invs)
  {
    match SortKey(sortBy, rank)
    case None => invs
    case Some(key) => SortByKey(invs, key)
  }

  /** Largest amount first: the result is a reordering of the list with totals that never increase. */
  lemma AmountDescending(invs: seq<StoredInvoice>, rank: string -> int)
    ensures var r := SortInvoices(invs, "amount-desc", rank);
            multiset(r) == multiset(invs) && forall i, j :: 0 <= i < j < |r| ==> TotalOf(r[i]) >= TotalOf(r[j])
  {
    var key := (inv: StoredInvoice) => -TotalOf(inv);
    SortSorted(invs, key);
    var r := SortByKey(invs, key);
    assert forall i, j :: 0 <= i < j < |r| ==> key(r[i]) <= key(r[j]);
  }

  /** Smallest amount first: the result is a reordering of the list with totals that never decrease. */
  lemma AmountAscending(invs: seq<StoredInvoice>, rank: string -> int)
    ensures var r := SortInvoices(invs, "amount-asc", rank);
            multiset(r) == multiset(invs) && forall i, j :: 0 <= i < j < |r| ==> TotalOf(r[i]) <= TotalOf(r[j])
  {
    var key := (inv: StoredInvoice) => TotalOf(inv);
    SortSorted(invs, key);
    var r := SortByKey(invs, key);
    assert forall i, j :: 0 <= i < j < |r| ==> key(r[i]) <= key(r[j]);
  }

  /** Newest first: creation times never increase. */
  lemma NewestFirst(invs: seq<StoredInvoice>, rank: string -> int)
    ensures var r := SortInvoices(invs, "date-desc", rank);
            multiset(r) == multiset(invs) && forall i, j :: 0 <= i < j < |r| ==> r[i].created.time >= r[j].created.time
  {
    var key := (inv: StoredInvoice) => -(inv.created.time as real);
    SortSorted(invs, key);
    var r := SortByKey(invs, key);
    assert forall i, j :: 0 <= i < j < |r| ==> key(r[i]) <= key(r[j]);
  }

  /** Oldest first: creation times never decrease. */
  lemma OldestFirst(invs: seq<StoredInvoice>, rank: string -> int)
    ensures var r := SortInvoices(invs, "date-asc", rank);
            multiset(r) == multiset(invs) && forall i, j :: 0 <= i < j < |r| ==> r[i].created.time <= r[j].created.time
  {
    var key := (inv: StoredInvoice) => inv.created.time as real;
    SortSorted(invs, key);
    var r := SortByKey(invs, key);
    assert forall i, j :: 0 <= i < j < |r| ==> key(r[i]) <= key(r[j]);
  }

  /** By client: names in the collation's order. */
  lemma ClientOrder(invs: seq<StoredInvoice>, rank: string -> int)
    ensures var r := SortInvoices(invs, "client-asc", rank);
            multiset(r) == multiset(invs)
            && forall i, j :: 0 <= i < j < |r| ==> rank(r[i].record.client.name) <= rank(r[j].record.client.name)
  {
    var key := (inv: StoredInvoice) => rank(inv.record.client.name) as real;
    SortSorted(invs, key);
    var r := SortByKey(invs, key);
    assert forall i, j :: 0 <= i < j < |r| ==> key(r[i]) <= key(r[j]);
  }

  /** Every order keeps invoices that tie on its key in the order they had before sorting. */
  lemma TiesKeepOrder(invs: seq<StoredInvoice>, sortBy: string, rank: string -> int, v: real)
    requires SortKey(sortBy, rank).Some?
    ensures var key := SortKey(sortBy, rank).value;
            WithKey(SortInvoices(invs, sortBy, rank), key, v) == WithKey(invs, key, v)
  {
    SortStable(invs, SortKey(sortBy, rank).value, v);
  }

  /** An order the page does not know leaves the list as it was. */
  lemma UnknownOrderKeepsList(invs: seq<StoredInvoice>, sortBy: string, rank: string -> int)
    requires sortBy !in {"date-desc", "date-asc", "amount-desc", "amount-asc", "client-asc"}
    ensures SortInvoices(invs, sortBy, rank) == invs
  {
  }

  // ---------------------------------------------------------------------------
  // Consultant choices
  // ---------------------------------------------------------------------------

  /** The trimmed, non-empty consultant names of some items. */
  function ItemNames(items: seq<LineItem>): set<string>
  {
    if items == [] then {}
    else ItemNames(items[..|items| - 1])
         + (var c := items[|items| - 1].consultant; if c != "" && Trim(c) != "" then {Trim(c)} else {})
  }

  /** The trimmed, non-empty consultant names of a list of invoices. */
  function Names(invs: seq<StoredInvoice>): set<string>
  {
    if invs == [] then {} else Names(invs[..|invs| - 1]) + ItemNames(invs[|invs| - 1].record.items)
  }

  /** The names of some items added to a list of distinct names, in first-seen order. */
  method AddItemNames(names: seq<string>, items: seq<LineItem>) returns (r: seq<string>)
    requires Distinct(names)
    ensures Distinct(r)
    ensures forall x :: x in r <==> x in names || x in ItemNames(items)
  {
    r := names;
    var k := 0;
    while k < |items|
      invariant 0 <= k <= |items|
      invariant Distinct(r)
      invariant forall x :: x in r <==> x in names || x in ItemNames(items[..k])
    {
      assert items[..k + 1][..k] == items[..k];
      var c := items[k].consultant;
      if c != "" && Trim(c) != "" && Trim(c) !in r {
        r := r + [Trim(c)];
      }
      k := k + 1;
    }
    assert items[..k] == items;
  }

  /** The `Set` the consultant loop builds: every name once, in first-seen order. */
  method CollectNames(invs: seq<StoredInvoice>) returns (names: seq<string>)
    ensures Distinct(names)
    ensures forall x :: x in names <==> x in Names(invs)
  {
    names := [];
    var i := 0;
    while i < |invs|
      invariant 0 <= i <= |invs|
      invariant Distinct(names)
      invariant forall x :: x in names <==> x in Names(invs[..i])
    {
      assert invs[..i + 1][..i] == invs[..i];
      names := AddItemNames(names, invs[i].record.items);
      i := i + 1;
    }
    assert invs[..i] == invs;
  }

  /** Distinct names occur at most once each. */
  lemma {:induction false} DistinctCount(xs: seq<string>)
    requires Distinct(xs)
    ensures forall y :: multiset(xs)[y] <= 1
  {
    if xs != [] {
      assert Distinct(xs[1..]);
      DistinctCount(xs[1..]);
      assert xs == [xs[0]] + xs[1..];
      assert xs[0] !in xs[1..];
    }
  }

  /** A name at two positions occurs at least twice. */
  lemma PairCount(ys: seq<string>, i: nat, j: nat)
    requires i < j < |ys|
    ensures ys[i] == ys[j] ==> multiset(ys)[ys[i]] >= 2
  {
    assert ys == ys[..j] + ys[j..];
    assert ys[i] in ys[..j] && ys[j] in ys[j..];
  }

  /** A reordering of distinct names is distinct. */
  lemma PermutationDistinct(xs: seq<string>, ys: seq<string>)
    requires Distinct(xs) && multiset(xs) == multiset(ys)
    ensures Distinct(ys)
  {
    DistinctCount(xs);
    forall i, j | 0 <= i < j < |ys|
      ensures ys[i] != ys[j]
    {
      PairCount(ys, i, j);
    }
  }

  /**
   * `populateConsultantFilter`: "All Consultants", then every trimmed consultant name once,
   * sorted in the supplied collation.
   */
  method ConsultantOptions(invs: seq<StoredInvoice>, rank: string -> int) returns (options: seq<string>)
    ensures |options| >= 1 && options[0] == AllConsultants
    ensures Distinct(options[1..])
    ensures forall x :: x in options[1..] <==> x in Names(invs)
    ensures forall i, j :: 1 <= i < j < |options| ==> rank(options[i]) <= rank(options[j])
  {
    var names := CollectNames(invs);
    var key := (s: string) => rank(s) as real;
    var sorted := SortByKey(names, key);
    SortSorted(names, key);
    PermutationDistinct(names, sorted);
    assert forall x :: x in sorted <==> x in multiset(names);
    options := [AllConsultants] + sorted;
    assert options[1..] == sorted;
    assert forall i, j :: 0 <= i < j < |sorted| ==> key(sorted[i]) <= key(sorted[j]);
  }

  /**
   * `filterConsultantOptions`: which options stay displayed while typing in the dropdown's
   * search box, "All Consultants" included: those whose lower-cased text holds the lower-cased query.
   */
  function VisibleOptions(options: seq<string>, query: string): (shown: seq<bool>)
    ensures |shown| == |options|
    ensures forall k :: 0 <= k < |options| ==> (shown[k] <==> Contains(ToLower(options[k]), ToLower(query)))
  {
    seq(|options|, k requires 0 <= k < |options| => Contains(ToLower(options[k]), ToLower(query)))
  }

  /** An empty query shows every option. */
  lemma EmptyQueryShowsAll(options: seq<string>)
    ensures forall k :: 0 <= k < |options| ==> VisibleOptions(options, "")[k]
  {
    forall k | 0 <= k < |options|
      ensures VisibleOptions(options, "")[k]
    {
      assert OccursAt(ToLower(options[k]), "", 0);
    }
  }

  /** Letter case in the query does not matter: a query and its lower-cased form show the same options. */
  lemma QueryCaseIgnored(options: seq<string>, query: string)
    ensures VisibleOptions(options, ToLower(query)) == VisibleOptions(options, query)
  {
    assert ToLower(ToLower(query)) == ToLower(query);
  }

  // ---------------------------------------------------------------------------
  // The table and the pagination
  // ---------------------------------------------------------------------------

  /** One table row: escaped number, escaped client name (or "N/A"), creation, the total in dollars, the id. */
  datatype TableRow = TableRow(number: string, client: string, created: Created, total: real, id: string)

  function RowOf(inv: StoredInvoice): (row: TableRow)
    ensures MarkupFree(row.number) && MarkupFree(row.client)
    ensures row.created == inv.created && row.total == TotalOf(inv) && row.id == inv.id
  {
    EscapedHasNoMarkup(inv.record.invoiceNumber);
    EscapedHasNoMarkup(OrElse(inv.record.client.name, "N/A"));
    TableRow(Escape(inv.record.invoiceNumber), Escape(OrElse(inv.record.client.name, "N/A")),
             inv.created, TotalOf(inv), inv.id)
  }

  function RowsOf(invs: seq<StoredInvoice>): (r: seq<TableRow>)
  {
    seq(|invs|, k requires 0 <= k < |invs| => RowOf(invs[k]))
  }

  /** A pagination control. */
  datatype PageButton = Previous(target: nat) | PageNumber(page: nat, current: bool) | Ellipsis | Next(target: nat)

  /** `Math.ceil(n / 20)`. */
  function TotalPages(n: nat): (pages: nat)
    ensures (pages - 1) * PageSize < n <= pages * PageSize || (n == 0 && pages == 0)
  {
    (n + PageSize - 1) / PageSize
  }

  /** What the page-number loop writes for page `i`, if anything. */
  function PageEntry(i: nat, current: nat, total: nat): seq<PageButton>
  {
    if i == current then [PageNumber(i, true)]
    else if i == 1 || i == total || Dist(i, current) <= 1 then [PageNumber(i, false)]
    else if Dist(i, current) == 2 then [Ellipsis]
    else []
  }

  function Dist(a: nat, b: nat): nat
  {
    if a >= b then a - b else b - a
  }

  /** The entries of pages 1 to `upTo`, in page order. */
  function Entries(upTo: nat, current: nat, total: nat): (r: seq<PageButton>)
  {
    if upTo == 0 then [] else Entries(upTo - 1, current, total) + PageEntry(upTo, current, total)
  }

  /**
   * `renderPagination`: nothing for a single page; otherwise Previous when not on the first
   * page, the page entries, and Next when not on the last.
   */
  method RenderPagination(n: nat, current: nat) returns (buttons: seq<PageButton>)
    ensures TotalPages(n) <= 1 ==> buttons == []
    ensures TotalPages(n) > 1 ==>
              buttons == (if current > 1 then [Previous(current - 1)] else [])
                         + Entries(TotalPages(n), current, TotalPages(n))
                         + (if current < TotalPages(n) then [Next(current + 1)] else [])
  {
    var total := TotalPages(n);
    if total <= 1 {
      return [];
    }
    buttons := if current > 1 then [Previous(current - 1)] else [];
    var i := 1;
    while i <= total
      invariant 1 <= i <= total + 1
      invariant buttons == (if current > 1 then [Previous(current - 1)] else []) + Entries(i - 1, current, total)
    {
      buttons := buttons + PageEntry(i, current, total);
      i := i + 1;
    }
    if current < total {
      buttons := buttons + [Next(current + 1)];
    }
  }

  /** Page `i` is listed exactly when it is current, first, last or next to the current page. */
  lemma {:induction false} EntriesList(upTo: nat, current: nat, total: nat, i: nat)
    requires 1 <= i <= upTo
    ensures PageNumber(i, i == current) in Entries(upTo, current, total)
            <==> i == current || i == 1 || i == total || Dist(i, current) <= 1
  {
    if upTo > i {
      EntriesList(upTo - 1, current, total, i);
      assert forall b :: b in PageEntry(upTo, current, total) ==> b.PageNumber? ==> b.page == upTo;
    } else {
      EntriesBelow(upTo - 1, current, total);
    }
  }

  /** Entries up to `upTo` name no page after it. */
  lemma {:induction false} EntriesBelow(upTo: nat, current: nat, total: nat)
    ensures forall b :: b in Entries(upTo, current, total) && b.PageNumber? ==> 1 <= b.page <= upTo
  {
    if upTo > 0 {
      EntriesBelow(upTo - 1, current, total);
    }
  }

  /** A gap of exactly two pages from the current one is shown as "...". */
  lemma EllipsisForGapOfTwo(i: nat, current: nat, total: nat)
    requires i != 1 && i != total && Dist(i, current) == 2
    ensures PageEntry(i, current, total) == [Ellipsis]
  {
  }

  /** What the table area shows: the empty state, or rows and pagination buttons. */
  datatype ListView = EmptyState | Table(rows: seq<TableRow>, pagination: seq<PageButton>)

  /**
   * What `renderInvoices` leaves on the page for a filtered list and a current page: the empty
   * state for no invoices; otherwise a row for every invoice, then no buttons for a single page,
   * or Previous when past the first page, the page entries and Next when before the last.
   */
  ghost predicate Shows(view: ListView, filtered: seq<StoredInvoice>, current: nat)
  {
    if filtered == [] then view == EmptyState
    else
      var total := TotalPages(|filtered|);
      view.Table? && view.rows == RowsOf(filtered)
      && view.pagination == (if total <= 1 then []
                             else (if current > 1 then [Previous(current - 1)] else [])
                                  + Entries(total, current, total)
                                  + (if current < total then [Next(current + 1)] else []))
  }

  // ---------------------------------------------------------------------------
  // The page
  // ---------------------------------------------------------------------------

  class ListPage {
    var all: seq<StoredInvoice>
    var filtered: seq<StoredInvoice>
    var currentPage: nat
    var selected: string
    var search: string
    var sortBy: string
    var view: ListView
    /** `localeCompare`, as a rank in the collation. */
    const rank: string -> int

    /** The page's variables before anything is loaded: no invoices, page 1, no filter, the sort select's value. */
    constructor (sortBy: string, rank: string -> int)
      ensures all == [] && filtered == [] && currentPage == 1 && selected == "" && search == ""
      ensures this.sortBy == sortBy && this.rank == rank && view == EmptyState
    {
      all, filtered, currentPage, selected, search := [], [], 1, "", "";
      this.sortBy := sortBy;
      this.rank := rank;
      view := EmptyState;
    }

    /** `loadInvoices`: the user's invoices become the list, filtered and sorted by the current choices, then rendered. */
    method LoadInvoices(invoices: seq<StoredInvoice>)
      modifies this
      ensures all == invoices
      ensures filtered == SortInvoices(Filter(invoices, ToLower(search), selected), sortBy, rank)
      ensures Shows(view, filtered, currentPage)
      ensures currentPage == old(currentPage) && selected == old(selected) && search == old(search)
      ensures sortBy == old(sortBy)
    {
      all := invoices;
      filtered := invoices;
      ApplyFilters();
      RenderInvoices();
    }

    /** `applyFilters`: the kept invoices in the chosen order. */
    method ApplyFilters()
      modifies this
      ensures filtered == SortInvoices(Filter(all, ToLower(search), selected), sortBy, rank)
      ensures all == old(all) && currentPage == old(currentPage) && selected == old(selected)
      ensures search == old(search) && sortBy == old(sortBy) && view == old(view)
    {
      filtered := Filter(all, ToLower(search), selected);
      filtered := SortInvoices(filtered, sortBy, rank);
    }

    /**
     * `renderInvoices`: the empty state when nothing is left; otherwise a row for every
     * filtered invoice (the page's slice is computed but not used) and the pagination.
     */
    method RenderInvoices()
      modifies this
      ensures Shows(view, filtered, currentPage)
      ensures all == old(all) && filtered == old(filtered) && currentPage == old(currentPage)
      ensures selected == old(selected) && search == old(search) && sortBy == old(sortBy)
    {
      if filtered == [] {
        view := EmptyState;
        return;
      }
      var buttons := RenderPagination(|filtered|, currentPage);
      view := Table(RowsOf(filtered), buttons);
    }

    /** A new search text: back to page 1, filter, render. */
    method Search(query: string)
      modifies this
      ensures currentPage == 1 && search == query
      ensures filtered == SortInvoices(Filter(all, ToLower(query), selected), sortBy, rank)
      ensures Shows(view, filtered, 1)
      ensures all == old(all) && selected == old(selected) && sortBy == old(sortBy)
    {
      search := query;
      currentPage := 1;
      ApplyFilters();
      RenderInvoices();
    }

    /** A consultant chosen from the list (or "" for all): back to page 1, filter, render. */
    method SelectConsultant(value: string)
      modifies this
      ensures currentPage == 1 && selected == value
      ensures filtered == SortInvoices(Filter(all, ToLower(search), value), sortBy, rank)
      ensures Shows(view, filtered, 1)
      ensures all == old(all) && search == old(search) && sortBy == old(sortBy)
    {
      selected := value;
      currentPage := 1;
      ApplyFilters();
      RenderInvoices();
    }

    /**
     * The sort select's change: the filtered list as it stands is re-sorted (stably, so ties keep
     * their present order), on the same page, and rendered; the new choice also governs later filtering.
     */
    method ChangeSort(value: string)
      modifies this
      ensures sortBy == value && filtered == SortInvoices(old(filtered), value, rank)
      ensures Shows(view, filtered, currentPage)
      ensures all == old(all) && currentPage == old(currentPage)
      ensures selected == old(selected) && search == old(search)
    {
      sortBy := value;
      filtered := SortInvoices(filtered, value, rank);
      RenderInvoices();
    }

    /** `goToPage`: only the page number changes, and the same rows are shown. */
    method GoToPage(page: nat)
      modifies this
      ensures currentPage == page && Shows(view, filtered, page)
      ensures all == old(all) && filtered == old(filtered) && selected == old(selected)
      ensures search == old(search) && sortBy == old(sortBy)
    {
      currentPage := page;
      RenderInvoices();
    }
  }

  /** Every page shows the same rows: all of the filtered list, even past the first twenty. */
  lemma RowsIgnorePage(filtered: seq<StoredInvoice>)
    requires |filtered| > PageSize
    ensures |RowsOf(filtered)| == |filtered| > PageSize
  {
  }
}
