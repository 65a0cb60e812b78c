/**
 * The modular editor's page logic (src/modules/ui.js): the totals loop that rewrites every
 * card's amount, `gatherFormData`, the preview `renderPaper` draws from it, the remove guard of
 * `addItem`'s cards, and `fillFormWithData`. The page's inputs, cards, totals displays and
 * preview are the fields of `Page`; the `state` object the entry script passes is `State`.
 */
module Ui {
  import opened Wrappers
  import opened Strings
  import opened Totals
  import opened Records
  import opened Render
  import opened Dates
  import opened Money

  /** The entry script's `state`, as far as these functions touch it. */
  class State {
    var logo: Option<string>
    var subtotal: real
    var total: real

    constructor ()
      ensures logo == None && subtotal == 0.0 && total == 0.0
    {
      logo, subtotal, total := None, 0.0, 0.0;
    }
  }

  /** A card as this module's `addItem` creates it: quantity 1, rate 0, "$0.00" shown, no amount stored yet. */
  const NewCard: Card := Card(BlankItem, 0.0, InitialAmountText)

  /** What `${undefined}` writes: the discount display `gatherFormData` never sets. */
  const Undefined: Value := Text("undefined")

  /** `state.logo` in a condition: a logo is drawn only when it is a non-empty text. */
  function ShownLogo(logo: Option<string>): (r: Option<string>)
    ensures r.Some? <==> logo.Some? && logo.value != ""
    ensures r.Some? ==> r == logo
  {
    if logo.Some? && logo.value != "" then logo else None
  }

  // ---------------------------------------------------------------------------
  // calculateTotals
  // ---------------------------------------------------------------------------

  /** The cards after the totals loop: each stores quantity times rate and shows it in the currency. */
  function Recomputed(cards: seq<Card>, currency: string): (r: seq<Card>)
    ensures |r| == |cards|
    ensures forall k :: 0 <= k < |cards| ==> r[k] == CardFor(cards[k].item, currency)
  {
    if cards == [] then []
    else
      var init := cards[..|cards| - 1];
      assert forall i :: 0 <= i < |init| ==> init[i] == cards[i];
      Recomputed(init, currency) + [CardFor(cards[|cards| - 1].item, currency)]
  }

  /** One step of the loop: the next card recomputed, and its amount added to the running sum. */
  lemma RecomputedStep(cards: seq<Card>, i: nat, currency: string, cs: seq<Card>, subtotal: real, c: Card)
    requires i < |cards| && cs == Recomputed(cards[..i], currency) && subtotal == Sum(AmountsOf(cs))
    requires c == CardFor(cards[i].item, currency)
    ensures cs + [c] == Recomputed(cards[..i + 1], currency)
    ensures subtotal + c.amount == Sum(AmountsOf(cs + [c]))
  {
    assert cards[..i + 1][..i] == cards[..i];
    assert (cs + [c])[..|cs|] == cs;
    assert (AmountsOf(cs) + [c.amount])[..|cs|] == AmountsOf(cs);
  }

  /** The loop of `calculateTotals`: every card rewritten, and the sum of the amounts it stores. */
  method RecomputeCards(cards: seq<Card>, currency: string) returns (cs: seq<Card>, subtotal: real)
    ensures cs == Recomputed(cards, currency) && AmountsCurrent(cs)
    ensures subtotal == Sum(AmountsOf(cs))
  {
    cs, subtotal := [], 0.0;
    var i := 0;
    while i < |cards|
      invariant 0 <= i <= |cards|
      invariant cs == Recomputed(cards[..i], currency)
      invariant subtotal == Sum(AmountsOf(cs))
    {
      cs, subtotal := RecomputeNext(cards, i, currency, cs, subtotal);
      i := i + 1;
    }
    assert cards[..i] == cards;
    RecomputedCurrent(cards, currency);
  }

  /** The loop's body for card `i`: its amount and display rewritten, and the amount added to the subtotal. */
  method RecomputeNext(cards: seq<Card>, i: nat, currency: string, cs: seq<Card>, subtotal: real)
    returns (cs': seq<Card>, subtotal': real)
    requires i < |cards| && cs == Recomputed(cards[..i], currency) && subtotal == Sum(AmountsOf(cs))
    ensures cs' == Recomputed(cards[..i + 1], currency) && subtotal' == Sum(AmountsOf(cs'))
  {
    var c := CardFor(cards[i].item, currency);
    RecomputedStep(cards, i, currency, cs, subtotal, c);
    cs', subtotal' := cs + [c], subtotal + c.amount;
  }

  /** Every card the loop leaves stores quantity times rate. */
  lemma RecomputedCurrent(cards: seq<Card>, currency: string)
    ensures AmountsCurrent(Recomputed(cards, currency))
  {
  }

  // ---------------------------------------------------------------------------
  // gatherFormData
  // ---------------------------------------------------------------------------

  /** One gathered item: quantity and rate read with `|| 0`, the amount their product, the display as shown. */
  function GatheredItem(c: Card): LineItem
  {
    var it := c.item;
    LineItem(it.desc, Coerce(it.qty), Coerce(it.rate), Coerce(it.qty) * Coerce(it.rate), c.amountText,
             it.client, it.consultant, it.period, it.notes)
  }

  function GatheredItems(cards: seq<Card>): (r: seq<LineItem>)
    ensures |r| == |cards|
    ensures forall k :: 0 <= k < |cards| ==> r[k] == GatheredItem(cards[k])
  {
    if cards == [] then []
    else
      var init := cards[..|cards| - 1];
      assert forall i :: 0 <= i < |init| ==> init[i] == cards[i];
      GatheredItems(init) + [GatheredItem(cards[|cards| - 1])]
  }

  /** The amounts of a record's items, in item order. */
  function ItemAmounts(items: seq<LineItem>): (r: seq<real>)
    ensures |r| == |items|
    ensures forall k :: 0 <= k < |items| ==> r[k] == items[k].amount
  {
    if items == [] then []
    else
      var init := items[..|items| - 1];
      assert forall i :: 0 <= i < |init| ==> init[i] == items[i];
      ItemAmounts(init) + [items[|items| - 1].amount]
  }

  /**
   * `gatherFormData`: the record read off the page. The figures come from the displays' raw
   * values, the texts from the displays, and the logo from the image in the current preview.
   */
  function Gather(form: Form, cards: seq<Card>, raw: Totals, displays: Displays, previewLogo: Option<string>,
                  localeDate: string -> string): (r: InvoiceRecord)
    ensures r.status == "Draft" && r.logo == previewLogo && |r.items| == |cards|
    ensures r.meta.dateRaw == form.invoiceDate && r.meta.currency == form.currency
    ensures r.totals.subtotal == raw.subtotal && r.totals.total == raw.total
    ensures r.totals.subtotalDisplay == displays.subtotal && r.totals.totalDisplay == displays.total
  {
    InvoiceRecord(
      form.invoiceNumber, "Draft", form.business, previewLogo, form.client,
      Meta(FormatDate(form.invoiceDate, localeDate), FormatDate(form.dueDate, localeDate),
           form.invoiceDate, form.dueDate, form.terms, form.currency),
      Settings(form.brandColor, form.taxRate, form.discountType, form.discountValue),
      GatheredItems(cards),
      RecordTotals(raw.subtotal, raw.taxAmount, raw.discountAmount, raw.total,
                   displays.subtotal, displays.tax, displays.total),
      form.notes, form.paymentInstructions)
  }

  // ---------------------------------------------------------------------------
  // renderPaper, renderItemDetails, renderFooterNotes
  // ---------------------------------------------------------------------------

  /** `renderItemDetails`: client, consultant, period and notes with the short labels, verbatim. */
  function ItemDetails(li: LineItem): seq<string>
  {
    Details(li.client, li.consultant, li.period, li.notes, ShortLabels, Verbatim)
  }

  function PaperItemOf(li: LineItem, currency: string): PaperItem
  {
    PaperItem(OrElse(li.desc, "Item"), ItemDetails(li), Number(li.qty), Currency(li.rate, currency), li.amountDisplay)
  }

  function PaperItems(items: seq<LineItem>, currency: string): (r: seq<PaperItem>)
    ensures |r| == |items|
    ensures forall k :: 0 <= k < |items| ==> r[k] == PaperItemOf(items[k], currency)
  {
    if items == [] then []
    else
      var init := items[..|items| - 1];
      assert forall i :: 0 <= i < |init| ==> init[i] == items[i];
      PaperItems(init, currency) + [PaperItemOf(items[|items| - 1], currency)]
  }

  /**
   * The totals block: Subtotal, Tax when there is tax, Discount when there is a discount
   * (showing the display the record never carries), and Total Due.
   */
  function PaperTotals(t: RecordTotals): seq<Row>
  {
    [Row(Plain("Subtotal"), t.subtotalDisplay)]
    + (if t.taxAmount > 0.0 then [Row(Plain("Tax"), t.taxDisplay)] else [])
    + (if t.discountAmount > 0.0 then [Row(Plain("Discount"), Undefined)] else [])
    + [Row(Plain("Total Due"), t.totalDisplay)]
  }

  /** The preview `renderPaper` draws from a gathered record and the logo to show. */
  function PaperOf(data: InvoiceRecord, logo: Option<string>): (p: Paper)
    ensures p.logo == logo && p.companyName != "" && |p.items| == |data.items|
    ensures |p.meta| == 4 && p.meta[3] == Row(Plain("Amount Due"), data.totals.totalDisplay)
  {
    Paper(
      logo, OrElse(data.business.name, "Your Company"), PartyLines(data.business),
      [Row(Plain("Invoice #"), Text(data.invoiceNumber)), Row(Plain("Date"), Text(data.meta.date)),
       Row(Plain("Due Date"), Text(data.meta.dueDate)), Row(Plain("Amount Due"), data.totals.totalDisplay)],
      data.client.name, PartyLines(data.client),
      PaperItems(data.items, data.meta.currency),
      NotesRows(data.notes, data.paymentInstructions),
      PaperTotals(data.totals))
  }

  // ---------------------------------------------------------------------------
  // fillFormWithData
  // ---------------------------------------------------------------------------

  /**
   * A saved invoice as `fillFormWithData` reads it. Each section may be missing; a missing
   * text or number inside a section is its falsy value ("" or 0).
   */
  datatype FillData = FillData(
    business: Option<Party>, client: Option<Party>, meta: Option<Meta>, invoiceNumber: string,
    settings: Option<Settings>, notes: string, paymentInstructions: string, items: seq<LineItem>)

  /** A record read back whole, every section present. */
  function FillDataOf(r: InvoiceRecord): FillData
  {
    FillData(Some(r.business), Some(r.client), Some(r.meta), r.invoiceNumber, Some(r.settings),
             r.notes, r.paymentInstructions, r.items)
  }

  /** A saved item's inputs: a zero quantity comes back as 1, the rate as it was. */
  function FilledItem(li: LineItem): (it: ItemInputs)
    ensures it.qty == Some(if li.qty == 0.0 then 1.0 else li.qty) && it.rate == Some(li.rate)
    ensures it.desc == li.desc && it.client == li.client && it.consultant == li.consultant
            && it.period == li.period && it.notes == li.notes
  {
    ItemInputs(li.desc, Some(if li.qty == 0.0 then 1.0 else li.qty), Some(li.rate),
               li.client, li.consultant, li.period, li.notes)
  }

  /** The cards the item loop leaves: new cards holding the saved inputs, amounts not yet computed. */
  function FilledCards(items: seq<LineItem>): (r: seq<Card>)
    ensures |r| == |items|
    ensures forall k :: 0 <= k < |items| ==> r[k] == NewCard.(item := FilledItem(items[k]))
  {
    if items == [] then []
    else
      var init := items[..|items| - 1];
      assert forall i :: 0 <= i < |init| ==> init[i] == items[i];
      FilledCards(init) + [NewCard.(item := FilledItem(items[|items| - 1]))]
  }

  /**
   * The form after `fillFormWithData`: each present section overwrites its inputs with defaults
   * for empty values, the number only when there is one; notes are always overwritten. A missing
   * raw date is recovered from the formatted one by `parseDate`.
   */
  function FilledForm(f: Form, d: FillData, parseDate: string -> string): (g: Form)
    ensures g.notes == d.notes && g.paymentInstructions == d.paymentInstructions
    ensures g.invoiceNumber == (if d.invoiceNumber != "" then d.invoiceNumber else f.invoiceNumber)
    ensures g.business == (if d.business.Some? then d.business.value else f.business)
    ensures g.client == (if d.client.Some? then d.client.value else f.client)
    ensures d.meta.None? ==> g.invoiceDate == f.invoiceDate && g.dueDate == f.dueDate && g.currency == f.currency
    ensures d.meta.Some? ==> g.currency != "" && g.terms != ""
    ensures d.settings.None? ==> g.brandColor == f.brandColor && g.taxRate == f.taxRate
    ensures d.settings.Some? ==> g.taxRate.Some? && g.discountValue.Some?
  {
    var f1 := if d.business.Some? then f.(business := d.business.value) else f;
    var f2 := if d.client.Some? then f1.(client := d.client.value) else f1;
    var f3 := if d.meta.Some? then
                var m := d.meta.value;
                f2.(invoiceDate := OrElse(m.dateRaw, parseDate(m.date)), dueDate := OrElse(m.dueDateRaw, parseDate(m.dueDate)),
                    terms := OrElse(m.terms, "Net 30"), currency := OrElse(m.currency, DefaultCurrency))
              else f2;
    var f4 := if d.invoiceNumber != "" then f3.(invoiceNumber := d.invoiceNumber) else f3;
    var f5 := if d.settings.Some? then
                var s := d.settings.value;
                f4.(brandColor := OrElse(s.brandColor, "#3b82f6"), taxRate := Some(Coerce(s.taxRate)),
                    discountType := OrElse(s.discountType, PercentDiscount), discountValue := Some(Coerce(s.discountValue)))
              else f4;
    f5.(notes := d.notes, paymentInstructions := d.paymentInstructions)
  }

  // ---------------------------------------------------------------------------
  // The page
  // ---------------------------------------------------------------------------

  class Page {
    var form: Form
    var cards: seq<Card>
    /** The totals displays' `dataset.raw` values, read back as numbers (0 until first written). */
    var raw: Totals
    var displays: Displays
    var preview: Paper
    /** The browser's date formatter. */
    const localeDate: string -> string

    /** The page before any of this module's functions ran. */
    constructor (initial: Form, localeDate: string -> string)
      ensures form == initial && cards == [] && raw == Totals(0.0, 0.0, 0.0, 0.0)
      ensures this.localeDate == localeDate
    {
      this.localeDate := localeDate;
      form := initial;
      cards := [];
      raw := Totals(0.0, 0.0, 0.0, 0.0);
      displays := Displays(Text(""), Text(""), Text(""), Text(""));
      preview := Paper(None, "", [], [], "", [], [], [], []);
    }

    /** The displays and their raw values follow from the cards and the settings. */
    predicate TotalsCurrent()
      reads this
    {
      AmountsCurrent(cards)
      && raw == ComputeTotals(Sum(AmountsOf(cards)), form.taxRate, form.discountType, form.discountValue)
      && displays == DisplaysOf(raw, form.currency)
    }

    /**
     * `calculateTotals`: every card stores and shows quantity times rate, the four displays and
     * their raw values are written, and a passed `state` gets the subtotal and the total only.
     */
    method CalculateTotals(state: State?)
      modifies this, state
      ensures cards == Recomputed(old(cards), form.currency) && TotalsCurrent()
      ensures form == old(form) && preview == old(preview)
      ensures state != null ==>
                state.subtotal == raw.subtotal && state.total == raw.total && state.logo == old(state.logo)
    {
      WriteTotals();
      if state != null {
        state.subtotal := raw.subtotal;
        state.total := raw.total;
      }
    }

    /** The page's part of `calculateTotals`: the loop over the cards, then the four displays. */
    method WriteTotals()
      modifies this
      ensures cards == Recomputed(old(cards), form.currency) && TotalsCurrent()
      ensures form == old(form) && preview == old(preview)
    {
      var cs, subtotal := RecomputeCards(cards, form.currency);
      var t := ComputeTotals(subtotal, form.taxRate, form.discountType, form.discountValue);
      cards := cs;
      raw := t;
      displays := DisplaysOf(t, form.currency);
    }

    /** What `gatherFormData` reads off the page now. */
    function Data(): InvoiceRecord
      reads this
    {
      Gather(form, cards, raw, displays, preview.logo, localeDate)
    }

    /**
     * `renderPaper` as the remove and input handlers reach it: with no `state` it fails on
     * `state.logo` before drawing, and the preview stays as it was.
     */
    method RenderPaperAsWritten(state: State?) returns (thrown: bool)
      modifies this
      ensures thrown <==> state == null
      ensures state == null ==> preview == old(preview)
      ensures state != null ==> preview == PaperOf(old(Data()), ShownLogo(state.logo))
      ensures form == old(form) && cards == old(cards) && raw == old(raw) && displays == old(displays)
    {
      if state == null {
        thrown := true;
      } else {
        preview := PaperOf(Data(), ShownLogo(state.logo));
        thrown := false;
      }
    }

    /** `renderPaper` with the `state` optional, as `calculateTotals` treats it: no state, no logo. */
    method RenderPaper(state: State?)
      modifies this
      ensures preview == PaperOf(old(Data()), if state == null then None else ShownLogo(state.logo))
      ensures form == old(form) && cards == old(cards) && raw == old(raw) && displays == old(displays)
    {
      preview := PaperOf(Data(), if state == null then None else ShownLogo(state.logo));
    }

    /** `updatePreview` as written: the totals, then the drawing, which fails without a `state`. */
    method UpdatePreviewAsWritten(state: State?) returns (thrown: bool)
      modifies this, state
      ensures cards == Recomputed(old(cards), form.currency) && TotalsCurrent()
      ensures thrown <==> state == null
      ensures state == null ==> preview == old(preview)
      ensures form == old(form)
    {
      CalculateTotals(state);
      thrown := RenderPaperAsWritten(state);
    }

    /** `updatePreview` with the optional `state` honoured: the totals, then a fresh drawing. */
    method UpdatePreview(state: State?)
      modifies this, state
      ensures cards == Recomputed(old(cards), form.currency) && TotalsCurrent()
      ensures preview == PaperOf(Gather(form, cards, raw, displays, old(preview).logo, localeDate),
                                 if state == null then None else ShownLogo(state.logo))
      ensures form == old(form)
    {
      CalculateTotals(state);
      RenderPaper(state);
    }

    /** `addItem`: a new card at the end; nothing is recomputed or redrawn. */
    method AddItem()
      modifies this
      ensures cards == old(cards) + [NewCard]
      ensures form == old(form) && raw == old(raw) && displays == old(displays) && preview == old(preview)
    {
      cards := cards + [NewCard];
    }

    /**
     * The remove button as written: refused with a toast while one card is left; otherwise the
     * card goes and `updatePreview()` runs without a `state`, so the totals are recomputed but
     * the drawing fails and the preview still shows the removed card.
     */
    method RemoveItemAsWritten(i: nat) returns (toast: Option<string>, thrown: bool)
      requires i < |cards|
      modifies this
      ensures |old(cards)| <= 1 ==> toast == Some("Keep at least one item") && !thrown && unchanged(this)
      ensures |old(cards)| > 1 ==>
                toast == None && thrown && preview == old(preview)
                && cards == Recomputed(old(cards)[..i] + old(cards)[i + 1..], form.currency) && TotalsCurrent()
    {
      if |cards| > 1 {
        cards := cards[..i] + cards[i + 1..];
        thrown := UpdatePreviewAsWritten(null);
        toast := None;
      } else {
        toast, thrown := Some("Keep at least one item"), false;
      }
    }

    /**
     * The remove button with the preview redrawn from the page's `state`, as the editor's own
     * listeners call `updatePreview(state)`: the totals and the preview follow the remaining
     * cards, and the logo stays drawn.
     */
    method RemoveItem(i: nat, state: State) returns (toast: Option<string>)
      requires i < |cards|
      modifies this, state
      ensures |old(cards)| <= 1 ==> toast == Some("Keep at least one item") && unchanged(this) && unchanged(state)
      ensures |old(cards)| > 1 ==>
                toast == None && cards == Recomputed(old(cards)[..i] + old(cards)[i + 1..], form.currency)
                && TotalsCurrent()
                && preview == PaperOf(Gather(form, cards, raw, displays, old(preview).logo, localeDate), ShownLogo(state.logo))
      ensures |cards| >= 1 && form == old(form)
    {
      if |cards| > 1 {
        cards := cards[..i] + cards[i + 1..];
        UpdatePreview(state);
        toast := None;
      } else {
        toast := Some("Keep at least one item");
      }
    }

    /**
     * `fillFormWithData`: nothing without data; otherwise the form as `FilledForm` gives it and
     * the cards rebuilt from the saved items, or one new card when there are none.
     */
    method FillFormWithData(data: Option<FillData>, parseDate: string -> string)
      modifies this
      ensures data.None? ==> unchanged(this)
      ensures data.Some? ==>
                form == FilledForm(old(form), data.value, parseDate)
                && cards == (if data.value.items == [] then [NewCard] else FilledCards(data.value.items))
      ensures raw == old(raw) && displays == old(displays) && preview == old(preview)
    {
      if data.None? {
        return;
      }
      var d := data.value;
      form := FilledForm(form, d, parseDate);
      ghost var filled := form;
      cards := [];
      FillCards(d.items);
      assert form == filled;
    }

    /** The cards `fillFormWithData` adds: one per saved item, or a single blank card when there are none. */
    method FillCards(items: seq<LineItem>)
      modifies this
      requires cards == []
      ensures cards == (if items == [] then [NewCard] else FilledCards(items))
      ensures form == old(form) && raw == old(raw) && displays == old(displays) && preview == old(preview)
    {
      if |items| > 0 {
        var i := 0;
        while i < |items|
          invariant 0 <= i <= |items|
          invariant cards == FilledCards(items[..i])
          invariant form == old(form) && raw == old(raw) && displays == old(displays) && preview == old(preview)
        {
          assert items[..i + 1][..i] == items[..i];
          AddItem();
          cards := cards[|cards| - 1 := NewCard.(item := FilledItem(items[i]))];
          i := i + 1;
        }
        assert items[..i] == items;
      } else {
        AddItem();
      }
    }
  }

  // ---------------------------------------------------------------------------
  // Properties
  // ---------------------------------------------------------------------------

  /** After the loop every amount is current, and amounts that were already current are unchanged. */
  lemma RecomputedAmounts(cards: seq<Card>, currency: string)
    ensures AmountsCurrent(Recomputed(cards, currency))
    ensures AmountsCurrent(cards) ==> AmountsOf(Recomputed(cards, currency)) == AmountsOf(cards)
  {
    var r := Recomputed(cards, currency);
    if AmountsCurrent(cards) {
      assert forall k :: 0 <= k < |cards| ==> AmountsOf(r)[k] == AmountsOf(cards)[k];
    }
  }

  /**
   * Both editors agree: the subtotal this loop computes is the one app.js sums from cards whose
   * amounts are current, so the two give the same totals.
   */
  lemma SameTotalsAsApp(cards: seq<Card>, currency: string, taxRate: Option<real>, discountType: string, discountValue: Option<real>)
    requires AmountsCurrent(cards)
    ensures ComputeTotals(Sum(AmountsOf(Recomputed(cards, currency))), taxRate, discountType, discountValue)
            == ComputeTotals(Sum(AmountsOf(cards)), taxRate, discountType, discountValue)
  {
    RecomputedAmounts(cards, currency);
  }

  /**
   * A gathered record is a draft, has one item per card in card order, and each item's amount
   * is the coerced quantity times the coerced rate; when the totals are current its amounts add
   * up to the recorded subtotal.
   */
  lemma GatherItems(form: Form, cards: seq<Card>, raw: Totals, displays: Displays, logo: Option<string>,
                    localeDate: string -> string)
    ensures var r := Gather(form, cards, raw, displays, logo, localeDate);
            r.status == "Draft" && |r.items| == |cards|
            && (forall k :: 0 <= k < |cards| ==>
                  r.items[k].amount == LineAmount(cards[k].item.qty, cards[k].item.rate)
                  && r.items[k].qty == Coerce(cards[k].item.qty) && r.items[k].desc == cards[k].item.desc)
            && (AmountsCurrent(cards) && raw.subtotal == Sum(AmountsOf(cards)) ==> Sum(ItemAmounts(r.items)) == r.totals.subtotal)
  {
    var r := Gather(form, cards, raw, displays, logo, localeDate);
    assert r.items == GatheredItems(cards);
    GatheredAmounts(cards);
  }

  /** Each gathered item's amount is its card's quantity times rate; with current cards, the cards' amounts. */
  lemma GatheredAmounts(cards: seq<Card>)
    ensures var items := GatheredItems(cards);
            (forall k :: 0 <= k < |cards| ==> items[k].amount == LineAmount(cards[k].item.qty, cards[k].item.rate))
            && (AmountsCurrent(cards) ==> ItemAmounts(items) == AmountsOf(cards))
  {
    var items := GatheredItems(cards);
    forall k | 0 <= k < |cards|
      ensures items[k].amount == LineAmount(cards[k].item.qty, cards[k].item.rate)
    {
      assert items[k] == GatheredItem(cards[k]);
    }
    if AmountsCurrent(cards) {
      var amounts := ItemAmounts(items);
      assert forall k :: 0 <= k < |cards| ==> amounts[k] == AmountsOf(cards)[k];
    }
  }

  /**
   * Gathering then filling gives back the form and the cards' inputs, when every setting is
   * filled in and no quantity is zero.
   */
  lemma GatherFillRoundTrip(form: Form, cards: seq<Card>, raw: Totals, displays: Displays, logo: Option<string>,
                            localeDate: string -> string, parseDate: string -> string, before: Form)
    requires form.invoiceNumber != "" && form.invoiceDate != "" && form.dueDate != ""
    requires form.terms != "" && form.currency != "" && form.brandColor != "" && form.discountType != ""
    requires form.taxRate.Some? && form.discountValue.Some?
    requires forall k :: 0 <= k < |cards| ==>
               cards[k].item.qty.Some? && cards[k].item.qty.value != 0.0 && cards[k].item.rate.Some?
    ensures var d := FillDataOf(Gather(form, cards, raw, displays, logo, localeDate));
            FilledForm(before, d, parseDate) == form
            && |FilledCards(d.items)| == |cards|
            && forall k :: 0 <= k < |cards| ==> FilledCards(d.items)[k].item == cards[k].item
  {
    var d := FillDataOf(Gather(form, cards, raw, displays, logo, localeDate));
    assert forall k :: 0 <= k < |cards| ==> FilledCards(d.items)[k].item == FilledItem(GatheredItem(cards[k]));
  }

  /**
   * The totals block: Subtotal first and Total Due last; Tax exactly when there is tax, under a
   * plain label; Discount exactly when there is a discount, and then it shows "undefined".
   */
  lemma PaperTotalsShape(t: RecordTotals)
    ensures var rows := PaperTotals(t);
            rows[0] == Row(Plain("Subtotal"), t.subtotalDisplay)
            && rows[|rows| - 1] == Row(Plain("Total Due"), t.totalDisplay)
            && !HasTaxRow(rows)
            && (HasLabel(rows, Plain("Tax")) <==> t.taxAmount > 0.0)
            && (HasLabel(rows, Plain("Discount")) <==> t.discountAmount > 0.0)
            && (t.discountAmount > 0.0 ==> rows[|rows| - 2] == Row(Plain("Discount"), Undefined))
  {
    var rows := PaperTotals(t);
    assert "Subtotal"[0] != "Tax"[0] && "Total Due"[1] != "Tax"[1] && "Discount"[0] != "Tax"[0];
    assert "Subtotal"[0] != "Discount"[0] && "Total Due"[0] != "Discount"[0];
    if t.taxAmount > 0.0 {
      assert rows[1].title == Plain("Tax");
    }
    if t.discountAmount > 0.0 {
      assert rows[|rows| - 2].title == Plain("Discount");
    }
  }

  /**
   * The preview's content: the fallback company name, every address line even when blank (an
   * empty address still gives one empty line), the four meta rows, and one item per record item
   * with its details in order and its amount as displayed.
   */
  lemma PaperContent(data: InvoiceRecord, logo: Option<string>, k: nat)
    requires k < |data.items|
    ensures var p := PaperOf(data, logo);
            p.companyName == (if data.business.name == "" then "Your Company" else data.business.name)
            && |p.companyDetails| >= 1
            && p.companyDetails[..|Split(data.business.address, '\n')|] == Split(data.business.address, '\n')
            && (data.business.address == "" && data.business.email == "" && data.business.phone == "" ==> p.companyDetails == [""])
            && |p.meta| == 4 && p.meta[3] == Row(Plain("Amount Due"), data.totals.totalDisplay)
            && |p.items| == |data.items|
            && p.items[k].amount == data.items[k].amountDisplay
            && (p.items[k].details == [] <==>
                  data.items[k].client == "" && data.items[k].consultant == "" && data.items[k].period == "" && data.items[k].notes == "")
            && (data.items[k].client != "" ==> p.items[k].details[0] == "Client: " + data.items[k].client)
  {
    var lines := Split(data.business.address, '\n');
    var p := PaperOf(data, logo);
    assert p.companyDetails == lines + (IfPresent(data.business.email) + IfPresent(data.business.phone));
    if data.business.address == "" {
      assert Split("", '\n') == [""];
    }
  }
}
