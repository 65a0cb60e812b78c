/**
 * The single-page editor of app.js: the form and its item cards, the totals the editor keeps
 * in its `state` object, the browser-storage dictionaries of saved invoices and templates with
 * the local invoice counter, and what the HTML preview and the PDF show.
 */
module App {
  import opened Wrappers
  import opened Strings
  import opened Money
  import opened Html
  import opened Totals
  import opened Records
  import opened Render
  import opened Numbering
  import opened Dates

  // ---------------------------------------------------------------------------
  // Browser storage
  // ---------------------------------------------------------------------------

  /** An invoice as `handleSave` writes it: every input as read, quantities and rates as input text. */
  datatype SavedInvoice = SavedInvoice(
    business: Party, logo: Option<string>, client: Party,
    number: string, date: string, dueDate: string, terms: string, currency: string,
    brandColor: string, taxRate: Option<real>, discountType: string, discountValue: Option<real>,
    items: seq<ItemInputs>, notes: string, paymentInstructions: string, savedAt: string)

  /** A template as `saveAsTemplate` writes it: both parties and four settings, under a trimmed name. */
  datatype Template = Template(
    name: string, business: Party, logo: Option<string>, client: Party,
    brandColor: string, currency: string, terms: string, taxRate: Option<real>, createdAt: string)

  /** The key `handleSave` uses when the invoice number is empty. */
  const DraftKey: string := "INV-DRAFT"

  /** The three localStorage entries of the editor. */
  class LocalStore {
    var savedInvoices: map<string, SavedInvoice>
    var templates: map<string, Template>
    /** `lastInvoiceNumber`; None while it was never written. */
    var lastInvoiceNumber: Option<nat>

    constructor (saved: map<string, SavedInvoice>, templates: map<string, Template>, last: Option<nat>)
      ensures savedInvoices == saved && this.templates == templates && lastInvoiceNumber == last
    {
      savedInvoices := saved;
      this.templates := templates;
      lastInvoiceNumber := last;
    }
  }

  /** The card inputs in card order. */
  function ItemsOf(cards: seq<Card>): (items: seq<ItemInputs>)
    ensures |items| == |cards| && forall i :: 0 <= i < |cards| ==> items[i] == cards[i].item
  {
    if cards == [] then []
    else
      var init := cards[..|cards| - 1];
      assert forall i :: 0 <= i < |init| ==> init[i] == cards[i];
      ItemsOf(init) + [cards[|cards| - 1].item]
  }

  /** What `handleSave` stores under `key`. */
  function SaveRecord(form: Form, cards: seq<Card>, logo: Option<string>, key: string, savedAt: string): SavedInvoice
  {
    SavedInvoice(form.business, logo, form.client, key, form.invoiceDate, form.dueDate, form.terms, form.currency,
                 form.brandColor, form.taxRate, form.discountType, form.discountValue, ItemsOf(cards),
                 form.notes, form.paymentInstructions, savedAt)
  }

  /** `logo || null`: an empty logo is no logo. */
  function Truthy(logo: Option<string>): Option<string>
  {
    if logo == Some("") then None else logo
  }

  /** `x || 0` written back into a number input: an empty input comes back as 0. */
  function ZeroIfEmpty(v: Option<real>): Option<real>
  {
    Some(Coerce(v))
  }

  /** The form `loadInvoice` fills in from a saved invoice, with its defaults for empty settings. */
  function LoadedForm(d: SavedInvoice): (f: Form)
    ensures f.business == d.business && f.client == d.client && f.invoiceNumber == d.number
    ensures f.terms != "" && f.currency != "" && f.brandColor != "" && f.discountType != ""
    ensures f.taxRate.Some? && f.discountValue.Some?
    ensures d.currency != "" ==> f.currency == d.currency
    ensures d.taxRate.Some? ==> f.taxRate == d.taxRate
    ensures d.discountValue.Some? ==> f.discountValue == d.discountValue
  {
    Form(d.business, d.client, d.number, d.date, d.dueDate, OrElse(d.terms, "Net 30"), OrElse(d.currency, DefaultCurrency),
         OrElse(d.brandColor, "#2563eb"), ZeroIfEmpty(d.taxRate), OrElse(d.discountType, PercentDiscount),
         ZeroIfEmpty(d.discountValue), d.notes, d.paymentInstructions)
  }

  /** A saved item as `loadInvoice` refills a card: an empty quantity comes back as 1, an empty rate as 0. */
  function ReloadItem(saved: ItemInputs): (r: ItemInputs)
    ensures r.qty.Some? && r.rate.Some?
    ensures saved.qty.Some? ==> r.qty == saved.qty
    ensures saved.rate.Some? ==> r.rate == saved.rate
    ensures saved.qty.None? ==> r.qty == Some(1.0)
    ensures saved.rate.None? ==> r.rate == Some(0.0)
    ensures r.desc == saved.desc && r.client == saved.client && r.consultant == saved.consultant
            && r.period == saved.period && r.notes == saved.notes
  {
    saved.(qty := Some(saved.qty.GetOr(1.0)), rate := Some(saved.rate.GetOr(0.0)))
  }

  /** One refilled card per saved item, in order. */
  function ReloadedCards(items: seq<ItemInputs>, currency: string): (cards: seq<Card>)
    ensures |cards| == |items|
    ensures forall i :: 0 <= i < |items| ==> cards[i] == CardFor(ReloadItem(items[i]), currency)
  {
    if items == [] then []
    else
      var init := items[..|items| - 1];
      assert forall i :: 0 <= i < |init| ==> init[i] == items[i];
      ReloadedCards(init, currency) + [CardFor(ReloadItem(items[|items| - 1]), currency)]
  }

  /** The cards `loadInvoice` leaves: the refilled ones, or a single blank card when nothing was saved. */
  function LoadedCards(items: seq<ItemInputs>, currency: string): seq<Card>
  {
    if items == [] then [CardFor(BlankItem, currency)] else ReloadedCards(items, currency)
  }

  /** What `saveAsTemplate` stores: the trimmed name, both parties, the logo and four settings. */
  function TemplateOf(name: string, form: Form, logo: Option<string>, createdAt: string): Template
  {
    Template(name, form.business, logo, form.client, form.brandColor, form.currency, form.terms, form.taxRate, createdAt)
  }

  /**
   * The form after `loadTemplate`: parties and four settings from the template (with their
   * defaults), a fresh number and dates; discount, notes and payment instructions stay.
   */
  function TemplateForm(f: Form, t: Template, number: string, today: string, in30Days: string): (g: Form)
    ensures g.business == t.business && g.client == t.client
    ensures g.invoiceNumber == number && g.invoiceDate == today && g.dueDate == in30Days
    ensures g.currency != "" && g.terms != "" && g.taxRate.Some?
    ensures g.discountType == f.discountType && g.discountValue == f.discountValue
    ensures g.notes == f.notes && g.paymentInstructions == f.paymentInstructions
  {
    f.(business := t.business, client := t.client, brandColor := OrElse(t.brandColor, "#000000"),
       currency := OrElse(t.currency, DefaultCurrency), terms := OrElse(t.terms, "Net 30"),
       taxRate := ZeroIfEmpty(t.taxRate), invoiceNumber := number, invoiceDate := today, dueDate := in30Days)
  }

  // ---------------------------------------------------------------------------
  // What the preview and the PDF show
  // ---------------------------------------------------------------------------

  /**
   * The totals block of both the preview and the PDF: Subtotal, then Tax only when there is
   * tax, Discount (with a '-') only when there is a discount, then Amount Due.
   */
  function TotalsRows(t: Totals, taxRate: Option<real>, currency: string): (rows: seq<Row>)
    ensures |rows| == 2 + (if t.taxAmount > 0.0 then 1 else 0) + (if t.discountAmount > 0.0 then 1 else 0)
    ensures rows[0] == Row(Plain("Subtotal"), Currency(t.subtotal, currency))
    ensures rows[|rows| - 1] == Row(Plain("Amount Due"), Currency(t.total, currency))
  {
    [Row(Plain("Subtotal"), Currency(t.subtotal, currency))]
    + (if t.taxAmount > 0.0 then [Row(TaxOf(taxRate, ")"), Currency(t.taxAmount, currency))] else [])
    + (if t.discountAmount > 0.0 then [Row(Plain("Discount"), NegCurrency(t.discountAmount, currency))] else [])
    + [Row(Plain("Amount Due"), Currency(t.total, currency))]
  }

  /** A party's details in the preview: escaped address (line breaks kept), email and phone, each only when present. */
  function PartyDetails(p: Party): seq<string>
  {
    IfPresent(Escape(p.address)) + IfPresent(Escape(p.email)) + IfPresent(Escape(p.phone))
  }

  /** One item of the preview. */
  function PreviewItem(c: Card, currency: string): PaperItem
  {
    var it := c.item;
    PaperItem(Escape(OrElse(it.desc, "Item")), Details(it.client, it.consultant, it.period, it.notes, LongLabels, Escape),
              Number(Coerce(it.qty)), Currency(Coerce(it.rate), currency), Currency(c.amount, currency))
  }

  /** The preview's items, one per card in card order. */
  function PreviewItems(cards: seq<Card>, currency: string): (r: seq<PaperItem>)
    ensures |r| == |cards| && forall i :: 0 <= i < |cards| ==> r[i] == PreviewItem(cards[i], currency)
  {
    if cards == [] then []
    else
      var init := cards[..|cards| - 1];
      assert forall i :: 0 <= i < |init| ==> init[i] == cards[i];
      PreviewItems(init, currency) + [PreviewItem(cards[|cards| - 1], currency)]
  }

  /** What `updatePreview` renders from the form, the cards, the logo and the totals. */
  function PreviewPaper(form: Form, cards: seq<Card>, logo: Option<string>, t: Totals, localeDate: string -> string): (p: Paper)
  {
    var cur := form.currency;
    Paper(
      if Truthy(logo).Some? then Some(Escape(logo.value)) else None,
      Escape(OrElse(form.business.name, "Your Company Name")),
      PartyDetails(form.business),
      [Row(Plain("Invoice #"), Text(Escape(form.invoiceNumber))),
       Row(Plain("Date"), Text(Escape(FormatDate(form.invoiceDate, localeDate)))),
       Row(Plain("Due Date"), Text(Escape(FormatDate(form.dueDate, localeDate)))),
       Row(Plain("Amount Due"), Currency(t.total, cur))],
      Escape(OrElse(form.client.name, "Client Name")),
      PartyDetails(form.client),
      PreviewItems(cards, cur),
      NotesRows(form.notes, form.paymentInstructions),
      TotalsRows(t, form.taxRate, cur))
  }

  /** The lines that are not blank once trimmed, in order. */
  function NonBlankLines(lines: seq<string>): seq<string>
  {
    if lines == [] then []
    else (if Trim(lines[0]) != "" then [lines[0]] else []) + NonBlankLines(lines[1..])
  }

  /** Exactly the lines that are not blank are kept. */
  lemma {:induction false} NonBlankLinesKeep(lines: seq<string>)
    ensures |NonBlankLines(lines)| <= |lines|
    ensures forall x :: x in NonBlankLines(lines) ==> x in lines && Trim(x) != ""
    ensures forall x :: x in lines && Trim(x) != "" ==> x in NonBlankLines(lines)
  {
    if lines != [] {
      var head := if Trim(lines[0]) != "" then [lines[0]] else [];
      var tail := lines[1..];
      NonBlankLinesKeep(tail);
      assert NonBlankLines(lines) == head + NonBlankLines(tail);
      forall x | x in lines && Trim(x) != ""
        ensures x in NonBlankLines(lines)
      {
        var i :| 0 <= i < |lines| && lines[i] == x;
        if i > 0 {
          assert tail[i - 1] == x;
        }
      }
    }
  }

  /** A party's lines in the PDF; the client's address lines skip blank ones, the business's do not. */
  function PdfPartyLines(p: Party, skipBlank: bool): seq<string>
  {
    (if p.address == "" then [] else if skipBlank then NonBlankLines(Split(p.address, '\n')) else Split(p.address, '\n'))
    + IfPresent(p.email) + IfPresent(p.phone)
  }

  /** One row of the PDF table: description with details, the quantity's input text, rate and amount. */
  function PdfRow(c: Card, currency: string): seq<Value>
  {
    var it := c.item;
    [Text(FullDesc(OrElse(it.desc, "Item"), Details(it.client, it.consultant, it.period, it.notes, LongLabels, Verbatim))),
     InputText(it.qty), Currency(Coerce(it.rate), currency), Currency(c.amount, currency)]
  }

  /** The PDF table body, one row per card in card order. */
  function PdfRows(cards: seq<Card>, currency: string): (r: seq<seq<Value>>)
    ensures |r| == |cards| && forall i :: 0 <= i < |cards| ==> r[i] == PdfRow(cards[i], currency)
  {
    if cards == [] then []
    else
      var init := cards[..|cards| - 1];
      assert forall i :: 0 <= i < |init| ==> init[i] == cards[i];
      PdfRows(init, currency) + [PdfRow(cards[|cards| - 1], currency)]
  }

  /** What `generatePDF` draws; `logoLoads` says whether the image library accepts the logo. */
  function AppPdf(form: Form, cards: seq<Card>, logo: Option<string>, t: Totals, localeDate: string -> string, logoLoads: bool): (d: PdfDoc)
    ensures d.logo <==> logo.Some? && logo.value != "" && logoLoads
    ensures d.table.Some? && |d.table.value| == |cards|
    ensures d.notes == [] <==> form.notes == ""
    ensures |d.totals| >= 2 && d.totals[|d.totals| - 1] == Row(Plain("Amount Due"), Currency(t.total, form.currency))
  {
    var cur := form.currency;
    PdfDoc(
      Truthy(logo).Some? && logoLoads,
      OrElse(form.business.name, "Your Company"),
      PdfPartyLines(form.business, false),
      [Row(Plain("Invoice #"), Text(form.invoiceNumber)),
       Row(Plain("Date"), Text(FormatDate(form.invoiceDate, localeDate))),
       Row(Plain("Due Date"), Text(FormatDate(form.dueDate, localeDate))),
       Row(Plain("Terms"), Text(form.terms))],
      OrElse(form.client.name, "Client Name"),
      PdfPartyLines(form.client, true),
      Some(PdfRows(cards, cur)),
      TotalsRows(t, form.taxRate, cur),
      if form.notes != "" then [Row(Plain("NOTES"), Text(form.notes))] else [],
      "Invoice_" + form.invoiceNumber + ".pdf")
  }

  /** The loop of `calculateTotals`: the stored card amounts added up, first card first. */
  method SumAmounts(cards: seq<Card>) returns (s: real)
    ensures s == Sum(AmountsOf(cards))
  {
    s := 0.0;
    var i := 0;
    while i < |cards|
      invariant 0 <= i <= |cards|
      invariant s == Sum(AmountsOf(cards[..i]))
    {
      assert cards[..i + 1][..i] == cards[..i];
      s := s + cards[i].amount;
      i := i + 1;
    }
    assert cards[..|cards|] == cards;
  }

  /** The preview shown before the first render. */
  const BlankPaper: Paper := Paper(None, "", [], [], "", [], [], [], [])

  // ---------------------------------------------------------------------------
  // The editor
  // ---------------------------------------------------------------------------

  /** The page of app.js: form inputs, item cards, the `state` totals, the totals displays and the preview. */
  class Editor {
    var form: Form
    var cards: seq<Card>
    var logo: Option<string>
    var subtotal: real
    var taxAmount: real
    var discountAmount: real
    var total: real
    var displays: Displays
    var preview: Paper
    /** The browser's date formatter. */
    const localeDate: string -> string
    /** The form's inputs as the page declares them, which `form.reset()` brings back. */
    const initial: Form

    function Figures(): Totals
      reads this
    {
      Totals(subtotal, taxAmount, discountAmount, total)
    }

    /** The `state` totals and the displays follow from the cards and the settings now in the form. */
    predicate TotalsCurrent()
      reads this
    {
      Figures() == ComputeTotals(Sum(AmountsOf(cards)), form.taxRate, form.discountType, form.discountValue)
      && displays == DisplaysOf(Figures(), form.currency)
    }

    /** At least one card, every card stores quantity times rate, and the totals are current. */
    predicate Valid()
      reads this
    {
      |cards| >= 1 && AmountsCurrent(cards) && TotalsCurrent()
    }

    /** The preview shows the current state. */
    predicate Shown()
      reads this
    {
      preview == PreviewPaper(form, cards, logo, Figures(), localeDate)
    }

    /** The page as loaded, before `init` runs: the form's initial inputs, no cards, no logo, zero totals. */
    constructor (initial: Form, localeDate: string -> string)
      ensures form == initial && cards == [] && logo == None && Figures() == Totals(0.0, 0.0, 0.0, 0.0)
      ensures this.localeDate == localeDate && this.initial == initial
    {
      this.localeDate := localeDate;
      this.initial := initial;
      form := initial;
      cards := [];
      logo := None;
      subtotal, taxAmount, discountAmount, total := 0.0, 0.0, 0.0, 0.0;
      displays := Displays(Text(""), Text(""), Text(""), Text(""));
      preview := BlankPaper;
    }

    /**
     * `init`: default dates, the next local number, one blank card, then a first render. The
     * dates and the number are different inputs, so setting the number first changes nothing.
     */
    method Init(today: string, in30Days: string, store: LocalStore)
      modifies this, store
      ensures store.lastInvoiceNumber == Some(old(store.lastInvoiceNumber).GetOr(0) + 1)
      ensures store.savedInvoices == old(store.savedInvoices) && store.templates == old(store.templates)
      ensures form == old(form).(invoiceDate := today, dueDate := in30Days,
                                 invoiceNumber := InvoiceNumber(old(store.lastInvoiceNumber).GetOr(0) + 1))
      ensures cards == [CardFor(BlankItem, form.currency)] && logo == old(logo)
      ensures Valid() && Shown()
    {
      SetDefaultInvoiceNumber(store);
      StartOver(today, in30Days);
    }

    /** `setDefaultDates`: today and thirty days on, as the browser's clock gives them. */
    method SetDefaultDates(today: string, in30Days: string)
      modifies this
      ensures form == old(form).(invoiceDate := today, dueDate := in30Days)
      ensures cards == old(cards) && logo == old(logo) && Figures() == old(Figures())
      ensures displays == old(displays) && preview == old(preview)
    {
      form := form.(invoiceDate := today, dueDate := in30Days);
    }

    /** `setDefaultInvoiceNumber`: the stored counter (0 when absent) plus one, padded, and the counter moves on. */
    method SetDefaultInvoiceNumber(store: LocalStore)
      modifies this, store
      ensures store.lastInvoiceNumber == Some(old(store.lastInvoiceNumber).GetOr(0) + 1)
      ensures store.savedInvoices == old(store.savedInvoices) && store.templates == old(store.templates)
      ensures form == old(form).(invoiceNumber := InvoiceNumber(store.lastInvoiceNumber.value))
      ensures cards == old(cards) && logo == old(logo) && Figures() == old(Figures())
      ensures displays == old(displays) && preview == old(preview)
    {
      var next := store.lastInvoiceNumber.GetOr(0) + 1;
      form := form.(invoiceNumber := InvoiceNumber(next));
      store.lastInvoiceNumber := Some(next);
    }

    /** `calculateTotals`: sums the stored card amounts and writes the four totals and their displays. */
    method CalculateTotals()
      modifies this
      ensures TotalsCurrent()
      ensures form == old(form) && cards == old(cards) && logo == old(logo) && preview == old(preview)
    {
      var s := SumAmounts(cards);
      WriteFigures(ComputeTotals(s, form.taxRate, form.discountType, form.discountValue));
    }

    /** The four `state` totals and their displays written from `t`; nothing else changes. */
    method WriteFigures(t: Totals)
      modifies this
      ensures Figures() == t && displays == DisplaysOf(t, form.currency)
      ensures form == old(form) && cards == old(cards) && logo == old(logo) && preview == old(preview)
    {
      subtotal, taxAmount, discountAmount, total := t.subtotal, t.taxAmount, t.discountAmount, t.total;
      displays := DisplaysOf(t, form.currency);
    }

    /** `updateItemAmount`: the card stores quantity times rate and shows it in the current currency. */
    method UpdateItemAmount(i: nat)
      requires i < |cards|
      modifies this
      ensures cards == old(cards)[i := CardFor(old(cards)[i].item, form.currency)]
      ensures form == old(form) && logo == old(logo) && Figures() == old(Figures())
      ensures displays == old(displays) && preview == old(preview)
    {
      cards := cards[i := CardFor(cards[i].item, form.currency)];
    }

    /**
     * `addItem`: appends a blank card (quantity 1, rate 0) and computes its amount. Its amount
     * is 0, so the totals stay current without being recomputed; the preview is not redrawn.
     */
    method AddItem()
      modifies this
      ensures cards == old(cards) + [CardFor(BlankItem, form.currency)]
      ensures form == old(form) && logo == old(logo) && Figures() == old(Figures())
      ensures displays == old(displays) && preview == old(preview)
      ensures old(Valid()) ==> Valid()
    {
      cards := cards + [Card(BlankItem, 0.0, InitialAmountText)];
      UpdateItemAmount(|cards| - 1);
      assert cards[..|cards| - 1] == old(cards);
      AppendCurrentCard(old(cards), CardFor(BlankItem, form.currency));
    }

    /** `updatePreview`: recomputes the totals, then renders the preview from the current state. */
    method UpdatePreview()
      modifies this
      ensures TotalsCurrent() && Shown()
      ensures form == old(form) && cards == old(cards) && logo == old(logo)
    {
      CalculateTotals();
      preview := PreviewPaper(form, cards, logo, Figures(), localeDate);
    }

    /** A change to any form input outside the cards: the new values, then `updatePreview`. */
    method EditForm(f: Form)
      modifies this
      ensures form == f && cards == old(cards) && logo == old(logo)
      ensures TotalsCurrent() && Shown()
    {
      form := f;
      UpdatePreview();
    }

    /**
     * An input event on card `i`: its new inputs and the amount `updateItemAmount` stores for
     * them, then `calculateTotals` and `updatePreview`.
     */
    method EditItem(i: nat, item: ItemInputs)
      requires i < |cards|
      modifies this
      ensures cards == old(cards)[i := CardFor(item, form.currency)]
      ensures form == old(form) && logo == old(logo)
      ensures TotalsCurrent() && Shown()
      ensures old(AmountsCurrent(cards)) ==> AmountsCurrent(cards)
    {
      var c := CardFor(item, form.currency);
      ReplaceCurrentCard(cards, i, c);
      cards := cards[i := c];
      UpdatePreview();
    }

    /**
     * The remove button of card `i`: refused with a toast while it is the only card; otherwise
     * the card goes, the totals are recomputed and the preview redrawn.
     */
    method RemoveItem(i: nat) returns (toast: Option<string>)
      requires i < |cards|
      modifies this
      ensures |old(cards)| <= 1 ==> toast == Some("At least one item is required") && unchanged(this)
      ensures |old(cards)| > 1 ==>
                toast == None && cards == old(cards)[..i] + old(cards)[i + 1..]
                && form == old(form) && logo == old(logo) && TotalsCurrent() && Shown()
      ensures |cards| >= 1 <==> |old(cards)| >= 1
      ensures old(AmountsCurrent(cards)) ==> AmountsCurrent(cards)
    {
      if |cards| > 1 {
        RemoveCurrentCard(cards, i);
        cards := cards[..i] + cards[i + 1..];
        UpdatePreview();
        toast := None;
      } else {
        toast := Some("At least one item is required");
      }
    }

    /** `generatePDF`: the document drawn from the current state. */
    method GeneratePdf(logoLoads: bool) returns (doc: PdfDoc)
      ensures doc == AppPdf(form, cards, logo, Figures(), localeDate, logoLoads)
    {
      doc := AppPdf(form, cards, logo, Figures(), localeDate, logoLoads);
    }

    /** `handleSave`: stores the form under its invoice number, or "INV-DRAFT", replacing any earlier entry. */
    method Save(store: LocalStore, savedAt: string) returns (key: string)
      modifies store
      ensures key == OrElse(form.invoiceNumber, DraftKey)
      ensures store.savedInvoices == old(store.savedInvoices)[key := SaveRecord(form, cards, logo, key, savedAt)]
      ensures store.templates == old(store.templates) && store.lastInvoiceNumber == old(store.lastInvoiceNumber)
    {
      key := OrElse(form.invoiceNumber, DraftKey);
      store.savedInvoices := store.savedInvoices[key := SaveRecord(form, cards, logo, key, savedAt)];
    }

    /** One step of `loadInvoice`'s item loop: `addItem`, the saved inputs, `updateItemAmount`. */
    method AppendCard(item: ItemInputs)
      modifies this
      ensures cards == old(cards) + [CardFor(item, form.currency)]
      ensures form == old(form) && logo == old(logo)
    {
      AddItem();
      var last := |cards| - 1;
      cards := cards[last := cards[last].(item := item)];
      UpdateItemAmount(last);
    }

    /**
     * `loadInvoice`: an empty name does nothing, an unknown one only shows a toast; otherwise the
     * form, the logo and the cards are refilled, the totals recomputed and the preview redrawn.
     */
    method LoadInvoice(store: LocalStore, name: string) returns (toast: Option<string>)
      modifies this
      ensures name == "" ==> toast == None && unchanged(this)
      ensures name != "" && name !in store.savedInvoices ==> toast == Some("Invoice not found") && unchanged(this)
      ensures name != "" && name in store.savedInvoices ==>
                form == LoadedForm(store.savedInvoices[name]) && logo == Truthy(store.savedInvoices[name].logo)
                && cards == LoadedCards(store.savedInvoices[name].items, form.currency)
                && Valid() && Shown() && toast == Some("Loaded invoice \"" + name + "\"")
    {
      if name == "" {
        return None;
      }
      if name !in store.savedInvoices {
        return Some("Invoice not found");
      }
      LoadRecord(store.savedInvoices[name]);
      toast := Some("Loaded invoice \"" + name + "\"");
    }

    /** `loadInvoice` once the record `d` is found: form, logo and cards refilled, then `updatePreview`. */
    method LoadRecord(d: SavedInvoice)
      modifies this
      ensures form == LoadedForm(d) && logo == Truthy(d.logo) && cards == LoadedCards(d.items, form.currency)
      ensures Valid() && Shown()
    {
      form := LoadedForm(d);
      logo := Truthy(d.logo);
      cards := [];
      ghost var loaded := form;
      FillCards(d.items);
      UpdatePreview();
      assert form == loaded;
    }

    /** The saved items refilled as cards, or one blank card when there are none. */
    method FillCards(items: seq<ItemInputs>)
      modifies this
      requires cards == []
      ensures cards == LoadedCards(items, form.currency) && |cards| >= 1 && AmountsCurrent(cards)
      ensures form == old(form) && logo == old(logo)
    {
      if |items| > 0 {
        RefillCards(items);
      } else {
        AddItem();
      }
      LoadedCardsCurrent(items, form.currency);
    }

    /** The loop of `loadInvoice`: one card appended per saved item, filled from it. */
    method RefillCards(items: seq<ItemInputs>)
      modifies this
      requires cards == []
      ensures cards == ReloadedCards(items, form.currency)
      ensures form == old(form) && logo == old(logo)
    {
      var i := 0;
      while i < |items|
        invariant 0 <= i <= |items|
        invariant form == old(form) && logo == old(logo)
        invariant cards == ReloadedCards(items[..i], form.currency)
      {
        AppendCard(ReloadItem(items[i]));
        assert items[..i + 1][..i] == items[..i];
        i := i + 1;
      }
      assert items[..|items|] == items;
    }

    /**
     * `saveAsTemplate`: a cancelled prompt or a blank name does nothing; otherwise the template
     * is stored under the name as typed, carrying the trimmed name.
     */
    method SaveAsTemplate(store: LocalStore, answer: Option<string>, createdAt: string) returns (toast: Option<string>)
      modifies store
      ensures (answer.None? || Trim(answer.value) == "") ==> toast == None && unchanged(store)
      ensures answer.Some? && Trim(answer.value) != "" ==>
                store.templates == old(store.templates)[answer.value := TemplateOf(Trim(answer.value), form, logo, createdAt)]
                && store.savedInvoices == old(store.savedInvoices) && store.lastInvoiceNumber == old(store.lastInvoiceNumber)
                && toast == Some("Template \"" + answer.value + "\" saved successfully")
    {
      if answer.None? || Trim(answer.value) == "" {
        return None;
      }
      var name := answer.value;
      store.templates := store.templates[name := TemplateOf(Trim(name), form, logo, createdAt)];
      toast := Some("Template \"" + name + "\" saved successfully");
    }

    /**
     * `handleNew`: once confirmed, the form is reset to its initial inputs, the logo is dropped,
     * new dates and the next local number are set, and the cards are cleared down to one blank
     * card before the preview is redrawn. The number and the dates are different inputs, so
     * setting the number before the dates changes nothing.
     */
    method HandleNew(today: string, in30Days: string, store: LocalStore, confirmed: bool)
      returns (toast: Option<string>)
      modifies this, store
      ensures !confirmed ==> toast == None && unchanged(this) && unchanged(store)
      ensures confirmed ==> toast == Some("New invoice created")
      ensures confirmed ==> store.lastInvoiceNumber == Some(old(store.lastInvoiceNumber).GetOr(0) + 1)
      ensures store.savedInvoices == old(store.savedInvoices) && store.templates == old(store.templates)
      ensures confirmed ==> form == initial.(invoiceDate := today, dueDate := in30Days,
                                             invoiceNumber := InvoiceNumber(old(store.lastInvoiceNumber).GetOr(0) + 1))
      ensures confirmed ==> logo == None && cards == [CardFor(BlankItem, form.currency)]
      ensures confirmed ==> Valid() && Shown()
    {
      if confirmed {
        ghost var counter := Some(store.lastInvoiceNumber.GetOr(0) + 1);
        form := initial;
        logo := None;
        SetDefaultInvoiceNumber(store);
        assert store.lastInvoiceNumber == counter;
        StartOver(today, in30Days);
        assert store.lastInvoiceNumber == counter;
        toast := Some("New invoice created");
      } else {
        toast := None;
      }
    }

    /** The shared tail of `init`, `handleNew` and `loadTemplate`: new dates, the cards cleared down to one blank card, then `updatePreview`. */
    method StartOver(today: string, in30Days: string)
      modifies this
      ensures form == old(form).(invoiceDate := today, dueDate := in30Days) && logo == old(logo)
      ensures cards == [CardFor(BlankItem, form.currency)]
      ensures Valid() && Shown()
    {
      SetDefaultDates(today, in30Days);
      ghost var dated, kept := form, logo;
      cards := [];
      AddItem();
      ghost var card := CardFor(BlankItem, dated.currency);
      assert cards == [card] by {
        assert [] + [card] == [card];
      }
      assert AmountsCurrent(cards) by {
        AppendCurrentCard([], card);
      }
      UpdatePreview();
      assert form == dated && logo == kept && cards == [card];
    }

    /**
     * `loadTemplate`: an empty name does nothing and an unknown one only shows a toast;
     * otherwise parties and settings come from the template, a new number and new dates are
     * set, the cards are replaced by one blank card, and the totals and preview are redone.
     * The number, the dates and the template's inputs are different inputs, so taking the
     * number first changes nothing.
     */
    method LoadTemplate(store: LocalStore, name: string, today: string, in30Days: string) returns (toast: Option<string>)
      modifies this, store
      ensures name == "" ==> toast == None && unchanged(this) && unchanged(store)
      ensures name != "" && name !in old(store.templates) ==>
                toast == Some("Template not found") && unchanged(this) && unchanged(store)
      ensures name != "" && name in old(store.templates) ==>
                store.lastInvoiceNumber == Some(old(store.lastInvoiceNumber).GetOr(0) + 1)
                && store.templates == old(store.templates) && store.savedInvoices == old(store.savedInvoices)
                && form == TemplateForm(old(form), old(store.templates)[name], InvoiceNumber(store.lastInvoiceNumber.value), today, in30Days)
                && logo == Truthy(old(store.templates)[name].logo)
                && cards == [CardFor(BlankItem, form.currency)]
                && Valid() && Shown() && toast == Some("Template \"" + name + "\" loaded - ready for new invoice")
    {
      if name == "" {
        return None;
      }
      if name !in store.templates {
        return Some("Template not found");
      }
      LoadFound(store, store.templates[name], today, in30Days);
      toast := Some("Template \"" + name + "\" loaded - ready for new invoice");
    }

    /** `loadTemplate` once the template `t` is found: a new number, then the template applied. */
    method LoadFound(store: LocalStore, t: Template, today: string, in30Days: string)
      modifies this, store
      ensures store.lastInvoiceNumber == Some(old(store.lastInvoiceNumber).GetOr(0) + 1)
      ensures store.templates == old(store.templates) && store.savedInvoices == old(store.savedInvoices)
      ensures form == TemplateForm(old(form), t, InvoiceNumber(store.lastInvoiceNumber.value), today, in30Days)
      ensures logo == Truthy(t.logo) && cards == [CardFor(BlankItem, form.currency)]
      ensures Valid() && Shown()
    {
      SetDefaultInvoiceNumber(store);
      ApplyTemplate(t, today, in30Days);
    }

    /** The part of `loadTemplate` after the new number: the template's inputs, new dates, one blank card. */
    method ApplyTemplate(t: Template, today: string, in30Days: string)
      modifies this
      ensures form == TemplateForm(old(form), t, old(form).invoiceNumber, today, in30Days)
      ensures logo == Truthy(t.logo) && cards == [CardFor(BlankItem, form.currency)]
      ensures Valid() && Shown()
    {
      form := form.(business := t.business, client := t.client, brandColor := OrElse(t.brandColor, "#000000"),
                    currency := OrElse(t.currency, DefaultCurrency), terms := OrElse(t.terms, "Net 30"),
                    taxRate := ZeroIfEmpty(t.taxRate));
      logo := Truthy(t.logo);
      StartOver(today, in30Days);
    }

    /** `deleteTemplate`: once confirmed, removes that one name and nothing else. */
    method DeleteTemplate(store: LocalStore, name: string, confirmed: bool)
      modifies store
      ensures !confirmed ==> unchanged(store)
      ensures confirmed ==> store.templates == old(store.templates) - {name}
                            && store.savedInvoices == old(store.savedInvoices)
                            && store.lastInvoiceNumber == old(store.lastInvoiceNumber)
    {
      if confirmed {
        store.templates := store.templates - {name};
      }
    }
  }

  /** A card appended with its amount current adds that amount to the sum and keeps every amount current. */
  lemma AppendCurrentCard(cards: seq<Card>, c: Card)
    requires c.amount == LineAmount(c.item.qty, c.item.rate)
    ensures AmountsOf(cards + [c]) == AmountsOf(cards) + [c.amount]
    ensures Sum(AmountsOf(cards + [c])) == Sum(AmountsOf(cards)) + c.amount
    ensures AmountsCurrent(cards) ==> AmountsCurrent(cards + [c])
  {
    assert (cards + [c])[..|cards|] == cards;
    assert (AmountsOf(cards) + [c.amount])[..|cards|] == AmountsOf(cards);
  }

  /** A card replaced by one whose amount is current keeps every amount current. */
  lemma ReplaceCurrentCard(cards: seq<Card>, i: nat, c: Card)
    requires i < |cards| && c.amount == LineAmount(c.item.qty, c.item.rate)
    ensures AmountsCurrent(cards) ==> AmountsCurrent(cards[i := c])
  {
  }

  /** Removing a card keeps every remaining amount current. */
  lemma RemoveCurrentCard(cards: seq<Card>, i: nat)
    requires i < |cards|
    ensures AmountsCurrent(cards) ==> AmountsCurrent(cards[..i] + cards[i + 1..])
  {
    var rest := cards[..i] + cards[i + 1..];
    if AmountsCurrent(cards) {
      forall k | 0 <= k < |rest|
        ensures rest[k].amount == LineAmount(rest[k].item.qty, rest[k].item.rate)
      {
        if k < i {
          assert rest[k] == cards[k];
        } else {
          assert rest[k] == cards[k + 1];
        }
      }
    }
  }

  // ---------------------------------------------------------------------------
  // Properties
  // ---------------------------------------------------------------------------

  /** Loaded cards: never none, one per saved item, each storing quantity times rate, no number input left empty. */
  lemma LoadedCardsCurrent(items: seq<ItemInputs>, currency: string)
    ensures var cards := LoadedCards(items, currency);
            |cards| == (if items == [] then 1 else |items|) && AmountsCurrent(cards)
            && forall i :: 0 <= i < |cards| ==> cards[i].item.qty.Some? && cards[i].item.rate.Some?
  {
  }

  /** Saving then loading gives back the form and the card inputs, when no setting was left empty. */
  lemma SaveLoadRoundTrip(form: Form, cards: seq<Card>, logo: Option<string>, savedAt: string)
    requires form.invoiceNumber != "" && form.terms != "" && form.currency != ""
    requires form.brandColor != "" && form.discountType != ""
    requires form.taxRate.Some? && form.discountValue.Some?
    requires cards != [] && forall i :: 0 <= i < |cards| ==> cards[i].item.qty.Some? && cards[i].item.rate.Some?
    ensures var d := SaveRecord(form, cards, logo, OrElse(form.invoiceNumber, DraftKey), savedAt);
            LoadedForm(d) == form && |LoadedCards(d.items, form.currency)| == |cards|
            && forall i :: 0 <= i < |cards| ==> LoadedCards(d.items, form.currency)[i].item == cards[i].item
  {
    var d := SaveRecord(form, cards, logo, form.invoiceNumber, savedAt);
    ReloadKeepsItems(d.items, form.currency);
  }

  /** Items whose quantity and rate were both filled in are refilled unchanged. */
  lemma ReloadKeepsItems(items: seq<ItemInputs>, currency: string)
    requires items != [] && forall i :: 0 <= i < |items| ==> items[i].qty.Some? && items[i].rate.Some?
    ensures |LoadedCards(items, currency)| == |items|
    ensures forall i :: 0 <= i < |items| ==> LoadedCards(items, currency)[i].item == items[i]
  {
    var cards := LoadedCards(items, currency);
    assert forall i :: 0 <= i < |items| ==> cards[i].item == ReloadItem(items[i]);
  }

  /** A template keeps what it was saved with: parties, colour, currency, terms and tax rate come back as they were. */
  lemma TemplateRoundTrip(f: Form, form: Form, logo: Option<string>, name: string, createdAt: string,
                          number: string, today: string, in30Days: string)
    requires form.brandColor != "" && form.currency != "" && form.terms != "" && form.taxRate.Some?
    ensures var g := TemplateForm(f, TemplateOf(Trim(name), form, logo, createdAt), number, today, in30Days);
            g.business == form.business && g.client == form.client && g.brandColor == form.brandColor
            && g.currency == form.currency && g.terms == form.terms && g.taxRate == form.taxRate
            && g.discountType == f.discountType && g.discountValue == f.discountValue
            && g.notes == f.notes && g.paymentInstructions == f.paymentInstructions
            && g.invoiceNumber == number && g.invoiceDate == today && g.dueDate == in30Days
  {
  }

  /** Two successive numbers of the local counter differ and read back as increasing numbers. */
  lemma CounterIncreases(n: nat)
    ensures InvoiceNumber(n + 1) != InvoiceNumber(n)
    ensures MatchedNumber(InvoiceNumber(n)) == Some(n) && MatchedNumber(InvoiceNumber(n + 1)) == Some(n + 1)
  {
    MatchedInvoiceNumber(n);
    MatchedInvoiceNumber(n + 1);
  }

  /**
   * The totals block: Subtotal first, Amount Due last, a tax row exactly when there is tax, a
   * discount row exactly when there is a discount, shown with a leading '-'.
   */
  lemma TotalsRowsShape(t: Totals, taxRate: Option<real>, currency: string)
    ensures var rows := TotalsRows(t, taxRate, currency);
            |rows| == 2 + (if t.taxAmount > 0.0 then 1 else 0) + (if t.discountAmount > 0.0 then 1 else 0)
            && rows[0] == Row(Plain("Subtotal"), Currency(t.subtotal, currency))
            && rows[|rows| - 1] == Row(Plain("Amount Due"), Currency(t.total, currency))
            && (HasTaxRow(rows) <==> t.taxAmount > 0.0)
            && (HasLabel(rows, Plain("Discount")) <==> t.discountAmount > 0.0)
            && (t.discountAmount > 0.0 ==> rows[|rows| - 2] == Row(Plain("Discount"), NegCurrency(t.discountAmount, currency)))
  {
    var rows := TotalsRows(t, taxRate, currency);
    if t.taxAmount > 0.0 {
      assert rows[1].title.TaxOf?;
    }
    if t.discountAmount > 0.0 {
      assert rows[|rows| - 2].title == Plain("Discount");
    }
  }

  /**
   * The preview's items: one per card in card order, titled with the escaped description (or
   * "Item"), the detail lines only for the details present, and the stored amount shown; in a
   * valid editor that amount is quantity times rate.
   */
  lemma PreviewItemsShow(form: Form, cards: seq<Card>, logo: Option<string>, t: Totals, localeDate: string -> string, i: nat)
    requires i < |cards|
    ensures var p := PreviewPaper(form, cards, logo, t, localeDate);
            var it := cards[i].item;
            |p.items| == |cards|
            && p.items[i].title == Escape(OrElse(it.desc, "Item"))
            && (p.items[i].details == [] <==> it.client == "" && it.consultant == "" && it.period == "" && it.notes == "")
            && p.items[i].qty == Number(Coerce(it.qty))
            && (AmountsCurrent(cards) ==> p.items[i].amount == Currency(LineAmount(it.qty, it.rate), form.currency))
  {
  }

  /**
   * The preview's frame: a logo exactly when the stored one is a non-empty text, the four header
   * rows ending in the amount due, one item per card, and a totals block that ends in the same
   * amount due as the header.
   */
  lemma PreviewShape(form: Form, cards: seq<Card>, logo: Option<string>, t: Totals, localeDate: string -> string)
    ensures var p := PreviewPaper(form, cards, logo, t, localeDate);
            (p.logo.Some? <==> logo.Some? && logo.value != "")
            && |p.meta| == 4 && p.meta[3] == Row(Plain("Amount Due"), Currency(t.total, form.currency))
            && |p.items| == |cards|
            && |p.totals| >= 2 && p.totals[|p.totals| - 1] == p.meta[3]
  {
  }

  /**
   * Every text the preview takes from a field is escaped except the two notes blocks, which
   * appear exactly when present and hold the field's text as typed.
   */
  lemma PreviewEscaping(form: Form, cards: seq<Card>, logo: Option<string>, t: Totals, localeDate: string -> string)
    ensures var p := PreviewPaper(form, cards, logo, t, localeDate);
            MarkupFree(p.companyName) && MarkupFree(p.clientName)
            && (forall i :: 0 <= i < |p.items| ==> MarkupFree(p.items[i].title))
            && (p.notes == [] <==> form.notes == "" && form.paymentInstructions == "")
            && (form.notes != "" ==> p.notes[0] == Row(Plain("Notes"), Text(form.notes)))
  {
    EscapedHasNoMarkup(OrElse(form.business.name, "Your Company Name"));
    EscapedHasNoMarkup(OrElse(form.client.name, "Client Name"));
    var p := PreviewPaper(form, cards, logo, t, localeDate);
    forall i | 0 <= i < |p.items|
      ensures MarkupFree(p.items[i].title)
    {
      EscapedHasNoMarkup(OrElse(cards[i].item.desc, "Item"));
    }
  }

  /** A party's preview details list address, email and phone in that order, each exactly when present. */
  lemma PartyDetailsPresent(p: Party)
    ensures |PartyDetails(p)| == |IfPresent(p.address)| + |IfPresent(p.email)| + |IfPresent(p.phone)|
    ensures p.address != "" ==> PartyDetails(p)[0] == Escape(p.address)
  {
    EscapeEmpty(p.address);
    EscapeEmpty(p.email);
    EscapeEmpty(p.phone);
  }

  /**
   * In the PDF every business address line is drawn, blank ones included, while only the
   * client address lines that are not blank are.
   */
  lemma PdfAddressLines(form: Form, cards: seq<Card>, logo: Option<string>, t: Totals, localeDate: string -> string, logoLoads: bool)
    requires form.business.address != "" && form.business.email == "" && form.business.phone == ""
    requires form.client.address != "" && form.client.email == "" && form.client.phone == ""
    ensures var doc := AppPdf(form, cards, logo, t, localeDate, logoLoads);
            doc.companyLines == Split(form.business.address, '\n')
            && forall l :: l in doc.clientLines <==> l in Split(form.client.address, '\n') && Trim(l) != ""
  {
    var lines := Split(form.client.address, '\n');
    AddressOnly(form.business, false);
    AddressOnly(form.client, true);
    NonBlankLinesKeep(lines);
  }

  /** A party with an address and nothing else gives the address lines alone. */
  lemma AddressOnly(p: Party, skipBlank: bool)
    requires p.address != "" && p.email == "" && p.phone == ""
    ensures PdfPartyLines(p, skipBlank) == if skipBlank then NonBlankLines(Split(p.address, '\n')) else Split(p.address, '\n')
  {
    assert IfPresent(p.email) + IfPresent(p.phone) == [];
  }

  /** A business address of one empty line above another is two blank lines in the PDF; the same client address is none. */
  lemma BlankLineExample()
    ensures Split("\n", '\n') == ["", ""]
    ensures NonBlankLines(["", ""]) == []
  {
    assert Split("", '\n') == [""];
    assert "\n"[1..] == "";
    assert Trim("") == "";
  }

  /**
   * The PDF: one table row per card in order, holding the description with its details, the
   * quantity as typed, the rate and the amount; the notes block only when there are notes; the
   * totals block of the preview; the file named "Invoice_" + number + ".pdf".
   */
  lemma PdfContent(form: Form, cards: seq<Card>, logo: Option<string>, t: Totals, localeDate: string -> string, logoLoads: bool, i: nat)
    requires i < |cards|
    ensures var doc := AppPdf(form, cards, logo, t, localeDate, logoLoads);
            var it := cards[i].item;
            doc.table.Some? && |doc.table.value| == |cards|
            && doc.table.value[i][1] == InputText(it.qty)
            && doc.table.value[i][3] == Currency(cards[i].amount, form.currency)
            && (doc.table.value[i][0] == Text(OrElse(it.desc, "Item"))
                <==> it.client == "" && it.consultant == "" && it.period == "" && it.notes == "")
            && (doc.notes != [] <==> form.notes != "")
            && doc.totals == PreviewPaper(form, cards, logo, t, localeDate).totals
            && doc.fileName == "Invoice_" + form.invoiceNumber + ".pdf"
            && (doc.logo ==> logoLoads)
  {
    var it := cards[i].item;
    FullDescBare(OrElse(it.desc, "Item"), Details(it.client, it.consultant, it.period, it.notes, LongLabels, Verbatim));
  }
}
