/**
 * The values the editors read from and write to the page, and the invoice record that
 * `gatherFormData` (src/modules/ui.js) builds and the invoices table stores.
 */
module Records {
  import opened Wrappers
  import opened Strings
  import opened Totals
  import opened Render

  /** A business or a client: the four text inputs of its section. */
  datatype Party = Party(name: string, email: string, phone: string, address: string)

  /**
   * A party's block as the modular renderers write it: every address line, blank ones
   * included (an empty address is one empty line), then email and phone when present.
   */
  function PartyLines(p: Party): (lines: seq<string>)
    ensures |lines| == |Split(p.address, '\n')| + |IfPresent(p.email)| + |IfPresent(p.phone)|
    ensures lines[..|Split(p.address, '\n')|] == Split(p.address, '\n')
    ensures p.address == "" && p.email == "" && p.phone == "" ==> lines == [""]
  {
    var split := Split(p.address, '\n');
    assert p.address == "" ==> split == [""];
    split + IfPresent(p.email) + IfPresent(p.phone)
  }

  /**
   * The inputs of one line-item card. Quantity and rate are number inputs, which hold either
   * nothing or a number.
   */
  datatype ItemInputs = ItemInputs(
    desc: string, qty: Option<real>, rate: Option<real>,
    client: string, consultant: string, period: string, notes: string)

  /** A new card as `addItem` creates it: quantity 1, rate 0, everything else empty. */
  const BlankItem: ItemInputs := ItemInputs("", Some(1.0), Some(0.0), "", "", "", "")

  /** What a new card shows as its amount until something recomputes it. */
  const InitialAmountText: Value := Text("$0.00")

  /** A card: its inputs, the amount stored on it (`dataset.amount`) and the amount it shows. */
  datatype Card = Card(item: ItemInputs, amount: real, amountText: Value)

  /** The form fields outside the cards. */
  datatype Form = Form(
    business: Party, client: Party,
    invoiceNumber: string, invoiceDate: string, dueDate: string, terms: string, currency: string,
    brandColor: string, taxRate: Option<real>, discountType: string, discountValue: Option<real>,
    notes: string, paymentInstructions: string)

  /** What the four totals displays show. */
  datatype Displays = Displays(subtotal: Value, tax: Value, discount: Value, total: Value)

  /** What `calculateTotals` writes into the displays: the discount carries a leading '-'. */
  function DisplaysOf(t: Totals, currency: string): Displays
  {
    Displays(Currency(t.subtotal, currency), Currency(t.taxAmount, currency),
             NegCurrency(t.discountAmount, currency), Currency(t.total, currency))
  }

  /** The amounts stored on the cards, in card order. */
  function AmountsOf(cards: seq<Card>): (r: seq<real>)
    ensures |r| == |cards|
    ensures forall i :: 0 <= i < |cards| ==> r[i] == cards[i].amount
  {
    if cards == [] then []
    else
      var init := cards[..|cards| - 1];
      assert forall i :: 0 <= i < |init| ==> init[i] == cards[i];
      AmountsOf(init) + [cards[|cards| - 1].amount]
  }

  /** Every card stores quantity times rate. */
  predicate AmountsCurrent(cards: seq<Card>)
  {
    forall i :: 0 <= i < |cards| ==> cards[i].amount == LineAmount(cards[i].item.qty, cards[i].item.rate)
  }

  /** A card as the amount code leaves it: it stores quantity times rate and shows it in the currency. */
  function CardFor(item: ItemInputs, currency: string): Card
  {
    var a := LineAmount(item.qty, item.rate);
    Card(item, a, Currency(a, currency))
  }

  // ---------------------------------------------------------------------------
  // The stored invoice record
  // ---------------------------------------------------------------------------

  /** One item of a record: quantity and rate already read as numbers, the amount as shown. */
  datatype LineItem = LineItem(
    desc: string, qty: real, rate: real, amount: real, amountDisplay: Value,
    client: string, consultant: string, period: string, notes: string)

  datatype Meta = Meta(date: string, dueDate: string, dateRaw: string, dueDateRaw: string, terms: string, currency: string)

  datatype Settings = Settings(brandColor: string, taxRate: Option<real>, discountType: string, discountValue: Option<real>)

  datatype RecordTotals = RecordTotals(
    subtotal: real, taxAmount: real, discountAmount: real, total: real,
    subtotalDisplay: Value, taxDisplay: Value, totalDisplay: Value)

  datatype InvoiceRecord = InvoiceRecord(
    invoiceNumber: string, status: string, business: Party, logo: Option<string>, client: Party,
    meta: Meta, settings: Settings, items: seq<LineItem>, totals: RecordTotals,
    notes: string, paymentInstructions: string)

  /**
   * When a stored invoice was created: the instant (for ordering) and its calendar year and
   * month (0 to 11) in the browser's time zone.
   */
  datatype Created = Created(time: int, year: int, month: MonthIndex)

  /** `getMonth()`: January is 0. */
  type MonthIndex = m: int | 0 <= m < 12

  /** A row of the invoices table: the record, its id and its creation time. */
  datatype StoredInvoice = StoredInvoice(id: string, record: InvoiceRecord, created: Created)
}
