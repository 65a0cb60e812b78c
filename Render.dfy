/**
 * What the previews and the PDFs show, as content rather than markup or coordinates: which
 * rows and lines appear, in which order, with which texts.
 */
module Render {
  import opened Wrappers
  import opened Strings

  /**
   * The content of one slot: a text, a number written out by JavaScript, a number input's own
   * text, `formatCurrency(amount, code)`, or that display with a '-' in front.
   */
  datatype Value =
    | Text(s: string)
    | Number(r: real)
    | InputText(input: Option<real>)
    | Currency(amount: real, code: string)
    | NegCurrency(amount: real, code: string)

  /** A row label: fixed text, or "Tax (" + the tax-rate input's text + "%" + suffix. */
  datatype Label = Plain(text: string) | TaxOf(input: Option<real>, suffix: string)

  datatype Row = Row(title: Label, value: Value)

  /** One item of an HTML preview. */
  datatype PaperItem = PaperItem(title: string, details: seq<string>, qty: Value, rate: Value, amount: Value)

  /** An HTML preview: header, meta table, bill-to block, items, notes blocks and totals. */
  datatype Paper = Paper(
    logo: Option<string>, companyName: string, companyDetails: seq<string>, meta: seq<Row>,
    clientName: string, clientDetails: seq<string>, items: seq<PaperItem>,
    notes: seq<Row>, totals: seq<Row>)

  /**
   * A PDF: whether the logo was drawn, the header lines, the meta rows, the bill-to lines,
   * the table body (None when the table plugin is missing), totals, notes and file name.
   */
  datatype PdfDoc = PdfDoc(
    logo: bool, companyName: string, companyLines: seq<string>, meta: seq<Row>,
    clientName: string, clientLines: seq<string>, table: Option<seq<seq<Value>>>,
    totals: seq<Row>, notes: seq<Row>, fileName: string)

  predicate HasLabel(rows: seq<Row>, l: Label)
  {
    exists i :: 0 <= i < |rows| && rows[i].title == l
  }

  predicate HasTaxRow(rows: seq<Row>)
  {
    exists i :: 0 <= i < |rows| && rows[i].title.TaxOf?
  }

  /** `x || fallback` on a text. */
  function OrElse(s: string, fallback: string): string
  {
    if s == "" then fallback else s
  }

  /** A one-element list when the text is not empty. */
  function IfPresent(s: string): seq<string>
  {
    if s == "" then [] else [s]
  }

  /** The label texts one renderer puts before an item's client, consultant and period. */
  datatype DetailLabels = DetailLabels(client: string, consultant: string, period: string)

  /** Labels of app.js: "Client Name:", "Consultant Name:", "Billing Period:". */
  const LongLabels := DetailLabels("Client Name: ", "Consultant Name: ", "Billing Period: ")

  /** Labels of src/modules: "Client:", "Consultant:", "Period:". */
  const ShortLabels := DetailLabels("Client: ", "Consultant: ", "Period: ")

  /**
   * An item's detail lines: client, consultant, period and notes, each only when not empty,
   * always in that order; `show` is how the renderer writes a value (escaped or verbatim).
   */
  function Details(client: string, consultant: string, period: string, notes: string,
                   labels: DetailLabels, show: string -> string): (lines: seq<string>)
    ensures lines == [] <==> client == "" && consultant == "" && period == "" && notes == ""
    ensures |lines| == |IfPresent(client)| + |IfPresent(consultant)| + |IfPresent(period)| + |IfPresent(notes)|
    ensures client != "" ==> lines[0] == labels.client + show(client)
    ensures consultant != "" ==> lines[|IfPresent(client)|] == labels.consultant + show(consultant)
    ensures period != "" ==> lines[|IfPresent(client)| + |IfPresent(consultant)|] == labels.period + show(period)
    ensures notes != "" ==> lines[|lines| - 1] == show(notes)
  {
    (if client != "" then [labels.client + show(client)] else [])
    + (if consultant != "" then [labels.consultant + show(consultant)] else [])
    + (if period != "" then [labels.period + show(period)] else [])
    + (if notes != "" then [show(notes)] else [])
  }

  /**
   * The notes blocks of both HTML previews: "Notes" when there are notes, then "Payment
   * Instructions" when there are any, each written without escaping; nothing when both are empty.
   */
  function NotesRows(notes: string, paymentInstructions: string): (rows: seq<Row>)
    ensures rows == [] <==> notes == "" && paymentInstructions == ""
    ensures HasLabel(rows, Plain("Notes")) <==> notes != ""
    ensures HasLabel(rows, Plain("Payment Instructions")) <==> paymentInstructions != ""
    ensures notes != "" ==> rows[0] == Row(Plain("Notes"), Text(notes))
  {
    var n := if notes != "" then [Row(Plain("Notes"), Text(notes))] else [];
    var p := if paymentInstructions != "" then [Row(Plain("Payment Instructions"), Text(paymentInstructions))] else [];
    assert n + p == [] ==> n == [] && p == [];
    assert |p| > 0 ==> (n + p)[|n|] == p[0];
    assert "Payment Instructions"[0] != "Notes"[0];
    assert notes != "" ==> (n + p)[0].title == Plain("Notes");
    assert notes == "" ==> n + p == p;
    n + p
  }

  /**
   * The Payment Instructions block is the last one and shows the text unescaped; with notes
   * too, it comes right after the Notes block.
   */
  lemma PaymentInstructionsLast(notes: string, paymentInstructions: string)
    requires paymentInstructions != ""
    ensures var rows := NotesRows(notes, paymentInstructions);
            rows[|rows| - 1] == Row(Plain("Payment Instructions"), Text(paymentInstructions))
            && (notes != "" ==> |rows| == 2)
  {
  }

  /** The identity, for renderers that write values verbatim. */
  function Verbatim(s: string): string { s }

  /** A PDF description cell: the title, then '\n' and the detail lines joined by '\n' when there are any. */
  function FullDesc(title: string, details: seq<string>): string
  {
    if |details| > 0 then title + "\n" + Join(details, "\n") else title
  }

  /** The cell is the bare title exactly when there are no details. */
  lemma FullDescBare(title: string, details: seq<string>)
    ensures FullDesc(title, details) == title <==> details == []
    ensures details != [] ==> FullDesc(title, details)[..|title| + 1] == title + "\n"
  {
    if details != [] {
      var r := FullDesc(title, details);
      assert |r| > |title|;
      assert r == (title + "\n") + Join(details, "\n");
    }
  }
}
