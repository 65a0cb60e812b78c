/**
 * The modular editor's PDF (src/modules/pdf.js): which texts `generatePDF` writes, in which
 * order, from a gathered invoice record. Positions, fonts and colours are left to the library.
 */
module Pdf {
  import opened Wrappers
  import opened Strings
  import opened Totals
  import opened Records
  import opened Render
  import opened Ui

  /** `String(display || raw)`: a display is falsy only when it is an empty text. */
  function DisplayOr(display: Value, raw: real): (v: Value)
    ensures display != Text("") ==> v == display
    ensures display == Text("") ==> v == Number(raw)
  {
    if display == Text("") then Number(raw) else display
  }

  /** One table row: the description with its details, the quantity, the rate in the currency, the amount as displayed. */
  function TableRow(li: LineItem, currency: string): seq<Value>
  {
    [Text(FullDesc(li.desc, Details(li.client, li.consultant, li.period, li.notes, ShortLabels, Verbatim))),
     Number(li.qty), Currency(li.rate, currency), li.amountDisplay]
  }

  function TableBody(items: seq<LineItem>, currency: string): (rows: seq<seq<Value>>)
    ensures |rows| == |items|
    ensures forall k :: 0 <= k < |items| ==> rows[k] == TableRow(items[k], currency)
  {
    if items == [] then []
    else
      var init := items[..|items| - 1];
      assert forall i :: 0 <= i < |init| ==> init[i] == items[i];
      TableBody(init, currency) + [TableRow(items[|items| - 1], currency)]
  }

  /** Subtotal, then Tax with the rate's text when there is tax, then Total; never a discount. */
  function PdfTotals(data: InvoiceRecord): (rows: seq<Row>)
    ensures |rows| == (if data.totals.taxAmount > 0.0 then 3 else 2)
    ensures rows[0] == Row(Plain("Subtotal:"), DisplayOr(data.totals.subtotalDisplay, data.totals.subtotal))
    ensures rows[|rows| - 1] == Row(Plain("Total:"), DisplayOr(data.totals.totalDisplay, data.totals.total))
  {
    var t := data.totals;
    [Row(Plain("Subtotal:"), DisplayOr(t.subtotalDisplay, t.subtotal))]
    + (if t.taxAmount > 0.0 then [Row(TaxOf(data.settings.taxRate, "):"), DisplayOr(t.taxDisplay, t.taxAmount))] else [])
    + [Row(Plain("Total:"), DisplayOr(t.totalDisplay, t.total))]
  }

  /** The notes blocks, each only when present. */
  function PdfNotes(data: InvoiceRecord): (rows: seq<Row>)
    ensures rows == [] <==> data.notes == "" && data.paymentInstructions == ""
    ensures data.notes != "" ==> rows[0] == Row(Plain("Notes:"), Text(data.notes))
    ensures data.paymentInstructions != "" ==>
              rows[|rows| - 1] == Row(Plain("Payment Instructions:"), Text(data.paymentInstructions))
  {
    var n := if data.notes != "" then [Row(Plain("Notes:"), Text(data.notes))] else [];
    var p := if data.paymentInstructions != "" then [Row(Plain("Payment Instructions:"), Text(data.paymentInstructions))] else [];
    assert n + p == [] ==> n == [] && p == [];
    n + p
  }

  /**
   * `generatePDF`: nothing when the library is missing; otherwise the document. The logo is
   * drawn when there is one and the library accepts it (a refused image is skipped); the table
   * body needs the table plugin.
   */
  function GeneratePdf(data: InvoiceRecord, libraryLoaded: bool, imageAccepted: bool, tablePlugin: bool): (doc: Option<PdfDoc>)
    ensures doc.None? <==> !libraryLoaded
    ensures doc.Some? ==> (doc.value.logo <==> data.logo.Some? && data.logo.value != "" && imageAccepted)
    ensures doc.Some? ==> (doc.value.table.Some? <==> tablePlugin)
    ensures doc.Some? && tablePlugin ==> |doc.value.table.value| == |data.items|
    ensures doc.Some? ==> |doc.value.meta| == 4
                          && doc.value.meta[3] == Row(Plain("Amount Due:"), Currency(data.totals.total, data.meta.currency))
  {
    if !libraryLoaded then None
    else
      var cur := data.meta.currency;
      Some(PdfDoc(
        data.logo.Some? && data.logo.value != "" && imageAccepted,
        OrElse(data.business.name, "Company Name"), PartyLines(data.business),
        [Row(Plain("Invoice #:"), Text(data.invoiceNumber)), Row(Plain("Date:"), Text(data.meta.date)),
         Row(Plain("Due Date:"), Text(data.meta.dueDate)), Row(Plain("Amount Due:"), Currency(data.totals.total, cur))],
        OrElse(data.client.name, "Client Name"), PartyLines(data.client),
        if tablePlugin then Some(TableBody(data.items, cur)) else None,
        PdfTotals(data),
        PdfNotes(data),
        "Invoice-" + data.invoiceNumber + ".pdf"))
  }

  // ---------------------------------------------------------------------------
  // Properties
  // ---------------------------------------------------------------------------

  /** Without the library there is no document; with it the file is named "Invoice-<number>.pdf". */
  lemma DocumentOrNothing(data: InvoiceRecord, imageAccepted: bool, tablePlugin: bool)
    ensures GeneratePdf(data, false, imageAccepted, tablePlugin).None?
    ensures var d := GeneratePdf(data, true, imageAccepted, tablePlugin);
            d.Some? && d.value.fileName[..8] == "Invoice-" && d.value.fileName[8..|d.value.fileName| - 4] == data.invoiceNumber
            && (d.value.logo <==> data.logo.Some? && data.logo.value != "" && imageAccepted)
  {
    var name := "Invoice-" + data.invoiceNumber + ".pdf";
    assert name[..8] == "Invoice-";
    assert name[8..|name| - 4] == data.invoiceNumber;
  }

  /**
   * The totals: Subtotal first and Total last; a Tax row exactly when there is tax; no discount
   * row whatever the discount; each value the display when it is not empty, else the raw number.
   */
  lemma PdfTotalsShape(data: InvoiceRecord)
    ensures var rows := PdfTotals(data);
            var t := data.totals;
            rows[0] == Row(Plain("Subtotal:"), DisplayOr(t.subtotalDisplay, t.subtotal))
            && rows[|rows| - 1] == Row(Plain("Total:"), DisplayOr(t.totalDisplay, t.total))
            && (HasTaxRow(rows) <==> t.taxAmount > 0.0)
            && |rows| == (if t.taxAmount > 0.0 then 3 else 2)
            && !HasLabel(rows, Plain("Discount")) && !HasLabel(rows, Plain("Discount:"))
  {
    var rows := PdfTotals(data);
    assert "Subtotal:"[0] != "Discount"[0] && "Total:"[0] != "Discount"[0];
    assert "Subtotal:"[0] != "Discount:"[0] && "Total:"[0] != "Discount:"[0];
    if data.totals.taxAmount > 0.0 {
      assert rows[1].title.TaxOf?;
    }
  }

  /**
   * The table: one row per item in item order; the first cell is the description alone exactly
   * when the item has no details, else the description, a line break and the detail lines.
   */
  lemma TableContent(data: InvoiceRecord, imageAccepted: bool, k: nat)
    requires k < |data.items|
    ensures var d := GeneratePdf(data, true, imageAccepted, true).value;
            var li := data.items[k];
            var details := Details(li.client, li.consultant, li.period, li.notes, ShortLabels, Verbatim);
            d.table.Some? && |d.table.value| == |data.items|
            && d.table.value[k][1..] == [Number(li.qty), Currency(li.rate, data.meta.currency), li.amountDisplay]
            && (d.table.value[k][0] == Text(li.desc) <==>
                  li.client == "" && li.consultant == "" && li.period == "" && li.notes == "")
            && (li.client != "" ==> d.table.value[k][0] == Text(li.desc + "\n" + Join(details, "\n"))
                                    && details[0] == "Client: " + li.client)
  {
    var li := data.items[k];
    var details := Details(li.client, li.consultant, li.period, li.notes, ShortLabels, Verbatim);
    FullDescBare(li.desc, details);
  }

  /**
   * The header and bill-to blocks: every address line is written, blank ones included, and
   * email and phone only when present; the notes blocks appear exactly when present.
   */
  lemma PdfBlocks(data: InvoiceRecord, imageAccepted: bool, tablePlugin: bool)
    ensures var d := GeneratePdf(data, true, imageAccepted, tablePlugin).value;
            d.clientLines[..|Split(data.client.address, '\n')|] == Split(data.client.address, '\n')
            && |d.clientLines| == |Split(data.client.address, '\n')| + |IfPresent(data.client.email)| + |IfPresent(data.client.phone)|
            && (HasLabel(d.notes, Plain("Notes:")) <==> data.notes != "")
            && (HasLabel(d.notes, Plain("Payment Instructions:")) <==> data.paymentInstructions != "")
            && |d.meta| == 4 && d.meta[3] == Row(Plain("Amount Due:"), Currency(data.totals.total, data.meta.currency))
  {
    var rows := PdfNotes(data);
    assert "Payment Instructions:"[0] != "Notes:"[0];
    if data.notes != "" {
      assert rows[0].title == Plain("Notes:");
    }
    if data.paymentInstructions != "" {
      assert rows[|rows| - 1].title == Plain("Payment Instructions:");
    }
  }

  /**
   * A PDF of the page's gathered record agrees with the page: once the totals are current the
   * subtotal and total show the same currency displays as the page, and the Amount Due row
   * shows what the preview's does.
   */
  lemma PdfMatchesPage(form: Form, cards: seq<Card>, raw: Totals, logo: Option<string>, localeDate: string -> string,
                       imageAccepted: bool, tablePlugin: bool)
    ensures var data := Gather(form, cards, raw, DisplaysOf(raw, form.currency), logo, localeDate);
            var d := GeneratePdf(data, true, imageAccepted, tablePlugin).value;
            d.totals[0].value == Currency(raw.subtotal, form.currency)
            && d.totals[|d.totals| - 1].value == Currency(raw.total, form.currency)
            && d.meta[3].value == PaperOf(data, logo).meta[3].value
  {
  }
}
