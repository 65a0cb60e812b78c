# Invoice tool core, modelled in Dafny

This project models the deterministic core of a browser invoice generator backed by Supabase.
The model has three parts, each proved against a specification.

- **The single-page editor (app.js).** This covers:
  - the form and its line-item cards;
  - the totals arithmetic and the `state` totals;
  - the HTML preview and the PDF, as content;
  - the browser-storage dictionaries of saved invoices and templates;
  - the local invoice counter.
- **The modular editor (src/modules).** This covers:
  - `calculateTotals`, `gatherFormData`, `renderPaper`, `addItem` and `fillFormWithData` of ui.js;
  - `generatePDF` of pdf.js;
  - `formatCurrency`, `formatDate` and `hexToRgb` of modules/utils.js;
  - `escapeHtml` of src/utils.js;
  - the upsert of `saveInvoice` and the number rule of `getNextInvoiceNumber` in src/database.js.
- **The list pages and the backend check.** This covers:
  - the invoice list (src/invoices-main.js): search, the consultant filter, the sort orders, the table rows and the pagination buttons;
  - the dashboard (src/dashboard-main.js): revenue per currency, averages, the stacked display, the recent table and the six-month chart;
  - the `.env` reading of scripts/verify-backend.js.

## How the model is built

- **Module per source component.**
  - `Wrappers`: Option and Result.
  - `Strings`: `trim`, `split`, `join`, `includes`, ASCII `toLowerCase`, `padStart`, `String(n)` and `parseInt`.
  - `Money`: `formatCurrency`.
  - `Color`: `hexToRgb`.
  - `Html`: `escapeHtml`.
  - `Totals`: the totals arithmetic.
  - `Records`: form, card and record values.
  - `Render`: preview and PDF content.
  - `Dates`, `Numbering`, `Database`, `Sorting`.
  - `App`, `Ui`, `Pdf`, `InvoiceList`, `Dashboard`, `EnvConfig`.
- **State changed in place is a class.**
  - The app.js page is `App.Editor`, with `LocalStore` for browser storage.
  - The modular editor's page is `Ui.Page`, with `Ui.State`.
  - The list page's variables are `InvoiceList.ListPage`.
  - Every event handler is a method. It states its whole new state in terms of specification functions. Lemmas prove what those functions mean.
- **Loops are methods with invariants.** These are:
  - the subtotal loop, `App.SumAmounts`;
  - the consultant `Set`, `InvoiceList.CollectNames`;
  - the pagination loop;
  - `sumByCurrency`;
  - the chart loops;
  - the `.env` line loop.
- **Number inputs are `Option<real>`.** `None` is an empty input, which `parseFloat(v) || 0` reads as 0.
- **Money is an exact `real`.** `formatCurrency` is the symbol, a '-' for negatives, the grouped whole units, '.' and two digits. The cents are rounded half away from zero.
- **Renderers return structured content.** Their output is a sequence of rows and values. A value such as `Currency(a, c)` stands for `formatCurrency(a, c)`, so each renderer is stated once and the formatting once.
- **Parameters stand in for the outside world.** These include:
  - `localeCompare` (a rank function);
  - `toLocaleDateString` (a `string -> string`);
  - the clock (`today`, `year`, `month`);
  - the file picker and the prompt answer;
  - whether jsPDF is loaded.

### Behaviour modelled as written

Where the two editors differ, each is modelled as it is written:

| behaviour | app.js | src/modules |
|---|---|---|
| text escaping in the preview | texts escaped, except the two notes blocks | nothing escaped |
| discount row in the PDF | present | absent |
| discount row in the preview | shown | shows "undefined": `discountDisplay` is never gathered |
| PDF file name | `Invoice_` | `Invoice-` |
| blank address lines | PDF skips blank client lines only | every line kept |
| fallback company name | "Your Company Name" in the preview, "Your Company" in the PDF | "Your Company" in the preview, "Company Name" in the PDF |

Three more behaviours are modelled as written:

- `renderInvoices` computes the page slice but renders every filtered invoice, so every page shows the same rows (`InvoiceList.RowsIgnorePage`).
- The local counter starts from 0 when it was never written.
- The server number rule uses the newest invoice, not the largest number (`Numbering.NewestNotLargest`).

## Model

| member | source | states |
|---|---|---|
| Strings.NatToString | app.js:54 | `String(n)`: decimal digits only, with no leading zero |
| Strings.NatToStringValue | app.js:54 | `parseInt` of `String(n)` gives back n |
| Strings.NatToStringLength | app.js:54 | `String(n)` has at most k digits exactly when n < 10^k |
| Strings.PadStart | app.js:54 | `padStart(width, fill)`: never truncates, the text ends the result, the fill char fills only the left |
| Strings.ZeroPadValue | src/database.js:169 | zero padding keeps the digits and their value |
| Strings.Trim | src/invoices-main.js:81 | `trim()`: the result neither starts nor ends with white space |
| Strings.TrimEmpty | src/invoices-main.js:81 | the trim is empty exactly when the text is all white space |
| Strings.TrimIdempotent | src/invoices-main.js:82 | trimming twice is trimming once |
| Strings.Split | scripts/verify-backend.js:16-17 | `split(sep)`: at least one part, and no part holds the separator |
| Strings.JoinSplit | scripts/verify-backend.js:17 | joining the parts of a split with the separator restores the text |
| Strings.SplitNoSeparator | scripts/verify-backend.js:17 | a text without the separator is a single part |
| Strings.Contains | src/invoices-main.js:137-139 | `includes`: true exactly when the sub-text occurs at some index |
| Strings.ToLower | src/invoices-main.js:132 | `toLowerCase`: same length, each character lowered |
| Strings.Take | scripts/verify-backend.js:34 | `substring(0, n)` and `slice(0, n)`: the first n elements, or all when fewer |
| Money.SymbolTable | src/modules/utils.js:37-46 | the symbol is "€", "£" or "₹" exactly for EUR, GBP and INR; every other code shows "$" |
| Money.FormatCurrency | src/modules/utils.js:45-51 | the display starts with the currency's symbol, followed by at least four characters that end in '.' and two digits |
| Money.Cents | src/modules/utils.js:47-50 | the absolute amount in cents rounded half away from zero: within half a cent of 100 × the amount |
| Money.TwoDigits | src/modules/utils.js:48-49 | the fraction is always exactly two digits |
| Money.FormatCurrencyReadsBack | src/modules/utils.js:45-51 | the display starts with the symbol, ends in '.' and two digits, and reads back as the amount rounded to the cent |
| Money.GroupDigitsUngroup | src/modules/utils.js:47 | dropping the thousands separators gives the digits back |
| Money.GroupedValue | src/modules/utils.js:47 | the grouped whole units, separators dropped, are worth the number |
| Money.CentsParses | src/modules/utils.js:47-50 | whole units, '.' and two digits read back as the cents |
| Money.FormatAmountParses | src/modules/utils.js:47-50 | the number part, sign included, reads back as the signed cents |
| Money.DisplayedWithinHalfCent | src/modules/utils.js:47-50 | the shown amount is never more than half a cent from the amount |
| Money.ExampleThousands | src/modules/utils.js:45-51 | 1234.56 USD shows as "$1,234.56" |
| Money.ExampleNegativeUnknownCurrency | src/modules/utils.js:46 | -5 in an unknown currency shows as "$-5.00": the symbol goes before the sign |
| Color.HexToRgb | src/modules/utils.js:17-24 | each channel is below 256, and any text that is not `#?` plus six hex digits gives black |
| Color.HexRoundTrip | src/modules/utils.js:17-24 | every "#rrggbb" a colour input produces reads back as its own channels |
| Color.HashOptional | src/modules/utils.js:18 | the '#' is optional |
| Color.CaseInsensitive | src/modules/utils.js:18 | the `/i` flag: letter case changes neither the match nor the channels |
| Color.RejectedForms | src/modules/utils.js:18-23 | shorthand, eight digits, a non-hex digit and the empty text all give black |
| Color.DefaultBrandColor | src/modules/pdf.js:25-26 | the default brand colour #3b82f6 is (59, 130, 246) |
| Html.EscapeChar | src/utils.js:1-9 | only the five special characters become longer, and an entity holds no special character but '&' |
| Html.EscapeHtml | src/utils.js:1-9 | `null` and `undefined` give the empty text; a text with no special character comes back unchanged |
| Html.ChainFixed | src/utils.js:4-8 | the five global replacements leave a text with no special character as it is |
| Html.EscapeIsPerCharacter | src/utils.js:4-8 | because '&' is replaced first, the five global replacements act as a per-character entity map |
| Html.EscapedHasNoMarkup | src/utils.js:1-9 | no '<', '>', '"' or ''' survives escaping |
| Html.EscapeUnchangedIff | src/utils.js:1-9 | escaping leaves a text unchanged exactly when it has no special character; otherwise it grows longer |
| Html.NotIdempotent | app.js:988-997 | escaping twice differs from escaping once exactly when the text had a special character |
| Html.UnescapeEscape | src/utils.js:1-9 | escaped text displays as the original text |
| Html.EscapeEmpty | src/invoices-main.js:25-33 | escaping gives the empty text exactly for the empty text |
| Totals.PercentTotals | app.js:479-497 | with a percent discount, tax, discount and total are the subtotal scaled by their rates |
| Totals.LineAmount | app.js:466-469 | an empty quantity or rate makes the line worth 0 |
| Totals.ComputeTotals | app.js:485-495 | the subtotal is kept and the total is subtotal + tax - discount; no tax rate gives no tax, no discount value no discount, and a type other than "percent" subtracts the value as typed |
| Totals.FixedDiscount | app.js:489-493 | any other discount type subtracts the raw value, whatever the subtotal |
| Totals.DiscountTypeIsExact | app.js:490 | only the exact string "percent" selects a percentage |
| Totals.EmptySettings | app.js:485-491 | empty tax and discount inputs leave the total equal to the subtotal |
| Totals.TotalCanBeNegative | app.js:495 | nothing clamps the total: a large discount makes it negative |
| Totals.EmptyInputLine | app.js:466-469 | an empty quantity or rate makes the line worth 0 |
| Totals.SumAppend | app.js:482-484 | the subtotal of two runs of cards is the sum of their subtotals |
| Totals.SumPermutation | app.js:482-484 | reordering the cards does not change the subtotal |
| Totals.SumNonNegative | app.js:482-484 | lines worth at least 0 add up to at least 0 |
| Records.PartyLines | src/modules/pdf.js:57-63 | every address line, blank ones included, then email and phone when present; an empty party is one empty line |
| Render.Details | src/modules/ui.js:222-232 | an item's detail lines: none exactly when all four are empty; client first, consultant right after the client line, period after those, notes last, each present exactly when not empty and written with its label |
| Render.NotesRows | src/modules/ui.js:234-242 | nothing when both are empty; a "Notes" block exactly when there are notes, first and holding the notes as typed; a "Payment Instructions" block exactly when there are some |
| Render.PaymentInstructionsLast | src/modules/ui.js:239 | the "Payment Instructions" block comes last and holds the text as typed, right after the Notes block when there are notes |
| Render.FullDescBare | src/modules/pdf.js:150-152 | the PDF description cell is the bare title exactly when there are no details, else the title and a line break |
| Dates.FormatDate | src/modules/utils.js:53-61 | the empty date gives "", and any other goes to the locale formatter |
| Numbering.DigitRun | src/database.js:164 | the greedy `\d+`: a digit prefix followed by a non-digit or the end |
| Numbering.FindMatch | src/database.js:164 | the leftmost index where "INV-" and a digit occur, or None when there is none |
| Numbering.InvoiceNumberDigits | app.js:48-56 | "INV-" then at least four digits, never truncated, worth the counter |
| Numbering.MatchedInvoiceNumber | src/database.js:164-167 | the server rule reads every number the counter writes back as that number |
| Numbering.InvoiceNumberInjective | app.js:54-55 | different counters give different invoice numbers |
| Numbering.NextAfter | src/database.js:141-170 | after the newest invoice INV-n comes INV-(n+1) |
| Numbering.NextInvoiceNumber | src/database.js:141-173 | an error exactly when nobody is signed in; INV-0001 after a failed query or with no invoices; after a newest number INV-n, a number that reads back as n + 1 |
| Numbering.Fallbacks | src/database.js:141-173 | no user is an error; a failed query, no invoices or a number without the pattern give INV-0001 |
| Numbering.ExampleNext | src/database.js:162-169 | INV-0042 is followed by INV-0043 |
| Numbering.ExampleWidening | src/database.js:169 | INV-9999 is followed by INV-10000 |
| Numbering.NewestNotLargest | src/database.js:146-162 | only the newest invoice counts, even when an older one has a larger number |
| Numbering.FirstMatch | src/database.js:164 | the leftmost match decides the number |
| Numbering.NoMatchWithoutPrefix | src/database.js:164-173 | a text without a capital 'I' has no match |
| Numbering.MatchAfterText | src/database.js:164-167 | the pattern is unanchored and reads the digit run after "INV-", ignoring leading zeros |
| Numbering.ExampleLowerCase | src/database.js:164 | the match is case-sensitive: "inv-0042" has none |
| Database.SaveNeedsUser | src/database.js:66-68 | saving without a user fails with "Not authenticated" |
| Database.SaveInvoice | src/database.js:66-94 | an error exactly when nobody is signed in; otherwise the row under (user, number) holds the record's ten written columns, its status is the replaced row's (or the column default for a new row), and the keys are the old keys plus that one |
| Database.StatusNotWritten | src/database.js:72-83 | the status sent with the record is not among the upserted columns: records differing only in status leave the same table |
| Database.SaveWritesOneRow | src/database.js:70-85 | an upsert writes exactly one row under (user, number), keeps every other row, and adds a row only for a new key |
| Database.SaveTwice | src/database.js:84 | saving one number twice leaves a single row holding the second record, with the status the row had before |
| Database.UsersDoNotCollide | src/database.js:84 | two users' rows with the same number are kept apart: the second save leaves the first user's row as it was |
| Sorting.Insert | src/invoices-main.js:164-185 | one insertion step adds exactly the element |
| Sorting.SortByKey | src/invoices-main.js:164-185 | the sort is a permutation of its input |
| Sorting.SortSorted | src/invoices-main.js:164-185 | the result's keys never decrease |
| Sorting.SortKeepsSorted | src/invoices-main.js:164-185 | an already-sorted list is left as it is |
| Sorting.InsertWithKey | src/invoices-main.js:164-185 | an insertion puts the element first among the elements with its key |
| Sorting.SortStable | src/invoices-main.js:164-185 | elements with equal keys keep their relative order (`Array.prototype.sort` is stable) |
| App.LocalStore.constructor | app.js:50 | the three storage entries hold what they are given |
| App.ItemsOf | app.js:146-156 | the card inputs, one per card, in card order |
| App.ReloadItem | app.js:251-257 | a reloaded item: an empty quantity becomes 1, an empty rate 0, and the texts are kept |
| App.LoadedForm | app.js:209-242 | the parties and number as saved; terms, currency, colour and discount type never empty, tax rate and discount value always set; a saved currency, tax rate or discount value is kept |
| App.TemplateForm | app.js:320-352 | the template's parties, the new number and dates; currency, terms and tax rate always set; discount, notes and payment instructions as they were |
| App.ReloadedCards | app.js:247-259 | one refilled card per saved item, in order, each storing quantity times rate |
| App.PreviewItems | app.js:586-629 | one preview item per card, in card order |
| App.NonBlankLinesKeep | app.js:850-855 | exactly the address lines that are not blank once trimmed are kept |
| App.PdfRows | app.js:867-896 | one PDF table row per card, in card order |
| App.SumAmounts | app.js:482-484 | the loop adds up the stored card amounts: the subtotal |
| App.Editor.constructor | app.js:9-16 | the page before `init`: the form's declared inputs, no cards, no logo, zero totals |
| App.Editor.Init | app.js:31-37 | the dates, the next number, one blank card and a first render; the counter moves on by one |
| App.Editor.SetDefaultDates | app.js:39-46 | only the two date inputs change |
| App.Editor.SetDefaultInvoiceNumber | app.js:48-58 | the stored counter (0 when absent) plus one, padded into the number input, and stored back |
| App.Editor.CalculateTotals | app.js:479-509 | the `state` totals and the four displays follow from the stored card amounts and the settings |
| App.Editor.WriteFigures | app.js:496-508 | the four `state` totals and the displays are written from one set of totals; form, cards, logo and preview stay |
| App.Editor.UpdateItemAmount | app.js:466-474 | only card i changes: it stores quantity times rate and shows it in the currency |
| App.Editor.AddItem | app.js:389-464 | a blank card is appended, and a valid editor stays valid |
| App.Editor.UpdatePreview | app.js:532-741 | the totals are recomputed and the preview shows the current form, cards and totals |
| App.Editor.EditForm | app.js:67-70 | an input outside the cards: the new values, then current totals and preview |
| App.Editor.EditItem | app.js:454-460 | an input on card i: only that card changes, with totals and preview current |
| App.Editor.RemoveItem | app.js:443-451 | refused with a toast for the last card; otherwise card i goes and totals and preview follow |
| App.Editor.GeneratePdf | app.js:743-983 | the document drawn from the current state |
| App.Editor.Save | app.js:119-178 | the invoice is stored under its number, or "INV-DRAFT", replacing only that entry |
| App.Editor.AppendCard | app.js:248-258 | one step of the load loop: a card with the saved inputs and its amount |
| App.Editor.LoadInvoice | app.js:199-268 | nothing for an empty name, a toast for an unknown one, else the form and cards refilled and totals and preview redone |
| App.Editor.LoadRecord | app.js:211-265 | a found record refills the form, the logo and the cards, and leaves totals and preview current |
| App.Editor.FillCards | app.js:243-262 | the cards become the saved items refilled, or one blank card when none were saved, every amount current |
| App.Editor.RefillCards | app.js:247-259 | one card per saved item, in order, each filled from its item and holding quantity times rate |
| App.Editor.SaveAsTemplate | app.js:272-305 | a cancelled or blank name stores nothing; otherwise the template is stored under the name as typed |
| App.Editor.HandleNew | app.js:105-117 | declined: nothing changes; confirmed: the form back to its declared inputs with new dates and the next number, no logo, one blank card, totals and preview current, the counter moved on by one, and the "New invoice created" toast |
| App.Editor.StartOver | app.js:344-351 | the tail `init`, `handleNew` and `loadTemplate` share: new dates, one blank card, totals and preview current, the rest of the form and the logo kept |
| App.Editor.LoadTemplate | app.js:309-354 | nothing for an empty name, a toast for an unknown one, else parties and settings, a new number and dates, one blank card |
| App.Editor.LoadFound | app.js:319-352 | for a found template: the counter moves on by one, the form becomes the template form with the new number and dates, one blank card |
| App.Editor.ApplyTemplate | app.js:320-352 | the template's parties and four settings, new dates, one blank card, totals and preview current |
| App.Editor.DeleteTemplate | app.js:374-383 | once confirmed, exactly that template is removed |
| App.AppendCurrentCard | app.js:462-463 | an appended card with a current amount adds exactly that amount to the subtotal |
| App.ReplaceCurrentCard | app.js:454-458 | a card edit keeps every amount current |
| App.RemoveCurrentCard | app.js:443-447 | removing a card keeps every other amount current |
| App.LoadedCardsCurrent | app.js:244-262 | loading leaves at least one card, each storing quantity times rate, no number input empty |
| App.SaveLoadRoundTrip | app.js:119-268 | saving then loading gives back the form and the card inputs when no setting was left empty |
| App.ReloadKeepsItems | app.js:247-259 | items with quantity and rate filled in come back unchanged |
| App.TemplateRoundTrip | app.js:272-340 | a template gives back the parties, colour, currency, terms and tax rate it was saved with |
| App.CounterIncreases | app.js:48-58 | successive counter values give different numbers that read back increasing |
| App.TotalsRowsShape | app.js:714-737 | Subtotal first, Amount Due last, Tax exactly when there is tax, Discount (with '-') exactly when there is a discount |
| App.TotalsRows | app.js:714-737 | two rows, plus one with tax and one with a discount; Subtotal first and Amount Due last, in the form's currency |
| App.PreviewShape | app.js:657-737 | a logo exactly when the stored one is a non-empty text; four header rows ending in Amount Due; one item per card; the totals block ends in the same Amount Due as the header |
| App.AppPdf | app.js:743-983 | the logo drawn exactly when there is one and it loads; a table with one row per card; a notes block exactly when there are notes; the totals end in Amount Due |
| App.PreviewItemsShow | app.js:586-629 | each preview item: the escaped description or "Item", details only when present, the stored amount |
| App.PreviewEscaping | app.js:586-695 | every field text in the preview is escaped except the two notes blocks, which appear exactly when present |
| App.PartyDetailsPresent | app.js:660-664 | address, email and phone, each exactly when present, in that order |
| App.PdfAddressLines | app.js:777-858 | every business address line is drawn, blank ones included; only non-blank client lines are |
| App.BlankLineExample | app.js:782-855 | "\n" gives the business two blank lines and the client none |
| App.PdfContent | app.js:865-981 | one row per card in order; notes only when present; the preview's totals block; the file "Invoice_" + number + ".pdf" |
| Ui.State.constructor | src/app-main.js:26-32 | the entry script's state: no logo, zero totals |
| Ui.ShownLogo | src/modules/ui.js:169 | a logo is drawn exactly when it is a non-empty text |
| Ui.Recomputed | src/modules/ui.js:91-98 | after the loop every card stores quantity times rate and shows it in the currency |
| Ui.GatheredItems | src/modules/ui.js:16-30 | one gathered item per card, in card order |
| Ui.Gather | src/modules/ui.js:14-80 | a draft with the preview's logo, one item per card, the form's date and currency, and the figures and displays read off the totals block |
| Ui.ItemAmounts | src/modules/ui.js:16-30 | the gathered amounts, in item order |
| Ui.PaperItems | src/modules/ui.js:150-164 | one preview item per record item, in order |
| Ui.PaperOf | src/modules/ui.js:135-220 | the given logo, a non-empty company name, one item per record item, and four header rows ending in the amount-due display |
| Ui.FilledItem | src/modules/ui.js:352-358 | a zero quantity is refilled as 1; rate and texts are kept |
| Ui.FilledForm | src/modules/ui.js:298-343 | notes always overwritten; number, parties, dates and settings replaced only by the sections present, and then never left without currency, terms, tax rate or discount value |
| Ui.FilledCards | src/modules/ui.js:348-359 | one new card per saved item, holding its inputs |
| Ui.Page.constructor | src/modules/ui.js:32-35 | the page before any handler: no cards, raw totals 0 |
| Ui.Page.CalculateTotals | src/modules/ui.js:87-133 | every card recomputed, the displays and raw values current; a passed state gets only subtotal and total |
| Ui.Page.WriteTotals | src/modules/ui.js:88-127 | the cards are recomputed and the raw values and displays follow from them and the settings; the form and preview stay |
| Ui.RecomputeCards | src/modules/ui.js:88-98 | the loop leaves every card holding quantity times rate, shown in the currency, and the subtotal is the sum of those amounts |
| Ui.RecomputeNext | src/modules/ui.js:92-97 | one pass of the loop extends the recomputed prefix by one card and the subtotal by its amount |
| Ui.Page.RenderPaperAsWritten | src/modules/ui.js:135-220 | without a state it throws at `state.logo` and the preview is unchanged; with one it draws the gathered record |
| Ui.Page.RenderPaper | src/modules/ui.js:135-220 | the preview drawn from the gathered record, with the logo only when a state has one |
| Ui.Page.UpdatePreviewAsWritten | src/modules/ui.js:82-85 | the totals are recomputed; the drawing throws exactly when no state is passed |
| Ui.Page.UpdatePreview | src/modules/ui.js:82-85 | the totals are recomputed, then the preview is drawn from the gathered record |
| Ui.Page.AddItem | src/modules/ui.js:244-296 | a new card is appended; nothing else changes |
| Ui.Page.RemoveItemAsWritten | src/modules/ui.js:282-289 | refused for the last card; otherwise the card goes and the totals follow, but the drawing throws and the preview is stale |
| Ui.Page.RemoveItem | src/modules/ui.js:282-289 | refused with a toast for the last card, nothing changed; otherwise the card goes, the totals follow the remaining cards and the preview is redrawn from them with the state's logo |
| Ui.Page.FillFormWithData | src/modules/ui.js:298-363 | nothing without data; otherwise the sections present refill the form and the cards are rebuilt, at least one |
| Ui.Page.FillCards | src/modules/ui.js:344-362 | the cards become one per saved item, or one blank card when there are none; the form, totals and preview stay |
| Ui.RecomputedAmounts | src/modules/ui.js:91-98 | after the loop every amount is current, and current amounts are unchanged |
| Ui.SameTotalsAsApp | src/modules/ui.js:87-109 | the modular totals equal app.js's for cards whose amounts are current |
| Ui.GatherItems | src/modules/ui.js:14-80 | a draft with one item per card; each amount is quantity times rate; they add up to the recorded subtotal |
| Ui.GatherFillRoundTrip | src/modules/ui.js:298-363 | gathering then filling gives back the form and card inputs when every setting is set and no quantity is 0 |
| Ui.PaperTotalsShape | src/modules/ui.js:212-217 | Subtotal first, Total Due last, Tax exactly when there is tax, Discount exactly when there is one and then "undefined" |
| Ui.PaperContent | src/modules/ui.js:150-195 | the fallback company name, every address line, the four meta rows, and one item per record item |
| Pdf.DisplayOr | src/modules/pdf.js:194 | `display \|\| raw`: the display unless it is empty text |
| Pdf.TableBody | src/modules/pdf.js:140-160 | one table row per item, in order |
| Pdf.DocumentOrNothing | src/modules/pdf.js:8-13 | no document without the library; with it the file is "Invoice-" + number + ".pdf" |
| Pdf.GeneratePdf | src/modules/pdf.js:8-235 | nothing exactly when the library is missing; otherwise a logo exactly when there is a non-empty one the library accepts, a table exactly when the plugin is there, one table row per item, and four header rows ending in the formatted amount due |
| Pdf.PdfTotalsShape | src/modules/pdf.js:192-209 | Subtotal first, Total last, Tax exactly when there is tax, and never a discount row |
| Pdf.PdfTotals | src/modules/pdf.js:192-209 | three rows with tax, two without; Subtotal first and Total last, each its display or else its figure |
| Pdf.PdfNotes | src/modules/pdf.js:217-232 | no block exactly when both texts are empty; "Notes:" first when there are notes and "Payment Instructions:" last when there are some, both as typed |
| Pdf.TableContent | src/modules/pdf.js:140-160 | each row: the description, alone exactly when there are no details, then quantity, rate and amount display |
| Pdf.PdfBlocks | src/modules/pdf.js:57-132 | every address line is drawn, email and phone only when present; notes blocks exactly when present |
| Pdf.PdfMatchesPage | src/modules/pdf.js:80-209 | the PDF of the gathered page shows the page's subtotal, total and amount-due displays |
| InvoiceList.Filter | src/invoices-main.js:131-150 | only invoices passing both the search and the consultant test are kept |
| InvoiceList.MatchesSearch | src/invoices-main.js:137-139 | a match needs an empty query or a number or client name at least as long as the query |
| InvoiceList.FilterKeepsAll | src/invoices-main.js:135-150 | no invoice passing both tests is dropped |
| InvoiceList.NoFilterKeepsList | src/invoices-main.js:137-143 | no query and no consultant keep the whole list in order |
| InvoiceList.SortInvoices | src/invoices-main.js:164-185 | every order is a permutation of the filtered list |
| InvoiceList.SortKey | src/invoices-main.js:164-185 | a sort happens exactly for the five known choices |
| InvoiceList.AmountDescending | src/invoices-main.js:172-174 | "amount-desc": totals never increase |
| InvoiceList.AmountAscending | src/invoices-main.js:175-177 | "amount-asc": totals never decrease |
| InvoiceList.NewestFirst | src/invoices-main.js:166-168 | "date-desc": creation times never increase |
| InvoiceList.OldestFirst | src/invoices-main.js:169-171 | "date-asc": a permutation whose creation times never decrease |
| InvoiceList.ClientOrder | src/invoices-main.js:178-184 | "client-asc": client names ascend in the collation |
| InvoiceList.TiesKeepOrder | src/invoices-main.js:164-185 | every order keeps ties in their earlier order |
| InvoiceList.UnknownOrderKeepsList | src/invoices-main.js:165-185 | an unknown order leaves the list as it is |
| InvoiceList.AddItemNames | src/invoices-main.js:80-84 | the item loop adds each trimmed non-empty consultant once |
| InvoiceList.CollectNames | src/invoices-main.js:77-86 | the `Set`: every trimmed non-empty consultant name exactly once |
| InvoiceList.PermutationDistinct | src/invoices-main.js:88 | sorting the distinct names keeps them distinct |
| InvoiceList.ConsultantOptions | src/invoices-main.js:66-96 | "All Consultants" first, then exactly the consultant names, once each, ascending in the collation |
| InvoiceList.VisibleOptions | src/invoices-main.js:119-128 | one visibility per option: shown exactly when the lower-cased option contains the lower-cased query |
| InvoiceList.EmptyQueryShowsAll | src/invoices-main.js:119-128 | an empty query shows every option |
| InvoiceList.QueryCaseIgnored | src/invoices-main.js:122 | a query and its lower-cased form show the same options |
| InvoiceList.TotalPages | src/invoices-main.js:248 | `Math.ceil(n / 20)`: the fewest pages of 20 that hold n invoices |
| InvoiceList.RenderPagination | src/invoices-main.js:247-280 | nothing for one page; otherwise Previous when not first, the page entries, Next when not last |
| InvoiceList.EntriesList | src/invoices-main.js:264-268 | a page is listed exactly when it is current, first, last or next to the current one |
| InvoiceList.EntriesBelow | src/invoices-main.js:264 | the entries name only pages 1 to the total |
| InvoiceList.EllipsisForGapOfTwo | src/invoices-main.js:269-270 | a page two away from the current one, not first or last, shows "..." |
| InvoiceList.ListPage.constructor | src/invoices-main.js:8-10 | the module's variables before loading: no invoices, nothing filtered, page 1, no search, no consultant, the empty state |
| InvoiceList.ListPage.LoadInvoices | src/invoices-main.js:361-386 | the user's invoices become the list; the filtered list is them filtered by the current search and consultant in the current order, rendered on the current page; the choices stay |
| InvoiceList.ListPage.ApplyFilters | src/invoices-main.js:131-154 | the filtered list is the kept invoices in the chosen order; nothing else changes |
| InvoiceList.ListPage.RenderInvoices | src/invoices-main.js:190-244 | the empty state when nothing is left; otherwise a row for every filtered invoice, and the buttons: none for one page, else Previous when not first, the page entries, Next when not last; the list and choices stay |
| InvoiceList.ListPage.Search | src/invoices-main.js:157-161 | back to page 1 with the list filtered by the new query and shown on page 1; the invoices, consultant and order stay |
| InvoiceList.ListPage.SelectConsultant | src/invoices-main.js:99-116 | back to page 1 with the list filtered by the chosen consultant and shown on page 1; the invoices, search and order stay |
| InvoiceList.ListPage.ChangeSort | src/invoices-main.js:164-186 | the sort select's change (invoices-main.js:428-430): the filtered list as it stands is re-sorted by the new choice and shown on the same page; the invoices, search and consultant stay |
| InvoiceList.ListPage.GoToPage | src/invoices-main.js:283-286 | the page number changes and the view is redrawn for it, with the same rows; the lists and choices stay |
| InvoiceList.RowsIgnorePage | src/invoices-main.js:211-217 | every page renders all filtered rows, more than 20 when there are more |
| InvoiceList.RowOf | src/invoices-main.js:211-217 | number and client name escaped, so free of markup; the creation, the total and the id as stored |
| Dashboard.CodesOf | src/dashboard-main.js:81 | the dictionary's keys, in insertion order |
| Dashboard.IndexOf | src/dashboard-main.js:62 | where a currency's bucket is, or None when it has none |
| Dashboard.SumByCurrency | src/dashboard-main.js:57-64 | one bucket per currency used, each holding that currency's total; the codes are in the order of each currency's first invoice |
| Dashboard.AddToTotals | src/dashboard-main.js:59-62 | one invoice keeps the buckets exact: its total goes to its currency's bucket, opened if new |
| Dashboard.BucketsExisting | src/dashboard-main.js:61-62 | an invoice in a known currency adds its total to that bucket |
| Dashboard.BucketsNew | src/dashboard-main.js:61-62 | an invoice in a new currency opens a bucket after the others |
| Dashboard.UsedCurrencyTotal | src/dashboard-main.js:57-64 | a currency nobody uses totals 0 |
| Dashboard.BucketsAddUp | src/dashboard-main.js:57-64 | the buckets add up to the list's total |
| Dashboard.UsedCurrencyCounted | src/dashboard-main.js:84-85 | a currency has a bucket exactly when it has an invoice |
| Dashboard.AveragesOfBuckets | src/dashboard-main.js:79-91 | every currency with a bucket gets an average, and average × count = total |
| Dashboard.AverageCodes | src/dashboard-main.js:83-91 | the averages are keyed by the buckets' codes, in the same order |
| Dashboard.MonthWithinYear | src/dashboard-main.js:67-75 | this month's invoices are this year's invoices of this month |
| Dashboard.CalculateStats | src/dashboard-main.js:51-100 | buckets for the month and year, the counts, and averages under distinct codes, one for every currency used, each its total over its count |
| Dashboard.DistinctCodesCount | src/dashboard-main.js:81-91 | distinct keys that are exactly a set's members are as many as the set |
| Dashboard.Formatted | src/dashboard-main.js:117-121 | one currency display per entry |
| Dashboard.StackedShape | src/dashboard-main.js:105-122 | no revenue shows $0.00; one currency its amount; several one line each, codes ascending |
| Dashboard.RenderStacked | src/dashboard-main.js:105-122 | no entries show $0.00; one entry shows a single amount; several show one line per entry |
| Dashboard.RecentFirstFive | src/dashboard-main.js:138-180 | an empty list shows the empty state; otherwise the first five invoices in order |
| Dashboard.RenderRecent | src/dashboard-main.js:138-180 | the empty state exactly for no invoices; otherwise between one and five rows, never more than the invoices |
| Dashboard.SixConsecutive | src/dashboard-main.js:192-196 | the six months end with the current one and follow one another across a year end |
| Dashboard.YearTextInjective | src/dashboard-main.js:194 | different years give different year texts |
| Dashboard.MonthTextShape | src/dashboard-main.js:194 | the month text is two digits worth month + 1 |
| Dashboard.MonthKeyInjective | src/dashboard-main.js:194 | different months give different 'YYYY-MM' keys |
| Dashboard.KeysDistinct | src/dashboard-main.js:192-196 | the six keys are distinct, so the chart has six buckets |
| Dashboard.ChartHit | src/dashboard-main.js:199-205 | an invoice of one of the six months adds to that bucket only |
| Dashboard.ChartMiss | src/dashboard-main.js:202-203 | an invoice of another month changes no bucket |
| Dashboard.MaxOr1 | src/dashboard-main.js:215 | at least 1 and every value, and either 1 or one of the values |
| Dashboard.RevenueChart | src/dashboard-main.js:183-215 | six keys oldest first with month labels, each value that month's revenue, and the max of the values and 1 |
| Dashboard.SixMonths | src/dashboard-main.js:192-196 | the six month keys oldest first, each bucket 0 |
| Dashboard.ChartMonth | src/dashboard-main.js:193-194 | bucket k is keyed by the month 5 - k months back and named after it |
| Dashboard.AddRevenue | src/dashboard-main.js:199-205 | each bucket ends holding its month's revenue |
| Dashboard.MonthRevenue | src/dashboard-main.js:199-205 | a month with no invoice has revenue 0 |
| Dashboard.AddMonthRevenue | src/dashboard-main.js:200-204 | one invoice keeps every bucket equal to its month's revenue: it adds only to its own month, if charted |
| EnvConfig.SettingsOf | scripts/verify-backend.js:16-22 | what each line sets the name to, one entry per line |
| EnvConfig.Setting | scripts/verify-backend.js:16-20 | a line without '=' sets nothing; a line that sets the name has that name as its trimmed key, and the value is already trimmed |
| EnvConfig.LoadEnv | scripts/verify-backend.js:14-22 | each variable ends with the trimmed value of the last line that sets it |
| EnvConfig.CheckConfig | scripts/verify-backend.js:28-31 | Ok exactly when both values are present and non-empty; otherwise the "Missing ..." message |
| EnvConfig.KeyPreview | scripts/verify-backend.js:34 | the first ten characters of the key (or all when shorter), then "..." |
| EnvConfig.SplitAtFirst | scripts/verify-backend.js:17 | a line splits at its first '=' |
| EnvConfig.FirstTwoFields | scripts/verify-backend.js:17 | only the first two fields count: `k=v=more` reads as k and v |
| EnvConfig.NoValueNoSetting | scripts/verify-backend.js:18 | a line with no '=' or nothing after it sets nothing |
| EnvConfig.LastOneWins | scripts/verify-backend.js:16-22 | the last value present wins, and there is none exactly when no line sets one |
| EnvConfig.LastLineWins | scripts/verify-backend.js:14-22 | a name is left with the value of its last setting line, or unset when no line sets it |
| EnvConfig.BlankValueRefused | scripts/verify-backend.js:18-31 | a value of only white space is read as "" and then refused |
| EnvConfig.TrimPlain | scripts/verify-backend.js:19-20 | a text with no white space at either end is its own trim and loses a trailing '\r' |
| EnvConfig.CarriageReturnTrimmed | scripts/verify-backend.js:19-20 | a CRLF line sets the value without the '\r' |

## Left out

- **Browser and DOM plumbing.** This covers:
  - markup, CSS classes, toasts, `confirm`/`prompt` dialogs (their answers are parameters);
  - the debounce timer (a debounced update is modelled as an immediate one);
  - `bindEventListeners` and the load and template dropdowns (`updateLoadDropdown`, `updateTemplateDropdown`);
  - `window.print`.
- **`handleLogoUpload` (app.js and ui.js).** The file reader is asynchronous browser I/O. The logo is a field set by the caller.
- **Locale formatting.** `toLocaleDateString` is a parameter of `Dates.FormatDate`. Other locale work is left out for the same reason:
  - the invoice list's `Intl.NumberFormat` dollar display: its table rows carry the raw total;
  - `parseDateToInput`: a parameter of `Ui.Page.FillFormWithData`;
  - the chart's month-name labels: a fixed English table indexed by month.
- **Floating point.** Amounts are exact reals. Binary rounding in `qty * rate` and in the percentages is not modelled.
- **Money.Cents**: ties are rounded half away from zero on the exact value, not on the binary double `toLocaleString` sees.
- **Non-ASCII `toLowerCase`.** `Strings.ToLower` lowers only A to Z. Other scripts' case mappings are left out.
- **`localeCompare`.** It is a supplied rank function. The sort's comparator is assumed consistent, as `Array.prototype.sort` requires.
- **Unparsable counter.** A `lastInvoiceNumber` that is not a number (`parseInt` gives NaN) is left out. The counter is a `nat` or absent.
- **Invoice status.** The invoices table's schema is not part of this model, so the status a newly inserted row takes is the `statusDefault` parameter of `Database.SaveInvoice`.
- **Large counters.** `parseInt` and `String(n)` (app.js:50-54, src/database.js:166-169) work on doubles and lose exactness above 2^53. The counter is an unbounded `nat`, so that loss is not modelled.
- **InvoiceList.ListPage.LoadInvoices**: the consultant options it fills in are `InvoiceList.ConsultantOptions` of the loaded invoices, not a field of the page. A failed load (the error toast) is left out with the server queries.
- **Select values.** A saved value that is not among a select's options (the browser would show the first option) is left out. Inputs hold what is written into them.
- **jsPDF drawing.** Coordinates, fonts, colours, page breaks and `splitTextToSize` are left out. Only which texts appear, in which order, is modelled.
- **Canvas drawing.** The chart's bars and gridlines (dashboard-main.js:216-298) are left out. Only its keys, labels, values and maximum are modelled.
- **Chart label parsing.** Labels are taken from the month index. Re-parsing the key through `new Date(year, month)` is left out. It would differ only for years before 0.
- **Supabase and the network.** The client, authentication (`getCurrentUser`, `auth.js`), template CRUD, `getInvoices`/`getInvoice` queries, `app-main.js`, `security.js`, `profile.js` and the layout component are left out. `saveInvoice` is modelled as the upsert on a table value, and `getNextInvoiceNumber` on the query's result.
- **Dashboard and list actions.** `emailInvoice`, `downloadPDF`, `deleteInvoice` and `viewInvoice` navigate, mail or call the server.
- **verify-backend.js after the configuration step** (lines 36-84). Sign-in, the query and the console listing call the network. A failed `readFileSync` is also left out.
- **App.Editor.AddItem**: the new card's amount is shown in the current currency. The initial "$0.00" that the card's markup shows before `updateItemAmount` runs is not kept.
- **Dashboard.RecentFirstFive**: the row's date is the creation record. The locale date text is not modelled.

## Findings

| source | as written | input that shows it | evidently intended | confidence | as-written member | corrected member |
|---|---|---|---|---|---|---|
| src/modules/ui.js:282-285 | the remove handler calls `updatePreview()` with no state, and `renderPaper` reads `state.logo` (ui.js:169) on `undefined` and throws | two cards; press remove on one of them | the preview redrawn without the removed card | not executed | Ui.Page.RemoveItemAsWritten | Ui.Page.RemoveItem |
| src/modules/ui.js:291-293 | every card input handler calls `updatePreview()` with no state, so the totals update but the drawing throws | type into any card's quantity | the preview redrawn with the new amounts | not executed | Ui.Page.UpdatePreviewAsWritten | Ui.Page.UpdatePreview |
