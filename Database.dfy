/**
 * `saveInvoice` of src/database.js: the invoices table seen as a map from its conflict key
 * (user id, invoice number) to the record last written under it.
 */
module Database {
  import opened Wrappers
  import opened Records

  /** The upsert's `onConflict` columns. */
  datatype Key = Key(userId: string, invoiceNumber: string)

  type Table = map<Key, InvoiceRecord>

  /**
   * The row an upsert leaves under `k`: every column from the record except `status`, which
   * the upsert does not write. A replaced row keeps its status; a new row takes the column's
   * default, which the table's schema sets and is a parameter here.
   */
  function Written(table: Table, k: Key, r: InvoiceRecord, statusDefault: string): InvoiceRecord
  {
    r.(status := if k in table then table[k].status else statusDefault)
  }

  /** Refuses without a signed-in user; otherwise inserts or replaces the row under its key. */
  function SaveInvoice(table: Table, user: Option<string>, r: InvoiceRecord, statusDefault: string): (result: Result<Table>)
    ensures result.Err? <==> user.None?
    ensures result.Ok? ==>
              var k := Key(user.value, r.invoiceNumber);
              k in result.value && result.value.Keys == table.Keys + {k}
              && result.value[k].status == (if k in table then table[k].status else statusDefault)
              && result.value[k] == r.(status := result.value[k].status)
  {
    match user
    case None => Err("Not authenticated")
    case Some(id) =>
      var k := Key(id, r.invoiceNumber);
      Ok(table[k := Written(table, k, r, statusDefault)])
  }

  /** Saving without a user changes nothing and reports the error. */
  lemma SaveNeedsUser(table: Table, r: InvoiceRecord, statusDefault: string)
    ensures SaveInvoice(table, None, r, statusDefault) == Err("Not authenticated")
  {
  }

  /**
   * Saving writes exactly one row: the record, less its status, is found under its key, every
   * other key keeps its row, and the table grows by one row only when the key was new.
   */
  lemma SaveWritesOneRow(table: Table, id: string, r: InvoiceRecord, statusDefault: string)
    ensures var k := Key(id, r.invoiceNumber);
            var t := SaveInvoice(table, Some(id), r, statusDefault);
            t.Ok? && k in t.value && t.value[k] == Written(table, k, r, statusDefault)
            && t.value.Keys == table.Keys + {k}
            && (forall k' :: k' in table && k' != k ==> k' in t.value && t.value[k'] == table[k'])
            && |t.value| == (if k in table then |table| else |table| + 1)
  {
    var k := Key(id, r.invoiceNumber);
    var t := table[k := Written(table, k, r, statusDefault)];
    if k in table {
      assert t.Keys == table.Keys;
    } else {
      assert t.Keys == table.Keys + {k};
    }
  }

  /**
   * The status sent with the record is never stored: two records that differ only in their
   * status leave the same table.
   */
  lemma StatusNotWritten(table: Table, id: string, r: InvoiceRecord, status: string, statusDefault: string)
    ensures SaveInvoice(table, Some(id), r.(status := status), statusDefault) == SaveInvoice(table, Some(id), r, statusDefault)
  {
    var k := Key(id, r.invoiceNumber);
    assert Written(table, k, r.(status := status), statusDefault) == Written(table, k, r, statusDefault);
  }

  /**
   * Saving the same invoice number twice leaves one row, holding the second record and the
   * status the row had before either save (or the default).
   */
  lemma SaveTwice(table: Table, id: string, first: InvoiceRecord, second: InvoiceRecord, statusDefault: string)
    requires first.invoiceNumber == second.invoiceNumber
    ensures var once := SaveInvoice(table, Some(id), first, statusDefault).value;
            SaveInvoice(once, Some(id), second, statusDefault) == SaveInvoice(table, Some(id), second, statusDefault)
  {
    var k := Key(id, first.invoiceNumber);
    var once := table[k := Written(table, k, first, statusDefault)];
    assert Written(once, k, second, statusDefault) == Written(table, k, second, statusDefault);
    assert once[k := Written(once, k, second, statusDefault)] == table[k := Written(table, k, second, statusDefault)];
  }

  /** Different users may hold the same invoice number: their rows do not collide. */
  lemma UsersDoNotCollide(table: Table, alice: string, bob: string, r: InvoiceRecord, s: InvoiceRecord, statusDefault: string)
    requires alice != bob && r.invoiceNumber == s.invoiceNumber
    ensures var once := SaveInvoice(table, Some(alice), r, statusDefault).value;
            var t := SaveInvoice(once, Some(bob), s, statusDefault).value;
            t[Key(alice, r.invoiceNumber)] == once[Key(alice, r.invoiceNumber)]
            && t[Key(alice, r.invoiceNumber)] == r.(status := t[Key(alice, r.invoiceNumber)].status)
            && t[Key(bob, s.invoiceNumber)] == s.(status := t[Key(bob, s.invoiceNumber)].status)
  {
  }
}
