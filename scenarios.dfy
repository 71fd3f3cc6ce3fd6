/**
 * Worked examples of the model: totals of concrete invoices, the logo size
 * gate on a concrete file, and short sequences of store and form actions.
 */
module Scenarios {
  import opened Schemas
  import opened InvoiceStore
  import opened MainForm
  import opened SimpleTemplate
  import opened LogoUpload
  import Lists

  /** The default invoice totals 1,500,000 with no tax. */
  lemma DefaultTotals(loadedOn: Date)
    ensures ComputeTotals(InitialInvoice(loadedOn)) == Totals(1500000.0, 0.0, 1500000.0)
  {
    var inv := InitialInvoice(loadedOn);
    assert Subtotal(inv.items) == Subtotal([]) + LineAmount(inv.items[0]);
  }

  /** Two items (2 x 10,000 and 3 x 20,000), 10 % tax and a discount of 5,000. */
  lemma TaxAndDiscountTotals(inv: Invoice)
    requires inv.items == [Item("a", "", 2.0, 10000.0), Item("b", "", 3.0, 20000.0)]
    requires inv.taxRate == 10.0 && inv.discount == 5000.0
    ensures ComputeTotals(inv) == Totals(80000.0, 8000.0, 83000.0)
  {
    assert inv.items[..1][..0] == [];
    assert Subtotal(inv.items[..1]) == 20000.0;
    assert Subtotal(inv.items) == 80000.0;
  }

  /** A discount larger than subtotal plus tax gives a negative grand total. */
  lemma DiscountBeyondTotal(inv: Invoice)
    requires inv.items == [Item("a", "", 3.0, 10000.0)]
    requires inv.taxRate == 0.0 && inv.discount == 50000.0
    ensures ComputeTotals(inv).grandTotal == -20000.0
  {
    assert inv.items[..0] == [];
    assert Subtotal(inv.items) == 30000.0;
  }

  /** A 3 MB file is turned away with the alert and sets no logo. */
  lemma ThreeMegabyteLogoRejected()
    ensures SizeGate(Some(FileInfo(3 * 1024 * 1024))) == TooLarge(TooLargeAlert)
  {
  }

  /** The store lets its only item be removed. */
  method RemoveOnlyItem(loadedOn: Date) returns (store: Store)
    ensures fresh(store)
    ensures store.data == InitialInvoice(loadedOn).(items := [])
  {
    store := new Store(loadedOn);
    store.RemoveItem(0);
  }

  /** A read that completes after the logo was removed still sets its result:
      nothing discards a stale read. */
  method StaleReadAfterRemove(uploader: LogoUploader, form: InvoiceForm, result: string)
    modifies uploader, form
    ensures form.values.senderDetails.logo == Some(result)
  {
    uploader.RemoveLogo(form);
    uploader.OnLoadEnd(form, result);
  }

  /** A logo read into the form reaches the store on the next sync. */
  method UploadThenSync(uploader: LogoUploader, form: InvoiceForm, store: Store, result: string)
    modifies form, store
    ensures store.data.senderDetails == form.values.senderDetails
    ensures store.data.senderDetails.logo == Some(result)
  {
    uploader.OnLoadEnd(form, result);
    OnWatch(store, form.Watch());
    MergeWhole(old(store.data).senderDetails, form.values.senderDetails,
               old(store.data).clientDetails, form.values.clientDetails);
  }
}
