/**
 * The invoice form: its working copy of the invoice, the watch callback that
 * pushes every form change into the store, the status select and the inline
 * logo picker that writes straight into the store.
 */
module MainForm {
  import opened Schemas
  import opened InvoiceStore

  /** The value the watch callback receives: every key may be absent. */
  datatype FormValue = FormValue(
    invoiceNumber: Option<string>,
    date: Option<Date>,
    dueDate: Option<Date>,
    senderDetails: Option<SenderPatch>,
    clientDetails: Option<ClientPatch>,
    items: Option<seq<Item>>,
    taxRate: Option<real>,
    discount: Option<real>,
    status: Option<Status>,
    currency: Option<string>)

  /** JavaScript truthiness of an optional string: present and not empty. */
  predicate Truthy(s: Option<string>)
  {
    s.Some? && s.value != ""
  }

  /** The store record after the watch callback has handled `v`. */
  function SyncedData(d: Invoice, v: FormValue): (r: Invoice)
    // Dates and currency are never written.
    ensures r.date == d.date && r.dueDate == d.dueDate && r.currency == d.currency
    // The sub-objects are shallow-merged with the form's copy when it is there.
    ensures v.senderDetails.None? ==> r.senderDetails == d.senderDetails
    ensures v.senderDetails.Some? ==> r.senderDetails == MergeSender(d.senderDetails, v.senderDetails.value)
    ensures v.clientDetails.None? ==> r.clientDetails == d.clientDetails
    ensures v.clientDetails.Some? ==> r.clientDetails == MergeClient(d.clientDetails, v.clientDetails.value)
    // The invoice number follows the form only while it is not empty.
    ensures Truthy(v.invoiceNumber) ==> r.invoiceNumber == v.invoiceNumber.value
    ensures !Truthy(v.invoiceNumber) ==> r.invoiceNumber == d.invoiceNumber
    // Tax rate, discount and status are written whenever defined, unchecked.
    ensures r.taxRate == if v.taxRate.Some? then v.taxRate.value else d.taxRate
    ensures r.discount == if v.discount.Some? then v.discount.value else d.discount
    ensures r.status == if v.status.Some? then v.status.value else d.status
    // The items are replaced wholesale.
    ensures r.items == if v.items.Some? then v.items.value else d.items
  {
    Invoice(
      if Truthy(v.invoiceNumber) then v.invoiceNumber.value else d.invoiceNumber,
      d.date,
      d.dueDate,
      if v.senderDetails.Some? then MergeSender(d.senderDetails, v.senderDetails.value) else d.senderDetails,
      if v.clientDetails.Some? then MergeClient(d.clientDetails, v.clientDetails.value) else d.clientDetails,
      Override(v.items, d.items),
      Override(v.taxRate, d.taxRate),
      Override(v.discount, d.discount),
      Override(v.status, d.status),
      d.currency)
  }

  /** The watch callback: the store actions it calls, in its order, and the
      direct state write for the items. */
  method OnWatch(store: Store, value: FormValue)
    modifies store
    ensures store.data == SyncedData(old(store.data), value)
  {
    if value.senderDetails.Some? {
      store.SetSenderDetails(value.senderDetails.value);
    }
    if value.clientDetails.Some? {
      store.SetClientDetails(value.clientDetails.value);
    }
    if Truthy(value.invoiceNumber) {
      store.SetInvoiceInfo(InfoPatch(value.invoiceNumber, None, None, None));
    }
    if value.taxRate.Some? {
      store.SetTaxRate(value.taxRate.value);
    }
    if value.discount.Some? {
      store.SetDiscount(value.discount.value);
    }
    if value.status.Some? {
      store.SetInvoiceInfo(InfoPatch(None, None, None, value.status));
    }
    if value.items.Some? {
      store.data := store.data.(items := value.items.value);
    }
  }

  /** The value watch reports for the whole form `f`: every key present. */
  function WatchValue(f: Invoice): FormValue
  {
    FormValue(Some(f.invoiceNumber), Some(f.date), Some(f.dueDate),
              Some(WholeSender(f.senderDetails)), Some(WholeClient(f.clientDetails)),
              Some(f.items), Some(f.taxRate), Some(f.discount), Some(f.status), Some(f.currency))
  }

  /** After a sync of the whole form, the store equals the form except for the
      dates and the currency, which keep the store's values, and an empty
      invoice number, which keeps the store's previous number. */
  lemma SyncMirrorsForm(d: Invoice, f: Invoice)
    ensures SyncedData(d, WatchValue(f))
            == f.(invoiceNumber := if f.invoiceNumber != "" then f.invoiceNumber else d.invoiceNumber,
                  date := d.date, dueDate := d.dueDate, currency := d.currency)
  {
    MergeWhole(d.senderDetails, f.senderDetails, d.clientDetails, f.clientDetails);
  }

  /** Handling the same value twice is handling it once. */
  lemma SyncIdempotent(d: Invoice, v: FormValue)
    ensures SyncedData(SyncedData(d, v), v) == SyncedData(d, v)
  {
    if v.senderDetails.Some? {
      MergeSenderIdempotent(d.senderDetails, v.senderDetails.value);
    }
    if v.clientDetails.Some? {
      var c, p := d.clientDetails, v.clientDetails.value;
      assert MergeClient(MergeClient(c, p), p) == MergeClient(c, p);
    }
  }

  /** The choices of the status select. */
  const StatusChoices: seq<Status> := [Unpaid, Paid, Partial]

  /** A status the schema rejects can be chosen and reaches the store unchecked. */
  lemma PartialReachesStore(d: Invoice, v: FormValue, isEmail: string -> bool)
    requires v.status == Some(Partial)
    ensures Partial in StatusChoices
    ensures SyncedData(d, v).status == Partial
    ensures !ValidInvoice(SyncedData(d, v), isEmail)
    ensures StatusNotAllowed in Issues(SyncedData(d, v), isEmail)
  {
    TailIssuesListed(SyncedData(d, v), isEmail);
  }

  /** The form's working copy of the invoice. */
  class InvoiceForm {
    var values: Invoice

    /** `defaultValues`: the store's record at mount. */
    constructor (data: Invoice)
      ensures values == data
    {
      values := data;
    }

    /** What `watch` hands to its subscriber for the current values. */
    function Watch(): FormValue
      reads this
    {
      WatchValue(values)
    }

    /** `onValueChange` of the status select: `setValue("status", val)`. */
    method SelectStatus(val: Status)
      modifies this
      ensures values == old(values).(status := val)
    {
      values := values.(status := val);
    }
  }

  /** A file as picked in a file input; only its byte size matters here. */
  datatype FileInfo = FileInfo(size: nat)

  /** The patch the inline picker hands to `setSenderDetails`:
      `{ ...snapshot, logo: result }`, where `snapshot` is the sender as the
      form last rendered it. */
  function InlineLogoPatch(snapshot: SenderDetails, result: string): SenderPatch
  {
    SenderPatch(Some(snapshot.name), Some(snapshot.address), Some(Some(result)))
  }

  /** When the snapshot is still current, only the logo changes. */
  lemma InlineLogoKeepsOtherSenderFields(s: SenderDetails, result: string)
    ensures MergeSender(s, InlineLogoPatch(s, result)) == s.(logo := Some(result))
  {
  }

  /** A snapshot taken before a later edit puts the older name back. */
  lemma InlineLogoStaleSnapshot(s: SenderDetails, snapshot: SenderDetails, result: string)
    ensures MergeSender(s, InlineLogoPatch(snapshot, result)).name == snapshot.name
  {
  }

  /** The picker writes the logo to the store only, so the form keeps its old
      logo; the next sync of the form merges that old logo back over the new one. */
  lemma InlineLogoUndoneByNextSync(d: Invoice, f: Invoice, snapshot: SenderDetails, result: string)
    ensures SyncedData(d.(senderDetails := MergeSender(d.senderDetails, InlineLogoPatch(snapshot, result))),
                       WatchValue(f)).senderDetails.logo
            == f.senderDetails.logo
  {
    MergeWhole(MergeSender(d.senderDetails, InlineLogoPatch(snapshot, result)), f.senderDetails,
               d.clientDetails, f.clientDetails);
  }

  /** The inline logo picker with its own preview state. */
  class InlineLogoUpload {
    var preview: Option<string>

    constructor (value: Option<string>)
      ensures preview == value
    {
      preview := value;
    }

    /** `handleFile`: no file means nothing happens; any file starts a read,
        whatever its size. */
    method HandleFile(file: Option<FileInfo>) returns (readStarted: bool)
      ensures readStarted <==> file.Some?
    {
      if file.None? {
        return false;
      }
      readStarted := true;
    }

    /** `reader.onload`: the preview shows the result and the store's sender
        gets it as its logo, merged over the render-time snapshot. */
    method OnLoad(result: string, store: Store, snapshot: SenderDetails)
      modifies this, store
      ensures preview == Some(result)
      ensures store.data == old(store.data).(senderDetails := MergeSender(old(store.data).senderDetails, InlineLogoPatch(snapshot, result)))
    {
      preview := Some(result);
      store.SetSenderDetails(InlineLogoPatch(snapshot, result));
    }
  }
}
