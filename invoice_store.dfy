/**
 * The invoice store: one `data` record that every action replaces by a
 * shallow merge, the default invoice it starts from, and its actions.
 */
module InvoiceStore {
  import opened Schemas
  import Lists

  /** A key of a partial update: present (`Some`) overrides, absent keeps. */
  function Override<T>(present: Option<T>, current: T): T
  {
    if present.Some? then present.value else current
  }

  /** `Partial<senderDetails>`.  For the optional keys, `Some(None)` is a key
      present with the value `undefined`. */
  datatype SenderPatch = SenderPatch(name: Option<string>, address: Option<Option<string>>, logo: Option<Option<string>>)

  /** `Partial<clientDetails>`. */
  datatype ClientPatch = ClientPatch(name: Option<string>, address: Option<Option<string>>, email: Option<Option<string>>)

  /** `Partial<Pick<invoice, invoiceNumber | date | dueDate | status>>`. */
  datatype InfoPatch = InfoPatch(invoiceNumber: Option<string>, date: Option<Date>, dueDate: Option<Date>, status: Option<Status>)

  /** `Partial<item>`. */
  datatype ItemPatch = ItemPatch(id: Option<string>, description: Option<string>, quantity: Option<real>, unitPrice: Option<real>)

  const EmptySenderPatch := SenderPatch(None, None, None)
  const EmptyClientPatch := ClientPatch(None, None, None)

  /** `{ ...s, ...p }`: every key present in `p` is overwritten, every other key kept. */
  function MergeSender(s: SenderDetails, p: SenderPatch): (r: SenderDetails)
    ensures p.name.None? ==> r.name == s.name
    ensures p.address.None? ==> r.address == s.address
    ensures p.logo.None? ==> r.logo == s.logo
    ensures p.name.Some? ==> r.name == p.name.value
    ensures p.address.Some? ==> r.address == p.address.value
    ensures p.logo.Some? ==> r.logo == p.logo.value
  {
    SenderDetails(Override(p.name, s.name), Override(p.address, s.address), Override(p.logo, s.logo))
  }

  function MergeClient(c: ClientDetails, p: ClientPatch): (r: ClientDetails)
    ensures p.name.None? ==> r.name == c.name
    ensures p.address.None? ==> r.address == c.address
    ensures p.email.None? ==> r.email == c.email
    ensures p.name.Some? ==> r.name == p.name.value
    ensures p.address.Some? ==> r.address == p.address.value
    ensures p.email.Some? ==> r.email == p.email.value
  {
    ClientDetails(Override(p.name, c.name), Override(p.address, c.address), Override(p.email, c.email))
  }

  function MergeItem(item: Item, p: ItemPatch): (r: Item)
    ensures p.id.None? ==> r.id == item.id
    ensures p.description.None? ==> r.description == item.description
    ensures p.quantity.None? ==> r.quantity == item.quantity
    ensures p.unitPrice.None? ==> r.unitPrice == item.unitPrice
    ensures p.id.Some? ==> r.id == p.id.value
    ensures p.description.Some? ==> r.description == p.description.value
    ensures p.quantity.Some? ==> r.quantity == p.quantity.value
    ensures p.unitPrice.Some? ==> r.unitPrice == p.unitPrice.value
  {
    Item(Override(p.id, item.id), Override(p.description, item.description),
         Override(p.quantity, item.quantity), Override(p.unitPrice, item.unitPrice))
  }

  /** `{ ...data, ...info }`: only the invoice number, the dates and the status
      can change, and only those whose key is present. */
  function ApplyInfo(d: Invoice, p: InfoPatch): (r: Invoice)
    ensures r.senderDetails == d.senderDetails && r.clientDetails == d.clientDetails
    ensures r.items == d.items && r.taxRate == d.taxRate && r.discount == d.discount
    ensures r.currency == d.currency
    ensures p.invoiceNumber.None? ==> r.invoiceNumber == d.invoiceNumber
    ensures p.date.None? ==> r.date == d.date
    ensures p.dueDate.None? ==> r.dueDate == d.dueDate
    ensures p.status.None? ==> r.status == d.status
    ensures p.invoiceNumber.Some? ==> r.invoiceNumber == p.invoiceNumber.value
    ensures p.date.Some? ==> r.date == p.date.value
    ensures p.dueDate.Some? ==> r.dueDate == p.dueDate.value
    ensures p.status.Some? ==> r.status == p.status.value
  {
    d.(invoiceNumber := Override(p.invoiceNumber, d.invoiceNumber),
       date := Override(p.date, d.date),
       dueDate := Override(p.dueDate, d.dueDate),
       status := Override(p.status, d.status))
  }

  /** The patch that applies `p` and then `q`: a key of `q` wins over the same key of `p`. */
  function ThenSender(p: SenderPatch, q: SenderPatch): SenderPatch
  {
    SenderPatch(if q.name.Some? then q.name else p.name,
                if q.address.Some? then q.address else p.address,
                if q.logo.Some? then q.logo else p.logo)
  }

  /** The patch carrying every key of `s`, as a whole object spread into a merge. */
  function WholeSender(s: SenderDetails): SenderPatch
  {
    SenderPatch(Some(s.name), Some(s.address), Some(s.logo))
  }

  function WholeClient(c: ClientDetails): ClientPatch
  {
    ClientPatch(Some(c.name), Some(c.address), Some(c.email))
  }

  lemma MergeSenderEmpty(s: SenderDetails)
    ensures MergeSender(s, EmptySenderPatch) == s
  {
  }

  lemma MergeClientEmpty(c: ClientDetails)
    ensures MergeClient(c, EmptyClientPatch) == c
  {
  }

  /** Merging the same partial twice is merging it once. */
  lemma MergeSenderIdempotent(s: SenderDetails, p: SenderPatch)
    ensures MergeSender(MergeSender(s, p), p) == MergeSender(s, p)
  {
  }

  /** Two successive merges are one merge of the combined partial. */
  lemma MergeSenderThen(s: SenderDetails, p: SenderPatch, q: SenderPatch)
    ensures MergeSender(MergeSender(s, p), q) == MergeSender(s, ThenSender(p, q))
  {
  }

  /** Merging a whole copy replaces the sub-object by that copy. */
  lemma MergeWhole(s: SenderDetails, t: SenderDetails, c: ClientDetails, u: ClientDetails)
    ensures MergeSender(s, WholeSender(t)) == t
    ensures MergeClient(c, WholeClient(u)) == u
  {
  }

  /** The row `addItem` appends: empty description, quantity 1, price 0. */
  function BlankItem(id: string): (r: Item)
    ensures r.id == id && r.description == "" && r.quantity == 1.0 && r.unitPrice == 0.0
  {
    Item(id, "", 1.0, 0.0)
  }

  /** `initialInvoice`, built once from the day the store module is loaded. */
  function InitialInvoice(loadedOn: Date): (inv: Invoice)
    ensures inv.date == loadedOn && inv.dueDate.day == loadedOn.day + 7
    ensures inv.items == [Item("item-1", "Jasa Pembuatan Website", 1.0, 1500000.0)]
    ensures inv.taxRate == 0.0 && inv.discount == 0.0
    ensures inv.status == Unpaid && inv.currency == "IDR"
    ensures inv.clientDetails.name == ""
  {
    Invoice(
      "INV-001",
      loadedOn,
      AddDays(loadedOn, 7),
      SenderDetails("Minilemon Media", Some("Jl. Veteran No. 1, Semarang, Jawa Tengah"), Some("")),
      ClientDetails("", Some(""), Some("")),
      [Item("item-1", "Jasa Pembuatan Website", 1.0, 1500000.0)],
      0.0,
      0.0,
      Unpaid,
      "IDR")
  }

  /** The default invoice does not pass the schema: its only issue is the empty client name. */
  lemma InitialInvoiceFailsSchema(loadedOn: Date, isEmail: string -> bool)
    ensures Issues(InitialInvoice(loadedOn), isEmail) == [ClientNameMissing]
    ensures !ValidInvoice(InitialInvoice(loadedOn), isEmail)
  {
    var inv := InitialInvoice(loadedOn);
    assert ItemIssues(inv.items, 0) == [];
    assert HeaderIssues(inv, isEmail) == [ClientNameMissing];
    assert TailIssues(inv) == [];
  }

  /** `removeItem` is unguarded: removing the only item leaves an invoice the
      schema rejects for having no items. */
  lemma RemovingOnlyItemBreaksSchema(d: Invoice, isEmail: string -> bool)
    requires |d.items| == 1
    ensures Lists.WithoutIndex(d.items, 0) == []
    ensures NoItems in Issues(d.(items := Lists.WithoutIndex(d.items, 0)), isEmail)
    ensures !ValidInvoice(d.(items := Lists.WithoutIndex(d.items, 0)), isEmail)
  {
    TailIssuesListed(d.(items := []), isEmail);
  }

  /** The store.  `data` is the record every action replaces; `initialInvoice`
      is the default captured when the store was created. */
  class Store {
    var data: Invoice
    const initialInvoice: Invoice

    constructor (loadedOn: Date)
      ensures initialInvoice == InitialInvoice(loadedOn)
      ensures data == initialInvoice
    {
      initialInvoice := InitialInvoice(loadedOn);
      data := InitialInvoice(loadedOn);
    }

    /** `setSenderDetails`: shallow merge into the sender only. */
    method SetSenderDetails(details: SenderPatch)
      modifies this
      ensures data == old(data).(senderDetails := MergeSender(old(data).senderDetails, details))
    {
      data := data.(senderDetails := MergeSender(data.senderDetails, details));
    }

    /** `setClientDetails`: shallow merge into the client only. */
    method SetClientDetails(details: ClientPatch)
      modifies this
      ensures data == old(data).(clientDetails := MergeClient(old(data).clientDetails, details))
    {
      data := data.(clientDetails := MergeClient(data.clientDetails, details));
    }

    /** `setInvoiceInfo`: shallow merge of number, dates and status into the record. */
    method SetInvoiceInfo(info: InfoPatch)
      modifies this
      ensures data == ApplyInfo(old(data), info)
    {
      data := ApplyInfo(data, info);
    }

    /** `addItem`, with the fresh id supplied by the caller. */
    method AddItem(id: string)
      modifies this
      ensures data == old(data).(items := old(data).items + [BlankItem(id)])
      ensures |data.items| == |old(data).items| + 1 && data.items[..|old(data).items|] == old(data).items
    {
      data := data.(items := data.items + [BlankItem(id)]);
    }

    /** `removeItem`: filters out the element at `index`, with no guard on the count. */
    method RemoveItem(index: int)
      modifies this
      ensures data == old(data).(items := Lists.WithoutIndex(old(data).items, index))
      ensures 0 <= index < |old(data).items| ==> |data.items| == |old(data).items| - 1
      ensures !(0 <= index < |old(data).items|) ==> data.items == old(data).items
    {
      data := data.(items := Lists.WithoutIndex(data.items, index));
    }

    /** `updateItem`: copies the items, merges `item` into the copy at `index`.
        A negative index writes a property that is not an element of the list. */
    method UpdateItem(index: int, item: ItemPatch)
      requires index < |data.items|
      modifies this
      ensures index >= 0 ==> data == old(data).(items := old(data).items[index := MergeItem(old(data).items[index], item)])
      ensures index < 0 ==> data == old(data)
    {
      var newItems := new Item[|data.items|](i requires 0 <= i < |data.items| reads this => data.items[i]);
      if index >= 0 {
        newItems[index] := MergeItem(newItems[index], item);
      }
      data := data.(items := newItems[..]);
    }

    /** `setTaxRate`: stored as given, with no bounds check. */
    method SetTaxRate(rate: real)
      modifies this
      ensures data == old(data).(taxRate := rate)
    {
      data := data.(taxRate := rate);
    }

    /** `setDiscount`: stored as given, with no bounds check. */
    method SetDiscount(amount: real)
      modifies this
      ensures data == old(data).(discount := amount)
    {
      data := data.(discount := amount);
    }

    /** `resetForm`: back to the default captured at creation, dates included. */
    method ResetForm()
      modifies this
      ensures data == initialInvoice
    {
      data := initialInvoice;
    }
  }
}
