/**
 * The data-driven part of the PDF template: the totals it computes from the
 * invoice and what it decides to show (title, stamp, optional rows, name
 * placeholders, one table row per item).  Layout, styles and currency
 * formatting are not modelled.
 */
module SimpleTemplate {
  import opened Schemas
  import Lists

  /** The amount of one line: quantity times unit price. */
  function LineAmount(item: Item): real
  {
    item.quantity * item.unitPrice
  }

  /** `items.reduce((acc, item) => acc + quantity * unitPrice, 0)`: the sum of
      the line amounts accumulated from the left. */
  function Subtotal(items: seq<Item>): real
    decreases |items|
  {
    if items == [] then 0.0
    else Subtotal(items[..|items| - 1]) + LineAmount(items[|items| - 1])
  }

  /** Appending an item adds exactly its line amount. */
  lemma SubtotalAppend(items: seq<Item>, x: Item)
    ensures Subtotal(items + [x]) == Subtotal(items) + LineAmount(x)
  {
    assert (items + [x])[..|items|] == items;
  }

  /** The subtotal of a concatenation is the sum of the subtotals. */
  lemma {:induction false} SubtotalConcat(a: seq<Item>, b: seq<Item>)
    ensures Subtotal(a + b) == Subtotal(a) + Subtotal(b)
    decreases |b|
  {
    if b == [] {
      assert a + b == a;
    } else {
      var front, last := b[..|b| - 1], b[|b| - 1];
      assert b == front + [last];
      assert a + b == (a + front) + [last];
      SubtotalAppend(a + front, last);
      SubtotalConcat(a, front);
      SubtotalAppend(front, last);
    }
  }

  /** With no negative quantity or price, the subtotal is not negative. */
  lemma {:induction false} SubtotalNonNegative(items: seq<Item>)
    requires forall i :: 0 <= i < |items| ==> items[i].quantity >= 0.0 && items[i].unitPrice >= 0.0
    ensures Subtotal(items) >= 0.0
    decreases |items|
  {
    if items != [] {
      var front := items[..|items| - 1];
      assert forall i :: 0 <= i < |front| ==> front[i] == items[i];
      SubtotalNonNegative(front);
    }
  }

  /** Removing item `index` takes exactly its line amount off the subtotal. */
  lemma SubtotalWithoutIndex(items: seq<Item>, index: int)
    requires 0 <= index < |items|
    ensures Subtotal(Lists.WithoutIndex(items, index)) == Subtotal(items) - LineAmount(items[index])
  {
    var before, after := items[..index], items[index + 1..];
    assert items == (before + [items[index]]) + after;
    assert Lists.WithoutIndex(items, index) == before + after;
    SubtotalConcat(before + [items[index]], after);
    SubtotalConcat(before, after);
    SubtotalAppend(before, items[index]);
  }

  /** Replacing item `index` changes the subtotal by the difference of the two line amounts. */
  lemma SubtotalReplace(items: seq<Item>, index: int, x: Item)
    requires 0 <= index < |items|
    ensures Subtotal(items[index := x]) == Subtotal(items) - LineAmount(items[index]) + LineAmount(x)
  {
    var before, after := items[..index], items[index + 1..];
    assert items == before + [items[index]] + after;
    assert items[index := x] == before + [x] + after;
    SubtotalConcat(before + [items[index]], after);
    SubtotalConcat(before + [x], after);
    SubtotalAppend(before, items[index]);
    SubtotalAppend(before, x);
  }

  /** The three figures of the totals block. */
  datatype Totals = Totals(subtotal: real, taxAmount: real, grandTotal: real)

  /** `taxAmount = subtotal * taxRate / 100`, `grandTotal = subtotal + taxAmount - discount`,
      with no clamping of the grand total. */
  function ComputeTotals(inv: Invoice): (t: Totals)
    ensures t.subtotal == Subtotal(inv.items)
    ensures t.taxAmount * 100.0 == t.subtotal * inv.taxRate
    ensures t.grandTotal + inv.discount == t.subtotal + t.taxAmount
    ensures t.grandTotal < 0.0 <==> inv.discount > t.subtotal + t.taxAmount
    ensures ((forall i :: 0 <= i < |inv.items| ==> inv.items[i].quantity >= 0.0 && inv.items[i].unitPrice >= 0.0)
             && inv.taxRate >= 0.0) ==> t.subtotal >= 0.0 && t.taxAmount >= 0.0
  {
    var subtotal := Subtotal(inv.items);
    var taxAmount := subtotal * inv.taxRate / 100.0;
    if (forall i :: 0 <= i < |inv.items| ==> inv.items[i].quantity >= 0.0 && inv.items[i].unitPrice >= 0.0) then
      SubtotalNonNegative(inv.items);
      Totals(subtotal, taxAmount, subtotal + taxAmount - inv.discount)
    else
      Totals(subtotal, taxAmount, subtotal + taxAmount - inv.discount)
  }

  // Texts the template chooses between.
  const ReceiptTitle := "RECEIPT"
  const InvoiceTitle := "INVOICE"
  const SenderPlaceholder := "Nama Perusahaan"
  const ClientPlaceholder := "Nama Klien"

  /** One row of the item table. */
  datatype Row = Row(description: string, quantity: real, unitPrice: real, amount: real)

  /** The tax line: the rate in its label, and the tax amount. */
  datatype TaxLine = TaxLine(rate: real, amount: real)

  /** What the template puts on the page, without layout or formatting.
      `paidStamp` is the LUNAS badge. */
  datatype Document = Document(
    logo: Option<string>,
    senderName: string,
    senderAddress: Option<string>,
    title: string,
    invoiceNumber: string,
    clientName: string,
    clientAddress: Option<string>,
    clientEmail: Option<string>,
    date: Date,
    dueDate: Date,
    rows: seq<Row>,
    subtotal: real,
    taxLine: Option<TaxLine>,
    discountLine: Option<real>,
    grandTotal: real,
    paidStamp: bool)

  function ItemRow(item: Item): Row
  {
    Row(item.description, item.quantity, item.unitPrice, LineAmount(item))
  }

  /** `items.map(...)`: one row per item, in order. */
  function Rows(items: seq<Item>): (r: seq<Row>)
    ensures |r| == |items|
    ensures forall i :: 0 <= i < |items| ==> r[i] == ItemRow(items[i])
    decreases |items|
  {
    if items == [] then [] else [ItemRow(items[0])] + Rows(items[1..])
  }

  /** The sum of the amounts shown in the table, read top to bottom. */
  function RowTotal(rows: seq<Row>): real
    decreases |rows|
  {
    if rows == [] then 0.0 else rows[0].amount + RowTotal(rows[1..])
  }

  /** The amounts in the table add up to the subtotal printed under it. */
  lemma {:induction false} RowTotalIsSubtotal(items: seq<Item>)
    ensures RowTotal(Rows(items)) == Subtotal(items)
    decreases |items|
  {
    if items != [] {
      RowTotalIsSubtotal(items[1..]);
      assert items == [items[0]] + items[1..];
      SubtotalConcat([items[0]], items[1..]);
      assert [items[0]] == [] + [items[0]];
      SubtotalAppend([], items[0]);
      assert Rows(items)[1..] == Rows(items[1..]);
    }
  }

  /** `name || placeholder`. */
  function OrPlaceholder(name: string, placeholder: string): (r: string)
    ensures name == "" ==> r == placeholder
    ensures name != "" ==> r == name
  {
    if name != "" then name else placeholder
  }

  /** `logo ? <Image/> : null`: an image only for a logo that is present and non-empty. */
  function ShownLogo(logo: Option<string>): (r: Option<string>)
    ensures r.Some? <==> logo.Some? && logo.value != ""
    ensures r.Some? ==> r == logo
  {
    if logo.Some? && logo.value != "" then logo else None
  }

  /** `SimpleTemplate`: what the document shows for `inv`. */
  function Render(inv: Invoice): (doc: Document)
    ensures doc.title == ReceiptTitle <==> inv.status == Paid
    ensures doc.title == InvoiceTitle <==> inv.status != Paid
    ensures doc.paidStamp <==> inv.status == Paid
    ensures doc.taxLine.Some? <==> inv.taxRate > 0.0
    ensures doc.taxLine.Some? ==> doc.taxLine.value == TaxLine(inv.taxRate, ComputeTotals(inv).taxAmount)
    ensures doc.discountLine.Some? <==> inv.discount > 0.0
    ensures doc.discountLine.Some? ==> doc.discountLine.value == inv.discount
    ensures inv.senderDetails.name == "" ==> doc.senderName == SenderPlaceholder
    ensures inv.senderDetails.name != "" ==> doc.senderName == inv.senderDetails.name
    ensures inv.clientDetails.name == "" ==> doc.clientName == ClientPlaceholder
    ensures inv.clientDetails.name != "" ==> doc.clientName == inv.clientDetails.name
    ensures |doc.rows| == |inv.items|
  {
    var t := ComputeTotals(inv);
    Document(
      ShownLogo(inv.senderDetails.logo),
      OrPlaceholder(inv.senderDetails.name, SenderPlaceholder),
      inv.senderDetails.address,
      if inv.status == Paid then ReceiptTitle else InvoiceTitle,
      inv.invoiceNumber,
      OrPlaceholder(inv.clientDetails.name, ClientPlaceholder),
      inv.clientDetails.address,
      inv.clientDetails.email,
      inv.date,
      inv.dueDate,
      Rows(inv.items),
      t.subtotal,
      if inv.taxRate > 0.0 then Some(TaxLine(inv.taxRate, t.taxAmount)) else None,
      if inv.discount > 0.0 then Some(inv.discount) else None,
      t.grandTotal,
      inv.status == Paid)
  }

  /** The table lists every item with its line amount, and the totals block
      under it agrees with the amounts in the table. */
  lemma RenderTableAgrees(inv: Invoice)
    ensures forall i :: 0 <= i < |inv.items| ==>
              Render(inv).rows[i].description == inv.items[i].description
              && Render(inv).rows[i].amount == inv.items[i].quantity * inv.items[i].unitPrice
    ensures Render(inv).subtotal == RowTotal(Render(inv).rows) == Subtotal(inv.items)
    ensures Render(inv).grandTotal == RowTotal(Render(inv).rows) + ComputeTotals(inv).taxAmount - inv.discount
  {
    RowTotalIsSubtotal(inv.items);
  }
}
