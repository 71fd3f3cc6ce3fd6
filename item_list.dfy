/**
 * The item editor: the rows of the form's item field array, the row it
 * appends, the delete control and the per-row subtotal it displays.
 */
module ItemList {
  import opened Schemas
  import opened InvoiceStore
  import opened MainForm
  import Lists
  import SimpleTemplate

  /** The delete control is rendered only while there is more than one row. */
  predicate DeleteControlShown(rowCount: nat)
  {
    rowCount > 1
  }

  /** The "add row" button: `append` of a blank row with the given id. */
  method AppendRow(form: InvoiceForm, id: string)
    modifies form
    ensures form.values == old(form.values).(items := old(form.values).items + [BlankItem(id)])
    ensures |form.values.items| == |old(form.values).items| + 1
  {
    form.values := form.values.(items := form.values.items + [BlankItem(id)]);
  }

  /** The delete control of row `index`, which exists only when
      `DeleteControlShown`: `remove(index)` drops exactly that row, so the
      editor never goes below one row. */
  method RemoveRow(form: InvoiceForm, index: nat)
    requires index < |form.values.items| && DeleteControlShown(|form.values.items|)
    modifies form
    ensures form.values == old(form.values).(items := Lists.WithoutIndex(old(form.values).items, index))
    ensures |form.values.items| == |old(form.values).items| - 1 >= 1
  {
    form.values := form.values.(items := Lists.WithoutIndex(form.values.items, index));
  }

  /** The watched value of one row; a key may be missing while the row is being edited.
      A `NaN` from an unparsable number input is not modelled. */
  datatype WatchedRow = WatchedRow(quantity: Option<real>, unitPrice: Option<real>)

  /** `x || 0` on an optional number: missing gives 0 (and 0 stays 0). */
  function OrZero(x: Option<real>): (r: real)
    ensures x.None? ==> r == 0.0
    ensures x.Some? ==> r == x.value
  {
    if x.Some? && x.value != 0.0 then x.value else 0.0
  }

  /** `(items?.[index]?.quantity || 0) * (items?.[index]?.unitPrice || 0)`. */
  function RowSubtotal(watched: seq<WatchedRow>, index: nat): (r: real)
    ensures index >= |watched| ==> r == 0.0
    ensures index < |watched| && (watched[index].quantity.None? || watched[index].unitPrice.None?) ==> r == 0.0
    ensures index < |watched| && watched[index].quantity.Some? && watched[index].unitPrice.Some?
            ==> r == watched[index].quantity.value * watched[index].unitPrice.value
  {
    if index < |watched| then OrZero(watched[index].quantity) * OrZero(watched[index].unitPrice) else 0.0
  }

  /** `fields.map(...)`: one displayed subtotal per field-array row. */
  function RowSubtotals(rowCount: nat, watched: seq<WatchedRow>): (r: seq<real>)
    ensures |r| == rowCount
    ensures forall i :: 0 <= i < rowCount ==> r[i] == RowSubtotal(watched, i)
  {
    seq(rowCount, i requires 0 <= i < rowCount => RowSubtotal(watched, i))
  }

  /** The watched values of fully filled-in items. */
  function Watched(items: seq<Item>): (r: seq<WatchedRow>)
    ensures |r| == |items|
    ensures forall i :: 0 <= i < |items| ==> r[i] == WatchedRow(Some(items[i].quantity), Some(items[i].unitPrice))
  {
    seq(|items|, i requires 0 <= i < |items| => WatchedRow(Some(items[i].quantity), Some(items[i].unitPrice)))
  }

  /** The sum of the displayed subtotals. */
  function SumOf(s: seq<real>): real
    decreases |s|
  {
    if s == [] then 0.0 else SumOf(s[..|s| - 1]) + s[|s| - 1]
  }

  /** For filled-in rows, the editor shows the same amount per row as the document. */
  lemma EditorRowIsLineAmount(items: seq<Item>, i: int)
    requires 0 <= i < |items|
    ensures RowSubtotals(|items|, Watched(items))[i] == SimpleTemplate.LineAmount(items[i])
  {
  }

  /** For filled-in rows, the editor's row subtotals add up to the document's subtotal. */
  lemma {:induction false} EditorAgreesWithDocument(items: seq<Item>)
    ensures SumOf(RowSubtotals(|items|, Watched(items))) == SimpleTemplate.Subtotal(items)
    decreases |items|
  {
    if items != [] {
      var n := |items|;
      var shown := RowSubtotals(n, Watched(items));
      var front := items[..n - 1];
      var shownFront := RowSubtotals(n - 1, Watched(front));
      EditorAgreesWithDocument(front);
      forall i | 0 <= i < n - 1
        ensures shown[i] == shownFront[i]
      {
        EditorRowIsLineAmount(items, i);
        EditorRowIsLineAmount(front, i);
      }
      assert shown[..n - 1] == shownFront;
      EditorRowIsLineAmount(items, n - 1);
    }
  }
}
