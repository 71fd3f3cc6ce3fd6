# Invoice generator — a Dafny model of its core

The invoice generator is a single-page web application. It edits one
invoice and previews it as a PDF. This project models the logic behind
that, as Dafny:

- **`Schemas`**: the invoice record and its validation schema. That is the
  validity rules, the list of issues the schema raises for an invoice, the
  defaults it fills in, and the parse that accepts or rejects the result.
- **`InvoiceStore`**: the global store, as a class `Store`. Its single
  `data` field is replaced by a shallow merge in every action. The module
  also holds the default invoice the store starts from and the typed
  partial updates (`SenderPatch`, `ClientPatch`, `InfoPatch`, `ItemPatch`)
  that model the store's `Partial<...>` arguments. In a patch, `Some(None)`
  on an optional key means the key is present with the value `undefined`.
- **`Lists`**: removal by position, shared by the store and the item editor.
- **`SimpleTemplate`**: the PDF template's data decisions. That is the
  subtotal, tax and grand total, the title and the paid stamp, the
  optional tax and discount lines, the name placeholders, the logo, and
  one table row per item.
- **`MainForm`**: the form. It covers its working copy of the invoice
  (class `InvoiceForm`), the watch callback that pushes every form change
  into the store, the status select, and the inline logo picker that
  writes straight into the store.
- **`ItemList`**: the item editor. It covers appending a row, the delete
  control shown only while there is more than one row, and the subtotal
  displayed for each row.
- **`LogoUpload`**: the logo control bound to the form. It covers the
  2 MB size gate, the completion of the file read, and logo removal.
- **`Scenarios`**: worked examples of concrete totals and of short
  sequences of actions.

Money, quantities and rates are exact `real`s. A date is a calendar day
number. Fresh item ids (`crypto.randomUUID`), the result of a file read
and the email syntax check are parameters of the model.

Several behaviours a reader might expect are not what the code does, and
the model follows the code:

- The item list is meant never to be empty, but `removeItem` has no guard,
  so the store can lose its last item. Only the editor's delete control is
  hidden at one row.
- Tax rate and discount are stored as `Number(value)` gives them. Nothing
  replaces an unparsable value by 0.
- Nothing discards a file read that completes after a newer upload or
  after the logo was removed.
- The status select offers `PARTIAL`, which the schema's two-value status
  rejects. The sync still writes it to the store unchecked.
- The inline logo picker writes straight into the store and not into the
  form, so the next sync of the form puts the form's old logo back.

## Model

| member | source | states |
|---|---|---|
| Lists.WithoutIndex | src/store/useInvoiceStore.ts:107-113 | filtering out position `index` is the prefix before it followed by the suffix after it; an index outside the list leaves the list unchanged |
| Lists.WithoutIndexAt | src/store/useInvoiceStore.ts:111 | removing a position shortens the list by one, keeps the earlier elements and shifts every later element down by one |
| Schemas.ValidItem | src/lib/schemas.ts:4-9 | the item schema: a description of at least one character, a quantity of at least 1 and a unit price of at least 0; any id |
| Schemas.ValidEmail | src/lib/schemas.ts:28-32 | the client email is absent, empty, or passes the email syntax check |
| Schemas.AllowedStatus | src/lib/schemas.ts:43 | the status enum admits only UNPAID and PAID |
| Schemas.ValidInvoice | src/lib/schemas.ts:12-45 | the invoice schema: non-empty number and names, a valid email, at least one item with every item valid, a tax rate in 0..100, a non-negative discount and an allowed status |
| Schemas.IssuesOfItem | src/lib/schemas.ts:6-8 | the messages one item raises, in the order of its keys, each naming the item's position |
| Schemas.ItemIssues | src/lib/schemas.ts:36 | the messages of every element of the item array, each at its own position |
| Schemas.ItemIssuesAreItemKinds | src/lib/schemas.ts:36 | the element issues of the item array are all item-level issues, and each names a position inside the array |
| Schemas.ItemIssuesEmptyIffValid | src/lib/schemas.ts:4-9 | the item array raises no element issue exactly when every item satisfies the item schema |
| Schemas.IssuesOfItemNamesKeys | src/lib/schemas.ts:6-8 | one item's issues name its own position and exactly the keys it breaks |
| Schemas.ItemIssueLocated | src/lib/schemas.ts:6-8 | an issue about description, quantity or unit price at position j is raised exactly when item j exists and breaks that rule |
| Schemas.HeaderIssues | src/lib/schemas.ts:13-32 | an issue for the invoice number, the sender name, the client name or the client email is present exactly when that field breaks its rule; no other kind of issue appears |
| Schemas.TailIssues | src/lib/schemas.ts:36-43 | an issue for no items, a tax rate outside 0..100, a negative discount or a status other than UNPAID/PAID is present exactly when that rule fails; no other kind appears |
| Schemas.Issues | src/lib/schemas.ts:12-45 | the item-level issues of the invoice are exactly those of its items; its other issues are exactly those of the header and remaining keys |
| Schemas.HeaderIssuesListed | src/lib/schemas.ts:13-32 | the invoice's issue list holds the invoice-number, sender-name, client-name and email issues exactly when that field breaks its rule |
| Schemas.TailIssuesListed | src/lib/schemas.ts:36-43 | the invoice's issue list holds the no-items, tax-rate, discount and status issues exactly when that rule fails |
| Schemas.IssuesEmptyIffValid | src/lib/schemas.ts:12-45 | the issue list is empty exactly when the invoice satisfies the schema |
| Schemas.ItemIssueNamesItsField | src/lib/schemas.ts:4-9 | validation is field-scoped: an item issue at position j is raised exactly when item j exists and its named key is invalid |
| Schemas.WithDefaults | src/lib/schemas.ts:39-44 | an absent tax rate, discount, status or currency becomes 0, 0, UNPAID, IDR; present keys and keys without a default are carried over |
| Schemas.DefaultsRaiseNoIssue | src/lib/schemas.ts:39-43 | a defaulted tax rate, discount or status never raises its own issue |
| Schemas.Parse | src/lib/schemas.ts:12-45 | parsing succeeds exactly when the defaulted invoice is valid, and then returns it; a rejection carries the non-empty issue list |
| InvoiceStore.MergeSender | src/store/useInvoiceStore.ts:64-73 | every key present in the partial overrides the sender's key, and every absent key keeps its value |
| InvoiceStore.MergeClient | src/store/useInvoiceStore.ts:75-84 | every key present in the partial overrides the client's key, and every absent key keeps its value |
| InvoiceStore.MergeItem | src/store/useInvoiceStore.ts:118 | every key present in the partial overrides the item's key, and every absent key keeps its value |
| InvoiceStore.ApplyInfo | src/store/useInvoiceStore.ts:86-89 | only invoice number, dates and status can change and only where their key is present; sender, client, items, tax rate, discount and currency are untouched |
| InvoiceStore.MergeSenderEmpty | src/store/useInvoiceStore.ts:64-73 | merging an empty partial leaves the sender unchanged |
| InvoiceStore.MergeClientEmpty | src/store/useInvoiceStore.ts:75-84 | merging an empty partial leaves the client unchanged |
| InvoiceStore.MergeSenderIdempotent | src/store/useInvoiceStore.ts:64-73 | merging the same partial twice has the effect of merging it once |
| InvoiceStore.MergeSenderThen | src/store/useInvoiceStore.ts:64-73 | two successive merges equal one merge of the combined partial in which later keys win |
| InvoiceStore.MergeWhole | src/store/useInvoiceStore.ts:64-84 | merging a complete copy of a sender or client replaces it by that copy |
| InvoiceStore.BlankItem | src/store/useInvoiceStore.ts:97-102 | the appended item has the given id, no description, quantity 1 and price 0 |
| InvoiceStore.InitialInvoice | src/store/useInvoiceStore.ts:6-32 | the default invoice is dated on the load day and due seven days later (as whole days), holds the one website item, no tax or discount, UNPAID, IDR, and an empty client name |
| InvoiceStore.InitialInvoiceFailsSchema | src/store/useInvoiceStore.ts:6-32 | the default invoice fails the schema, with the empty client name as its only issue |
| InvoiceStore.RemovingOnlyItemBreaksSchema | src/store/useInvoiceStore.ts:107-113 | removing the only item yields an empty list, which the schema rejects for having no items |
| InvoiceStore.Store.constructor | src/store/useInvoiceStore.ts:59-62 | the store starts with the default invoice and keeps it as its reset target |
| InvoiceStore.Store.SetSenderDetails | src/store/useInvoiceStore.ts:64-73 | only the sender changes, by a shallow merge of the partial |
| InvoiceStore.Store.SetClientDetails | src/store/useInvoiceStore.ts:75-84 | only the client changes, by a shallow merge of the partial |
| InvoiceStore.Store.SetInvoiceInfo | src/store/useInvoiceStore.ts:86-89 | the record becomes the merge of the info partial, so only number, dates and status can change |
| InvoiceStore.Store.AddItem | src/store/useInvoiceStore.ts:91-105 | one blank item is appended after the existing items, which are kept in order; nothing else changes |
| InvoiceStore.Store.RemoveItem | src/store/useInvoiceStore.ts:107-113 | the item at the index is filtered out with no guard on the count; an index outside the list changes nothing |
| InvoiceStore.Store.UpdateItem | src/store/useInvoiceStore.ts:115-120 | the item at the index is replaced by its merge with the partial, all other items and fields kept; a negative index changes no element |
| InvoiceStore.Store.SetTaxRate | src/store/useInvoiceStore.ts:122-125 | the tax rate is stored as given, unchecked, and nothing else changes |
| InvoiceStore.Store.SetDiscount | src/store/useInvoiceStore.ts:127-130 | the discount is stored as given, unchecked, and nothing else changes |
| InvoiceStore.Store.ResetForm | src/store/useInvoiceStore.ts:132 | the record returns to the default captured at creation, its dates included |
| SimpleTemplate.LineAmount | src/components/pdf-templates/simple-template.tsx:153 | the amount of one line is its quantity times its unit price |
| SimpleTemplate.Subtotal | src/components/pdf-templates/simple-template.tsx:152-155 | the subtotal is the sum of the line amounts, accumulated from the left starting at 0 |
| SimpleTemplate.SubtotalAppend | src/components/pdf-templates/simple-template.tsx:152-155 | appending an item raises the subtotal by exactly its line amount |
| SimpleTemplate.SubtotalConcat | src/components/pdf-templates/simple-template.tsx:152-155 | the subtotal of two item lists joined is the sum of their subtotals |
| SimpleTemplate.SubtotalNonNegative | src/components/pdf-templates/simple-template.tsx:152-155 | with no negative quantity or price, the subtotal is not negative |
| SimpleTemplate.SubtotalWithoutIndex | src/components/pdf-templates/simple-template.tsx:152-155 | removing an item lowers the subtotal by exactly that item's line amount |
| SimpleTemplate.SubtotalReplace | src/components/pdf-templates/simple-template.tsx:152-155 | replacing an item changes the subtotal by the difference of the two line amounts |
| SimpleTemplate.ComputeTotals | src/components/pdf-templates/simple-template.tsx:152-157 | tax is the rate's percentage of the subtotal; grand total plus discount equals subtotal plus tax, negative exactly when the discount exceeds them; non-negative inputs give non-negative subtotal and tax |
| SimpleTemplate.Rows | src/components/pdf-templates/simple-template.tsx:244-259 | one table row per item, in order, each showing that item's values and line amount |
| SimpleTemplate.RowTotalIsSubtotal | src/components/pdf-templates/simple-template.tsx:244-266 | the amounts printed in the table add up to the printed subtotal |
| SimpleTemplate.OrPlaceholder | src/components/pdf-templates/simple-template.tsx:178 | an empty name is shown as the placeholder, any other name as itself |
| SimpleTemplate.ShownLogo | src/components/pdf-templates/simple-template.tsx:166-176 | an image is shown exactly for a logo that is present and not empty |
| SimpleTemplate.Render | src/components/pdf-templates/simple-template.tsx:150-324 | RECEIPT title and LUNAS stamp exactly when paid, INVOICE otherwise; tax line, with rate and tax amount, exactly when the rate is positive; discount line exactly when the discount is positive; placeholders for empty names; one row per item |
| SimpleTemplate.RenderTableAgrees | src/components/pdf-templates/simple-template.tsx:244-294 | each table row shows its item's description and line amount, the printed subtotal is the sum of the row amounts, and the grand total is that sum plus tax less discount |
| MainForm.Truthy | src/components/invoice/main-form.tsx:105 | an invoice number counts as given only when present and not empty |
| MainForm.WatchValue | src/components/invoice/main-form.tsx:98 | the value watch reports for the whole form carries every key of the form's record |
| MainForm.SyncedData | src/components/invoice/main-form.tsx:97-124 | dates and currency are never synced; sender and client are merged when present; the number follows only when non-empty; tax, discount, status and items follow whenever present |
| MainForm.OnWatch | src/components/invoice/main-form.tsx:97-124 | the store actions called in the callback's order leave the store exactly at the synced record |
| MainForm.SyncMirrorsForm | src/components/invoice/main-form.tsx:97-124 | after syncing the whole form, the store equals the form except the dates, the currency and an empty invoice number, which keep the store's values |
| MainForm.SyncIdempotent | src/components/invoice/main-form.tsx:97-124 | handling the same form value twice has the effect of handling it once |
| MainForm.PartialReachesStore | src/components/invoice/main-form.tsx:215-221 | PARTIAL is one of the select's choices; choosing it writes it to the store, which then fails the schema with the status issue |
| MainForm.InvoiceForm.constructor | src/components/invoice/main-form.tsx:78-91 | the form starts from the store's record |
| MainForm.InvoiceForm.SelectStatus | src/components/invoice/main-form.tsx:207-210 | only the form's status changes, to the chosen value |
| MainForm.InlineLogoPatch | src/components/invoice/main-form.tsx:151-154 | the partial the picker sends is the whole render-time sender with the logo replaced by the result |
| MainForm.InlineLogoKeepsOtherSenderFields | src/components/invoice/main-form.tsx:148-155 | with a current snapshot, the inline picker changes only the sender's logo |
| MainForm.InlineLogoStaleSnapshot | src/components/invoice/main-form.tsx:148-155 | with a stale snapshot, the inline picker puts the snapshot's sender name back into the store |
| MainForm.InlineLogoUndoneByNextSync | src/components/invoice/main-form.tsx:148-155 | the logo the picker writes to the store is replaced by the form's old logo on the next sync of the whole form |
| MainForm.InlineLogoUpload.constructor | src/components/invoice/main-form.tsx:29 | the preview starts from the value passed in |
| MainForm.InlineLogoUpload.HandleFile | src/components/invoice/main-form.tsx:30-39 | a read starts exactly when a file was picked, whatever its size |
| MainForm.InlineLogoUpload.OnLoad | src/components/invoice/main-form.tsx:33-37 | the preview shows the result, and the store's sender is merged with the snapshot carrying the new logo |
| ItemList.DeleteControlShown | src/components/invoice/item-list.tsx:104 | the delete control exists exactly while the editor has more than one row |
| ItemList.AppendRow | src/components/invoice/item-list.tsx:125-132 | one blank row is appended after the existing rows; nothing else in the form changes |
| ItemList.RemoveRow | src/components/invoice/item-list.tsx:104-114 | the delete control removes exactly its row and never leaves the editor with fewer than one row |
| ItemList.OrZero | src/components/invoice/item-list.tsx:35-36 | a missing number counts as 0 and a present one as itself |
| ItemList.RowSubtotal | src/components/invoice/item-list.tsx:35-37 | the shown subtotal is quantity times price for a filled row, and 0 when the row or either value is missing |
| ItemList.RowSubtotals | src/components/invoice/item-list.tsx:33-37 | one shown subtotal per field-array row, each that row's subtotal |
| ItemList.Watched | src/components/invoice/item-list.tsx:19-22 | the watched values carry each item's quantity and price, position by position |
| ItemList.EditorRowIsLineAmount | src/components/invoice/item-list.tsx:35-37 | for a filled-in row the editor shows the PDF's line amount |
| ItemList.EditorAgreesWithDocument | src/components/invoice/item-list.tsx:33-37 | the editor's row subtotals add up to the PDF's subtotal |
| LogoUpload.SizeGate | src/components/invoice/logo-upload.tsx:12-18 | no file does nothing; a file over 2 MB is turned away with the alert; any other file is read |
| LogoUpload.LogoUploader.constructor | src/components/invoice/logo-upload.tsx:10 | the file input is cleared when mounted, and absent otherwise |
| LogoUpload.LogoUploader.HandleFileChange | src/components/invoice/logo-upload.tsx:12-27 | the control's outcome for a file change is the size gate's decision |
| LogoUpload.LogoUploader.OnLoadEnd | src/components/invoice/logo-upload.tsx:21-24 | only the form's logo changes, to the read result |
| LogoUpload.LogoUploader.RemoveLogo | src/components/invoice/logo-upload.tsx:29-32 | the form's logo becomes the empty string and a mounted file input is cleared; nothing else changes |
| LogoUpload.GateBoundary | src/components/invoice/logo-upload.tsx:15 | the limit is inclusive: exactly 2 MB passes and one byte more is turned away |
| Scenarios.DefaultTotals | src/store/useInvoiceStore.ts:20-29 | the default invoice totals 1,500,000 with no tax |
| Scenarios.TaxAndDiscountTotals | src/components/pdf-templates/simple-template.tsx:152-157 | 2 x 10,000 plus 3 x 20,000 at 10 % tax less 5,000 gives 80,000, 8,000 and 83,000 |
| Scenarios.DiscountBeyondTotal | src/components/pdf-templates/simple-template.tsx:157 | a discount of 50,000 on a total of 30,000 gives a grand total of -20,000, with no clamping |
| Scenarios.ThreeMegabyteLogoRejected | src/components/invoice/logo-upload.tsx:15-18 | a 3 MB file is turned away with the alert |
| Scenarios.RemoveOnlyItem | src/store/useInvoiceStore.ts:107-113 | a fresh store lets its only item be removed, leaving an empty item list |
| Scenarios.StaleReadAfterRemove | src/components/invoice/logo-upload.tsx:20-32 | a read completing after the logo was removed still sets its result as the logo |
| Scenarios.UploadThenSync | src/components/invoice/main-form.tsx:97-124 | a logo read into the form reaches the store's sender on the next sync |

## Left out

- Persistence: the store's persist middleware, its storage key and the conversion of dates to and from ISO text (src/store/useInvoiceStore.ts:134-153) are browser storage I/O.
- Recovery from a missing or corrupt stored state is part of that I/O and is not modelled.
- The confirmation dialog around reset, and the rest of the page, sit in page code that is not part of this model.
- The PDF viewer is not part of this model.
- Layout, styling, currency formatting and date formatting are presentation. This covers `formatCurrency`, `formatRupiah` and `date-fns` `format`.
- The template's `-` shown for a missing date is not modelled: in this model a date is always present.
- File reading: the encoding of a picked file as a data URL is a browser API. Its result is an opaque string parameter of the model.
- `crypto.randomUUID` is a random source: the fresh item id is a parameter.
- The email regular expression of the schema library is foreign code. It is the parameter `isEmail`.
- Time of day: `new Date()` is a clock, and dates are whole days given as a parameter.
- react-hook-form internals are not modelled. This covers registration, dirty tracking and resolver-driven error display; the form is its record of values.
- Floating point is not modelled: arithmetic is exact on `real`.
- InvoiceStore.Store.UpdateItem: an index at or past the end is excluded by its precondition. In the source it grows the array, with holes, by a partial item.
- MainForm.SyncedData: `Number(value)` on the tax rate and discount is taken as the identity. `NaN` from an unparsable input is not modelled.
- ItemList.OrZero: `NaN || 0` giving 0 is not modelled, because numbers are never `NaN` here.
- MainForm.InlineLogoUpload.HandleFile: the `accept` filter of the file input is a browser hint and is not modelled.
- LogoUpload.LogoUploader.HandleFileChange: the `accept` filter and the `alert` dialog are browser UI. The alert text is returned in the outcome.
