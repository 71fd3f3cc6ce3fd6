/**
 * The invoice data model (the types the application infers from its zod
 * schemas) and the validation rules of `ItemSchema` and `InvoiceSchema`.
 */
module Schemas {

  datatype Option<T> = None | Some(value: T)

  /** A calendar date, as a day number.  The time of day and time zone that a
      JavaScript Date also carries are not modelled. */
  datatype Date = Date(day: int)

  /** The day `n` days after `d`. */
  function AddDays(d: Date, n: int): Date
  {
    Date(d.day + n)
  }

  /** Payment status.  The schema's enum admits `Unpaid` and `Paid` only;
      `Partial` is the third choice the form's status select offers. */
  datatype Status = Unpaid | Paid | Partial

  /** `address` and `logo` are optional keys: `None` is `undefined`. */
  datatype SenderDetails = SenderDetails(name: string, address: Option<string>, logo: Option<string>)

  datatype ClientDetails = ClientDetails(name: string, address: Option<string>, email: Option<string>)

  datatype Item = Item(id: string, description: string, quantity: real, unitPrice: real)

  datatype Invoice = Invoice(
    invoiceNumber: string,
    date: Date,
    dueDate: Date,
    senderDetails: SenderDetails,
    clientDetails: ClientDetails,
    items: seq<Item>,
    taxRate: real,
    discount: real,
    status: Status,
    currency: string)

  // Defaults the schema fills in for the keys it marks `.default(...)`.
  const DefaultTaxRate: real := 0.0
  const DefaultDiscount: real := 0.0
  const DefaultStatus: Status := Unpaid
  const DefaultCurrency: string := "IDR"

  /** `ItemSchema`: a description of at least one character, a quantity of at
      least 1 and a unit price of at least 0; the id is any string. */
  predicate ValidItem(item: Item)
  {
    |item.description| >= 1 && item.quantity >= 1.0 && item.unitPrice >= 0.0
  }

  /** The client email is absent, the empty string, or well-formed according to
      `isEmail`, which stands for zod's email syntax check. */
  predicate ValidEmail(email: Option<string>, isEmail: string -> bool)
  {
    match email
    case None => true
    case Some(e) => e == "" || isEmail(e)
  }

  /** The status enum `["UNPAID", "PAID"]`. */
  predicate AllowedStatus(s: Status)
  {
    s == Unpaid || s == Paid
  }

  /** `InvoiceSchema` on an invoice whose defaulted keys are already filled in. */
  predicate ValidInvoice(inv: Invoice, isEmail: string -> bool)
  {
    && |inv.invoiceNumber| >= 1
    && |inv.senderDetails.name| >= 1
    && |inv.clientDetails.name| >= 1
    && ValidEmail(inv.clientDetails.email, isEmail)
    && |inv.items| >= 1
    && (forall i :: 0 <= i < |inv.items| ==> ValidItem(inv.items[i]))
    && 0.0 <= inv.taxRate <= 100.0
    && inv.discount >= 0.0
    && AllowedStatus(inv.status)
  }

  /** One failed rule, located at the field it concerns. */
  datatype Issue =
    | InvoiceNumberMissing
    | SenderNameMissing
    | ClientNameMissing
    | ClientEmailMalformed
    | ItemDescriptionMissing(index: nat)
    | ItemQuantityBelowOne(index: nat)
    | ItemUnitPriceNegative(index: nat)
    | NoItems
    | TaxRateOutOfRange
    | DiscountNegative
    | StatusNotAllowed

  predicate IsItemIssue(x: Issue)
  {
    x.ItemDescriptionMissing? || x.ItemQuantityBelowOne? || x.ItemUnitPriceNegative?
  }

  /** The issues of the item at position `index`, in the order of its keys. */
  function IssuesOfItem(item: Item, index: nat): seq<Issue>
  {
    (if |item.description| < 1 then [ItemDescriptionMissing(index)] else [])
    + (if item.quantity < 1.0 then [ItemQuantityBelowOne(index)] else [])
    + (if item.unitPrice < 0.0 then [ItemUnitPriceNegative(index)] else [])
  }

  /** The issues of every element of `items`, the first one sitting at position `from`. */
  function ItemIssues(items: seq<Item>, from: nat): seq<Issue>
    decreases |items|
  {
    if items == [] then []
    else IssuesOfItem(items[0], from) + ItemIssues(items[1..], from + 1)
  }

  lemma {:induction false} ItemIssuesAreItemKinds(items: seq<Item>, from: nat)
    ensures forall x :: x in ItemIssues(items, from) ==> IsItemIssue(x) && from <= x.index < from + |items|
    decreases |items|
  {
    if items != [] {
      ItemIssuesAreItemKinds(items[1..], from + 1);
    }
  }

  /** The element issues are empty exactly when every item satisfies `ItemSchema`. */
  lemma {:induction false} ItemIssuesEmptyIffValid(items: seq<Item>, from: nat)
    ensures ItemIssues(items, from) == [] <==> forall i :: 0 <= i < |items| ==> ValidItem(items[i])
    decreases |items|
  {
    if items != [] {
      ItemIssuesEmptyIffValid(items[1..], from + 1);
      assert forall i :: 1 <= i < |items| ==> items[i] == items[1..][i - 1];
    }
  }

  /** The issues of one item name its own position and exactly the keys it breaks. */
  lemma IssuesOfItemNamesKeys(item: Item, index: nat, j: nat)
    ensures ItemDescriptionMissing(j) in IssuesOfItem(item, index) <==> j == index && |item.description| < 1
    ensures ItemQuantityBelowOne(j) in IssuesOfItem(item, index) <==> j == index && item.quantity < 1.0
    ensures ItemUnitPriceNegative(j) in IssuesOfItem(item, index) <==> j == index && item.unitPrice < 0.0
  {
  }

  /** Each element issue names precisely an item that breaks that rule. */
  lemma {:induction false} ItemIssueLocated(items: seq<Item>, from: nat, j: nat)
    ensures ItemDescriptionMissing(j) in ItemIssues(items, from)
            <==> from <= j < from + |items| && |items[j - from].description| < 1
    ensures ItemQuantityBelowOne(j) in ItemIssues(items, from)
            <==> from <= j < from + |items| && items[j - from].quantity < 1.0
    ensures ItemUnitPriceNegative(j) in ItemIssues(items, from)
            <==> from <= j < from + |items| && items[j - from].unitPrice < 0.0
    decreases |items|
  {
    if items != [] {
      var head, rest := IssuesOfItem(items[0], from), ItemIssues(items[1..], from + 1);
      assert ItemIssues(items, from) == head + rest;
      IssuesOfItemNamesKeys(items[0], from, j);
      ItemIssueLocated(items[1..], from + 1, j);
      if from < j < from + |items| {
        assert items[j - from] == items[1..][j - (from + 1)];
      }
    }
  }

  /** `[x]` when the rule behind `x` fails, and nothing otherwise. */
  function Flag(fails: bool, x: Issue): (r: seq<Issue>)
    ensures forall y :: y in r <==> fails && y == x
  {
    if fails then [x] else []
  }

  /** The issues of the invoice number, the names and the client email. */
  function HeaderIssues(inv: Invoice, isEmail: string -> bool): (r: seq<Issue>)
    ensures InvoiceNumberMissing in r <==> inv.invoiceNumber == ""
    ensures SenderNameMissing in r <==> inv.senderDetails.name == ""
    ensures ClientNameMissing in r <==> inv.clientDetails.name == ""
    ensures ClientEmailMalformed in r <==> !ValidEmail(inv.clientDetails.email, isEmail)
    ensures forall x :: x in r ==> !IsItemIssue(x) && !x.NoItems? && !x.TaxRateOutOfRange?
                                   && !x.DiscountNegative? && !x.StatusNotAllowed?
  {
    Flag(|inv.invoiceNumber| < 1, InvoiceNumberMissing)
    + Flag(|inv.senderDetails.name| < 1, SenderNameMissing)
    + Flag(|inv.clientDetails.name| < 1, ClientNameMissing)
    + Flag(!ValidEmail(inv.clientDetails.email, isEmail), ClientEmailMalformed)
  }

  /** The issues of the item count, the tax rate, the discount and the status. */
  function TailIssues(inv: Invoice): (r: seq<Issue>)
    ensures NoItems in r <==> inv.items == []
    ensures TaxRateOutOfRange in r <==> inv.taxRate < 0.0 || inv.taxRate > 100.0
    ensures DiscountNegative in r <==> inv.discount < 0.0
    ensures StatusNotAllowed in r <==> inv.status == Partial
    ensures forall x :: x in r ==> !IsItemIssue(x) && !x.InvoiceNumberMissing? && !x.SenderNameMissing?
                                   && !x.ClientNameMissing? && !x.ClientEmailMalformed?
  {
    Flag(|inv.items| < 1, NoItems)
    + Flag(inv.taxRate < 0.0 || inv.taxRate > 100.0, TaxRateOutOfRange)
    + Flag(inv.discount < 0.0, DiscountNegative)
    + Flag(!AllowedStatus(inv.status), StatusNotAllowed)
  }

  /** Every issue `InvoiceSchema` raises for `inv`: those of the header
      fields, those of the items, then those of the remaining keys. */
  function Issues(inv: Invoice, isEmail: string -> bool): (r: seq<Issue>)
    ensures forall y :: y in r && IsItemIssue(y) <==> y in ItemIssues(inv.items, 0)
    ensures forall y :: y in r && !IsItemIssue(y) <==> y in HeaderIssues(inv, isEmail) || y in TailIssues(inv)
  {
    var header, items, tail := HeaderIssues(inv, isEmail), ItemIssues(inv.items, 0), TailIssues(inv);
    ItemIssuesAreItemKinds(inv.items, 0);
    assert forall y :: y in header + items + tail <==> y in header || y in items || y in tail;
    header + items + tail
  }

  /** Membership in the issue list, one issue at a time. */
  lemma InIssues(inv: Invoice, isEmail: string -> bool, y: Issue)
    ensures y in Issues(inv, isEmail)
            <==> y in HeaderIssues(inv, isEmail) || y in ItemIssues(inv.items, 0) || y in TailIssues(inv)
  {
  }

  /** A top-level issue is in the list exactly when the header or the remaining keys raise it. */
  lemma TopLevelIn(inv: Invoice, isEmail: string -> bool, y: Issue)
    requires !IsItemIssue(y)
    ensures y in Issues(inv, isEmail) <==> y in HeaderIssues(inv, isEmail) || y in TailIssues(inv)
  {
  }

  /** The issues of the invoice number, the names and the email are present exactly when their field breaks its rule. */
  lemma HeaderIssuesListed(inv: Invoice, isEmail: string -> bool)
    ensures InvoiceNumberMissing in Issues(inv, isEmail) <==> inv.invoiceNumber == ""
    ensures SenderNameMissing in Issues(inv, isEmail) <==> inv.senderDetails.name == ""
    ensures ClientNameMissing in Issues(inv, isEmail) <==> inv.clientDetails.name == ""
    ensures ClientEmailMalformed in Issues(inv, isEmail) <==> !ValidEmail(inv.clientDetails.email, isEmail)
  {
    TopLevelIn(inv, isEmail, InvoiceNumberMissing);
    TopLevelIn(inv, isEmail, SenderNameMissing);
    TopLevelIn(inv, isEmail, ClientNameMissing);
    TopLevelIn(inv, isEmail, ClientEmailMalformed);
  }

  /** The issues of the item count, the tax rate, the discount and the status are present exactly when their rule fails. */
  lemma TailIssuesListed(inv: Invoice, isEmail: string -> bool)
    ensures NoItems in Issues(inv, isEmail) <==> inv.items == []
    ensures TaxRateOutOfRange in Issues(inv, isEmail) <==> inv.taxRate < 0.0 || inv.taxRate > 100.0
    ensures DiscountNegative in Issues(inv, isEmail) <==> inv.discount < 0.0
    ensures StatusNotAllowed in Issues(inv, isEmail) <==> inv.status == Partial
  {
    TopLevelIn(inv, isEmail, NoItems);
    TopLevelIn(inv, isEmail, TaxRateOutOfRange);
    TopLevelIn(inv, isEmail, DiscountNegative);
    TopLevelIn(inv, isEmail, StatusNotAllowed);
  }

  /** The issue list and the validity predicate agree. */
  lemma IssuesEmptyIffValid(inv: Invoice, isEmail: string -> bool)
    ensures Issues(inv, isEmail) == [] <==> ValidInvoice(inv, isEmail)
  {
    ItemIssuesEmptyIffValid(inv.items, 0);
    ItemIssuesAreItemKinds(inv.items, 0);
  }

  /** Validation is field-scoped: an item issue names exactly the item and
      the key that fail. */
  lemma ItemIssueNamesItsField(inv: Invoice, isEmail: string -> bool, j: nat)
    ensures ItemDescriptionMissing(j) in Issues(inv, isEmail)
            <==> j < |inv.items| && inv.items[j].description == ""
    ensures ItemQuantityBelowOne(j) in Issues(inv, isEmail)
            <==> j < |inv.items| && inv.items[j].quantity < 1.0
    ensures ItemUnitPriceNegative(j) in Issues(inv, isEmail)
            <==> j < |inv.items| && inv.items[j].unitPrice < 0.0
  {
    ItemIssueLocated(inv.items, 0, j);
    InIssues(inv, isEmail, ItemDescriptionMissing(j));
    InIssues(inv, isEmail, ItemQuantityBelowOne(j));
    InIssues(inv, isEmail, ItemUnitPriceNegative(j));
  }

  /** An invoice as handed to the schema, where the keys with a default may be absent. */
  datatype InvoiceInput = InvoiceInput(
    invoiceNumber: string,
    date: Date,
    dueDate: Date,
    senderDetails: SenderDetails,
    clientDetails: ClientDetails,
    items: seq<Item>,
    taxRate: Option<real>,
    discount: Option<real>,
    status: Option<Status>,
    currency: Option<string>)

  function OrDefault<T>(x: Option<T>, default: T): T
  {
    if x.Some? then x.value else default
  }

  /** The input with every absent defaulted key filled in; present keys and
      the keys without a default are carried over as they are. */
  function WithDefaults(input: InvoiceInput): (inv: Invoice)
    ensures input.taxRate.None? ==> inv.taxRate == 0.0
    ensures input.discount.None? ==> inv.discount == 0.0
    ensures input.status.None? ==> inv.status == Unpaid
    ensures input.currency.None? ==> inv.currency == "IDR"
    ensures input.taxRate.Some? ==> inv.taxRate == input.taxRate.value
    ensures input.discount.Some? ==> inv.discount == input.discount.value
    ensures input.status.Some? ==> inv.status == input.status.value
    ensures input.currency.Some? ==> inv.currency == input.currency.value
    ensures inv.items == input.items && inv.senderDetails == input.senderDetails
    ensures inv.clientDetails == input.clientDetails && inv.invoiceNumber == input.invoiceNumber
    ensures inv.date == input.date && inv.dueDate == input.dueDate
  {
    Invoice(input.invoiceNumber, input.date, input.dueDate, input.senderDetails, input.clientDetails,
            input.items, OrDefault(input.taxRate, DefaultTaxRate), OrDefault(input.discount, DefaultDiscount),
            OrDefault(input.status, DefaultStatus), OrDefault(input.currency, DefaultCurrency))
  }

  /** A defaulted key never causes an issue of its own. */
  lemma DefaultsRaiseNoIssue(input: InvoiceInput, isEmail: string -> bool)
    ensures input.taxRate.None? ==> TaxRateOutOfRange !in Issues(WithDefaults(input), isEmail)
    ensures input.discount.None? ==> DiscountNegative !in Issues(WithDefaults(input), isEmail)
    ensures input.status.None? ==> StatusNotAllowed !in Issues(WithDefaults(input), isEmail)
  {
  }

  datatype ParseResult = Parsed(invoice: Invoice) | Rejected(issues: seq<Issue>)

  /** Schema parsing: defaults are filled in, then the result is accepted or
      rejected with its issues. */
  function Parse(input: InvoiceInput, isEmail: string -> bool): (r: ParseResult)
    ensures r.Parsed? <==> ValidInvoice(WithDefaults(input), isEmail)
    ensures r.Parsed? ==> r.invoice == WithDefaults(input)
    ensures r.Rejected? ==> r.issues == Issues(WithDefaults(input), isEmail) && r.issues != []
  {
    var inv := WithDefaults(input);
    IssuesEmptyIffValid(inv, isEmail);
    var issues := Issues(inv, isEmail);
    if issues == [] then Parsed(inv) else Rejected(issues)
  }
}
