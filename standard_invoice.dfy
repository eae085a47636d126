/** The create-invoice page: the item table with its per-row amounts, the
    percentage-based totals, and `saveInvoice`'s validation, status and record. */
module StandardInvoice {
  import opened Wrappers
  import opened Seqs
  import opened JsText
  import opened JsNumber
  import opened Records
  import opened PaymentStatus

  /** A row of the item table; rate and quantity are the typed text. */
  datatype Row = Row(key: string, description: string, rate: string, quantity: string, amount: real)

  /** The inputs of a row that `calcTableItems` is called for. */
  datatype Field = Description | Rate | Quantity

  /** The row the table starts with and `handleAddNewRow` appends. */
  function BlankRow(key: string): Row {
    Row(key, "", "", "1", 0.0)
  }

  /** A row's amount: `Number((rate * qty).toFixed(2))`, each read with `Number(x) || 0`. */
  function LineAmount(rate: string, quantity: string): real {
    Round2(Num(rate) * Num(quantity))
  }

  /** A blank row's amount 0 is that of its empty rate. */
  lemma BlankRowPriced(key: string)
    ensures BlankRow(key).amount == LineAmount(BlankRow(key).rate, BlankRow(key).quantity)
  {
    ToNumberOfEmpty();
    Round2OfZeroProduct(Num(""), Num("1"));
  }

  /** One row after `field` is set to `value`. */
  function EditRow(row: Row, field: Field, value: string): (r: Row)
    ensures r.key == row.key
    ensures field == Description ==> r.description == value && r.rate == row.rate && r.quantity == row.quantity
    ensures field == Rate ==> r.description == row.description && r.rate == value && r.quantity == row.quantity
    ensures field == Quantity ==> r.description == row.description && r.rate == row.rate && r.quantity == value
    ensures r.amount == if field == Description then row.amount else LineAmount(r.rate, r.quantity)
  {
    match field
    case Description => row.(description := value)
    case Rate => row.(rate := value, amount := LineAmount(value, row.quantity))
    case Quantity => row.(quantity := value, amount := LineAmount(row.rate, value))
  }

  /** The `map` inside `calcTableItems`: the rows keyed `key` are edited, the
      others are returned as they are. */
  function EditRows(rows: seq<Row>, key: string, field: Field, value: string): (r: seq<Row>)
    ensures |r| == |rows|
    ensures forall i :: 0 <= i < |rows| && rows[i].key != key ==> r[i] == rows[i]
    ensures forall i :: 0 <= i < |rows| && rows[i].key == key ==> r[i] == EditRow(rows[i], field, value)
  {
    seq(|rows|, i requires 0 <= i < |rows| => if rows[i].key == key then EditRow(rows[i], field, value) else rows[i])
  }

  /** Row `i` is keyed `i + 1` and its amount is that of its rate and quantity. */
  ghost predicate WellFormed(rows: seq<Row>) {
    forall i :: 0 <= i < |rows| ==>
      rows[i].key == NatToString(i + 1) && rows[i].amount == LineAmount(rows[i].rate, rows[i].quantity)
  }

  /** The table the page starts with is well formed. */
  lemma InitialTableWellFormed()
    ensures WellFormed([BlankRow("1")])
  {
    assert NatToString(1) == "1";
    BlankRowPriced("1");
  }

  /** Numbered rows have pairwise distinct keys, so an edit reaches one row only. */
  lemma KeysDistinct(rows: seq<Row>)
    requires WellFormed(rows)
    ensures forall i, j :: 0 <= i < j < |rows| ==> rows[i].key != rows[j].key
  {
    forall i, j | 0 <= i < j < |rows|
      ensures rows[i].key != rows[j].key
    {
      DigitsValueOfNatToString(i + 1);
      DigitsValueOfNatToString(j + 1);
    }
  }

  /** In a well-formed table an edit changes the one row keyed `key` and no other. */
  lemma EditRowsTouchesOneRow(rows: seq<Row>, k: nat, field: Field, value: string)
    requires WellFormed(rows) && k < |rows|
    ensures var r := EditRows(rows, rows[k].key, field, value);
      r == rows[k := EditRow(rows[k], field, value)]
  {
    KeysDistinct(rows);
    var r := EditRows(rows, rows[k].key, field, value);
    var e := rows[k := EditRow(rows[k], field, value)];
    forall i | 0 <= i < |r|
      ensures r[i] == e[i]
    {
      if i != k {
        assert rows[i].key != rows[k].key;
      }
    }
  }

  /** Editing keeps the table well formed. */
  lemma EditRowsWellFormed(rows: seq<Row>, key: string, field: Field, value: string)
    requires WellFormed(rows)
    ensures WellFormed(EditRows(rows, key, field, value))
  {
  }

  function Amount(row: Row): real {
    row.amount
  }

  /** `subTotal`: the sum of the row amounts. */
  function SubTotal(rows: seq<Row>): real {
    SumOf(rows, Amount)
  }

  /** The subtotal does not depend on the order of the rows. */
  lemma SubTotalOrderFree(a: seq<Row>, b: seq<Row>)
    requires multiset(a) == multiset(b)
    ensures SubTotal(a) == SubTotal(b)
  {
    SumOfPermutation(a, b, Amount);
  }

  /** The grand total before rounding: tax and discount are percentages of
      the subtotal, shipping a flat amount. */
  function PercentTotal(subTotal: real, tax: real, discount: real, shipping: real): real {
    subTotal + subTotal * tax / 100.0 - subTotal * discount / 100.0 + shipping
  }

  /** `grandTotal`: tax, discount and shipping read with `Number(x || 0)`;
      `NaN` (`None`) when one of them is not a number. */
  function GrandTotal(subTotal: real, tax: string, discount: string, shipping: string): (g: Option<real>)
    ensures g.Some? <==> ToNumber(tax).Some? && ToNumber(discount).Some? && ToNumber(shipping).Some?
    ensures g.Some? ==>
      var exact := PercentTotal(subTotal, ToNumber(tax).value, ToNumber(discount).value, ToNumber(shipping).value);
      -0.005 <= g.value - exact <= 0.005 && (-FixedLimit < exact < FixedLimit ==> IsCents(g.value))
  {
    var t, d, s := ToNumber(tax), ToNumber(discount), ToNumber(shipping);
    if t.Some? && d.Some? && s.Some? then
      Some(Round2(PercentTotal(subTotal, t.value, d.value, s.value)))
    else None
  }

  /** `balanceDue`: the grand total less the amount paid, to the cent. */
  function BalanceDue(grandTotal: Option<real>, amountPaid: string): (b: Option<real>)
    ensures b.Some? <==> grandTotal.Some? && ToNumber(amountPaid).Some?
    ensures b.Some? ==> var due := grandTotal.value - ToNumber(amountPaid).value;
      -0.005 <= b.value - due <= 0.005 && (-FixedLimit < due < FixedLimit ==> IsCents(b.value))
  {
    match (grandTotal, ToNumber(amountPaid))
    case (Some(g), Some(p)) => Some(Round2(g - p))
    case _ => None
  }

  /** With tax, discount and shipping left empty the grand total is the
      subtotal to the cent, and paying nothing leaves all of it due. */
  lemma EmptyAdjustments(subTotal: real)
    ensures GrandTotal(subTotal, "", "", "") == Some(Round2(subTotal))
    ensures BalanceDue(Some(Round2(subTotal)), "") == Some(Round2(subTotal))
  {
    ToNumberOfEmpty();
    assert PercentTotal(subTotal, 0.0, 0.0, 0.0) == subTotal;
    Round2Idempotent(subTotal);
    assert Round2(subTotal) - 0.0 == Round2(subTotal);
  }

  /** Subtotal 100 with tax 10%, discount 5% and shipping 20 gives 125. */
  lemma GrandTotalExample()
    ensures GrandTotal(100.0, "10", "5", "20") == Some(125.0)
  {
    assert NatToString(10) == "10";
    assert NatToString(5) == "5";
    assert NatToString(20) == "20";
    ToNumberOfNatToString(10);
    ToNumberOfNatToString(5);
    ToNumberOfNatToString(20);
    assert PercentTotal(100.0, 10.0, 5.0, 20.0) == 125.0;
    Round2OfCents(125.0);
  }

  /** `parseFloat(x) <= 0`; false for `NaN`. */
  predicate NotPositive(v: Option<real>) {
    v.Some? && v.value <= 0.0
  }

  /** The test `saveInvoice` applies to each row: a blank description, or a
      rate or quantity that is empty or reads as a non-positive number. */
  predicate IsIncomplete(row: Row) {
    || Trim(row.description) == []
    || row.rate == [] || NotPositive(ParseFloat(row.rate))
    || row.quantity == [] || NotPositive(ParseFloat(row.quantity))
  }

  /** `tableItems.some(...)` */
  predicate HasIncompleteItem(rows: seq<Row>) {
    exists i :: 0 <= i < |rows| && IsIncomplete(rows[i])
  }

  /** The test reads rate and quantity with `parseFloat`, which gives `NaN` for
      text that is no number, and `NaN <= 0` is false: a row whose rate is a
      word passes, and is saved with amount 0. */
  lemma UnreadableRatePasses(row: Row)
    requires Trim(row.description) != []
    requires row.rate != [] && !IsSpace(row.rate[0]) && !IsDigit(row.rate[0]) && row.rate[0] !in {'+', '-', '.'}
    requires row.quantity != [] && !NotPositive(ParseFloat(row.quantity))
    ensures !IsIncomplete(row)
    ensures LineAmount(row.rate, row.quantity) == 0.0
  {
    NumberOfWord(row.rate);
    Round2OfZeroProduct(Num(row.rate), Num(row.quantity));
  }

  /** A row as stored: the fields renamed, the key dropped, the amount kept. */
  function StoredRow(row: Row): InvoiceItem {
    InvoiceItem(row.description, row.quantity, row.rate, Some(row.amount))
  }

  /** `Number(grandTotal.toFixed(2)) || 0`, the total the status compares against. */
  function StatusTotal(grandTotal: Option<real>): (t: real)
    ensures grandTotal.None? ==> t == 0.0
    ensures grandTotal.Some? ==> t == Round2(grandTotal.value)
  {
    match grandTotal
    case Some(g) => Round2(g)
    case None => 0.0
  }

  /** The grand total is already rounded, so the status compares against it as is. */
  lemma StatusTotalOfGrandTotal(subTotal: real, tax: string, discount: string, shipping: string)
    requires GrandTotal(subTotal, tax, discount, shipping).Some?
    ensures StatusTotal(GrandTotal(subTotal, tax, discount, shipping)) == GrandTotal(subTotal, tax, discount, shipping).value
  {
    var t, d, s := ToNumber(tax).value, ToNumber(discount).value, ToNumber(shipping).value;
    Round2Idempotent(PercentTotal(subTotal, t, d, s));
  }

  /** The due date the overdue check uses and `payDue` stores: the payment due
      date, else the invoice date, else now. */
  function CreateDueDate(paymentDue: Option<Time>, invoiceDate: Option<Time>, now: Time): (d: Time)
    ensures paymentDue.Some? ==> d == paymentDue.value
    ensures paymentDue.None? && invoiceDate.Some? ==> d == invoiceDate.value
    ensures paymentDue.None? && invoiceDate.None? ==> d == now
  {
    match paymentDue
    case Some(p) => p
    case None => invoiceDate.GetOr(now)
  }

  /** With neither date entered the due date is now, which is not past: a new
      invoice without dates is never Overdue. */
  lemma UndatedNeverOverdue(paid: real, total: real, now: Time)
    ensures ApplyOverdue(BaseStatus(paid, total), Some(CreateDueDate(None, None, now)), now) != Overdue
  {
  }

  /** `lastPayment`: now when the amount paid reads as a positive number. */
  function LastPayment(amountPaid: string, now: Time): (t: Option<Time>)
    ensures t.Some? <==> ToNumber(amountPaid).Some? && ToNumber(amountPaid).value > 0.0
    ensures t.Some? ==> t.value == now
  {
    match ToNumber(amountPaid)
    case Some(p) => if p > 0.0 then Some(now) else None
    case None => None
  }

  datatype SaveOutcome =
    | AlreadySaving
    | NoItems          // "Please add at least one item before saving."
    | IncompleteItems  // "Please complete item table field before saving."
    | Saved(invoice: Invoice, lastPayment: Option<Time>)

  /** The state of the create-invoice page that the money engine reads. */
  class InvoiceForm {
    var tableItems: seq<Row>
    var tax: string
    var discount: string
    var shipping: string
    var amountPaid: string
    var invoiceNumber: string
    var invoicePO: string
    var invoiceNote: string
    var paymentTerms: string
    var invoiceDate: Option<Time>
    var paymentDue: Option<Time>
    var saveLoading: bool

    /** The table is never empty and its rows are numbered and priced. */
    ghost predicate Valid()
      reads this
    {
      tableItems != [] && WellFormed(tableItems)
    }

    constructor ()
      ensures Valid()
      ensures tableItems == [BlankRow("1")]
      ensures tax == "" && discount == "" && shipping == "" && amountPaid == ""
      ensures invoiceNumber == "" && invoicePO == "" && invoiceNote == "" && paymentTerms == ""
      ensures invoiceDate == None && paymentDue == None && !saveLoading
    {
      tableItems := [BlankRow("1")];
      tax, discount, shipping, amountPaid := "", "", "", "";
      invoiceNumber, invoicePO, invoiceNote, paymentTerms := "", "", "", "";
      invoiceDate, paymentDue := None, None;
      saveLoading := false;
      InitialTableWellFormed();
    }

    /** `calcTableItems(key, field, value)` */
    method CalcTableItems(key: string, field: Field, value: string)
      requires Valid()
      modifies this`tableItems
      ensures Valid()
      ensures tableItems == EditRows(old(tableItems), key, field, value)
    {
      EditRowsWellFormed(tableItems, key, field, value);
      tableItems := EditRows(tableItems, key, field, value);
    }

    /** `handleAddNewRow`: a blank row keyed one past the current length. */
    method AddNewRow()
      requires Valid()
      modifies this`tableItems
      ensures Valid()
      ensures tableItems == old(tableItems) + [BlankRow(NatToString(|old(tableItems)| + 1))]
    {
      var newKey := NatToString(|tableItems| + 1);
      BlankRowPriced(newKey);
      tableItems := tableItems + [BlankRow(newKey)];
    }

    /** The invoice record `saveInvoice` writes with a given status (without
        the stray `lastPayment` field, which no reader of `lastPaymentAt` sees). */
    function Record(customerId: string, userId: string, now: Time, status: Status): (inv: Invoice)
      reads this
      ensures inv.status == Name(status)
      ensures inv.payDue == Some(CreateDueDate(paymentDue, invoiceDate, now))
      ensures inv.invDate == invoiceDate.GetOr(now)
      ensures inv.items == StoreItems(tableItems, StoredRow)
      ensures inv.lastPaymentAt == None
      ensures inv.invNumber == invoiceNumber && inv.invPO == invoicePO
      ensures inv.payTerms == paymentTerms && inv.notes == invoiceNote
      ensures inv.custID == customerId && inv.userID == userId
      ensures inv.costSubTotal == Some(SubTotal(tableItems))
      ensures inv.costGrandTotal == GrandTotal(SubTotal(tableItems), tax, discount, shipping)
      ensures inv.costBalanceDue == BalanceDue(inv.costGrandTotal, amountPaid)
      ensures inv.costTax == Figure(ToNumber(tax)) && inv.costDiscount == Figure(ToNumber(discount))
      ensures inv.costShipping == Figure(ToNumber(shipping)) && inv.costAmountPaid == Figure(ToNumber(amountPaid))
    {
      var grandTotal := GrandTotal(SubTotal(tableItems), tax, discount, shipping);
      Invoice(
        invNumber := invoiceNumber,
        invPO := invoicePO,
        invDate := invoiceDate.GetOr(now),
        payDue := Some(CreateDueDate(paymentDue, invoiceDate, now)),
        payTerms := paymentTerms,
        status := Name(status),
        notes := invoiceNote,
        items := StoreItems(tableItems, StoredRow),
        costSubTotal := Some(SubTotal(tableItems)),
        costDiscount := Figure(ToNumber(discount)),
        costTax := Figure(ToNumber(tax)),
        costShipping := Figure(ToNumber(shipping)),
        costGrandTotal := grandTotal,
        costAmountPaid := Figure(ToNumber(amountPaid)),
        costBalanceDue := BalanceDue(grandTotal, amountPaid),
        custID := customerId,
        userID := userId,
        lastPaymentAt := None)
    }

    /** The invoice record `saveInvoice` writes at time `now`: the payment
        classified against the grand total, overdue once the due date is past. */
    function Created(customerId: string, userId: string, now: Time): (inv: Invoice)
      reads this
      ensures inv.payDue == Some(CreateDueDate(paymentDue, invoiceDate, now))
      ensures inv.invDate == invoiceDate.GetOr(now)
      ensures inv.items == StoreItems(tableItems, StoredRow)
      ensures inv.lastPaymentAt == None
      ensures inv.costSubTotal == Some(SubTotal(tableItems))
      ensures inv.costGrandTotal == GrandTotal(SubTotal(tableItems), tax, discount, shipping)
      ensures inv.costBalanceDue == BalanceDue(inv.costGrandTotal, amountPaid)
      ensures inv.costAmountPaid == Figure(ToNumber(amountPaid))
    {
      var grandTotal := GrandTotal(SubTotal(tableItems), tax, discount, shipping);
      var due := CreateDueDate(paymentDue, invoiceDate, now);
      Record(customerId, userId, now, ApplyOverdue(BaseStatus(Num(amountPaid), StatusTotal(grandTotal)), Some(due), now))
    }

    /** `saveInvoice`: refuses while a save runs, on an empty table and on an
        incomplete row, in that order; otherwise classifies the payment and
        builds the record. `customerId` and `userId` are the ids the store
        generates for the customer and user documents written first. The
        loading flag is set for the duration of the save and cleared again in
        `finally`, so it is as before when the call returns. */
    method SaveInvoice(customerId: string, userId: string, now: Time) returns (outcome: SaveOutcome)
      ensures saveLoading ==> outcome == AlreadySaving
      ensures !saveLoading && tableItems == [] ==> outcome == NoItems
      ensures !saveLoading && tableItems != [] && HasIncompleteItem(tableItems) ==> outcome == IncompleteItems
      ensures !saveLoading && tableItems != [] && !HasIncompleteItem(tableItems) ==>
        outcome == Saved(Created(customerId, userId, now), LastPayment(amountPaid, now))
    {
      if saveLoading {
        return AlreadySaving;
      }
      if |tableItems| == 0 {
        return NoItems;
      }
      if HasIncompleteItem(tableItems) {
        return IncompleteItems;
      }
      var paid := Num(amountPaid);
      var total := StatusTotal(GrandTotal(SubTotal(tableItems), tax, discount, shipping));
      var invoiceStatus := Unpaid;
      if paid > total && total > 0.0 {
        invoiceStatus := Overpaid;
      } else if paid == total && total > 0.0 {
        invoiceStatus := Paid;
      } else if paid > 0.0 && paid < total {
        invoiceStatus := Partial;
      }
      var dueDate := CreateDueDate(paymentDue, invoiceDate, now);
      if invoiceStatus != Paid && invoiceStatus != Overpaid && now > dueDate {
        invoiceStatus := Overdue;
      }
      assert invoiceStatus == ApplyOverdue(BaseStatus(paid, total), Some(dueDate), now);
      outcome := Saved(Record(customerId, userId, now, invoiceStatus), LastPayment(amountPaid, now));
    }
  }

  /** The stored money agrees with itself: a balance due is written exactly
      when the grand total and the amount paid are numbers, and it is the
      grand total less the amount paid, to the cent. */
  lemma CreatedBalanceDue(form: InvoiceForm, customerId: string, userId: string, now: Time)
    ensures var inv := form.Created(customerId, userId, now);
      && (inv.costBalanceDue.Some? <==> inv.costGrandTotal.Some? && ScalarNumber(inv.costAmountPaid).Some?)
      && (inv.costBalanceDue.Some? ==>
            -0.005 <= inv.costBalanceDue.value - (inv.costGrandTotal.value - ScalarNum(inv.costAmountPaid)) <= 0.005)
  {
    var inv := form.Created(customerId, userId, now);
    assert ScalarNumber(inv.costAmountPaid) == ToNumber(form.amountPaid);
  }

  /** A saved invoice's status is the payment classification of its own stored
      amounts and due date. */
  lemma CreatedStatusMatchesRecord(form: InvoiceForm, customerId: string, userId: string, now: Time)
    ensures var inv := form.Created(customerId, userId, now);
      inv.status == Name(ApplyOverdue(BaseStatus(Num(form.amountPaid), StatusTotal(inv.costGrandTotal)), inv.payDue, now))
  {
  }
}
