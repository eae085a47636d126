/** The edit-invoice modal: cell edits that recompute an item's amount without
    rounding, the flat-amount totals, and `handleApplyChanges`' status and
    payment timestamp. */
module EditInvoice {
  import opened Wrappers
  import opened Seqs
  import opened JsNumber
  import opened Records
  import opened PaymentStatus
  import StandardInvoice

  /** An item's amount: quantity times rate, each read with `Number(x) || 0`. */
  function ItemAmount(quantity: string, rate: string): real {
    Num(quantity) * Num(rate)
  }

  /** The item `handleAddNewRow` appends. */
  function BlankItem(): EditItem {
    EditItem("", "1", "", 0.0)
  }

  /** Every item's amount is that of its quantity and rate. */
  ghost predicate AmountsCurrent(items: seq<EditItem>) {
    forall i :: 0 <= i < |items| ==> items[i].amount == ItemAmount(items[i].quantity, items[i].rate)
  }

  function Amount(item: EditItem): real {
    item.amount
  }

  /** `calculateTotals`: the subtotal is the sum of the item amounts; discount,
      tax and shipping are flat amounts; the typed adjustments pass through. */
  function CalculateTotals(items: seq<EditItem>, totals: EditTotals): (r: EditTotals)
    ensures r.discount == totals.discount && r.tax == totals.tax
    ensures r.shipping == totals.shipping && r.amountPaid == totals.amountPaid
    ensures r.subTotal == SumOf(items, Amount)
    ensures r.grandTotal == r.subTotal - ScalarNum(r.discount) + ScalarNum(r.tax) + ScalarNum(r.shipping)
    ensures r.balanceDue + ScalarNum(r.amountPaid) == r.grandTotal
  {
    var subTotal := SumOf(items, Amount);
    var grandTotal := subTotal - ScalarNum(totals.discount) + ScalarNum(totals.tax) + ScalarNum(totals.shipping);
    totals.(subTotal := subTotal, grandTotal := grandTotal, balanceDue := grandTotal - ScalarNum(totals.amountPaid))
  }

  /** Recalculating already calculated totals changes nothing. */
  lemma CalculateTotalsIdempotent(items: seq<EditItem>, totals: EditTotals)
    ensures CalculateTotals(items, CalculateTotals(items, totals)) == CalculateTotals(items, totals)
  {
    var r := CalculateTotals(items, totals);
    var r2 := CalculateTotals(items, r);
    assert r2.discount == r.discount && r2.tax == r.tax && r2.shipping == r.shipping && r2.amountPaid == r.amountPaid;
    assert r2.subTotal == r.subTotal && r2.grandTotal == r.grandTotal && r2.balanceDue == r.balanceDue;
  }

  /** The stored sums are overwritten: only the adjustments matter. */
  lemma CalculateTotalsIgnoresSums(items: seq<EditItem>, a: EditTotals, b: EditTotals)
    requires a.discount == b.discount && a.tax == b.tax && a.shipping == b.shipping && a.amountPaid == b.amountPaid
    ensures CalculateTotals(items, a) == CalculateTotals(items, b)
  {
    var ra, rb := CalculateTotals(items, a), CalculateTotals(items, b);
    assert ra.discount == rb.discount && ra.tax == rb.tax && ra.shipping == rb.shipping && ra.amountPaid == rb.amountPaid;
    assert ra.subTotal == rb.subTotal && ra.grandTotal == rb.grandTotal && ra.balanceDue == rb.balanceDue;
  }

  /** The totals do not depend on the order of the items. */
  lemma CalculateTotalsOrderFree(a: seq<EditItem>, b: seq<EditItem>, totals: EditTotals)
    requires multiset(a) == multiset(b)
    ensures CalculateTotals(a, totals) == CalculateTotals(b, totals)
  {
    SumOfPermutation(a, b, Amount);
  }

  /** The two flows disagree on the same figures: creating with a 10% tax on a
      200 subtotal gives 220, while the edit form reads the stored tax 10 as a
      flat amount and gives 210. */
  lemma FlatVersusPercent()
    ensures StandardInvoice.GrandTotal(200.0, "10", "", "") == Some(220.0)
    ensures CalculateTotals([EditItem("Design", "1", "200", 200.0)],
                            EditTotals(0.0, Text(""), Text("10"), Text(""), 0.0, Text(""), 0.0)).grandTotal == 210.0
  {
    ToNumberOfEmpty();
    assert NatToString(10) == "10";
    ToNumberOfNatToString(10);
    assert StandardInvoice.PercentTotal(200.0, 10.0, 0.0, 0.0) == 220.0;
    Round2OfCents(220.0);
    SumOfSingleton(EditItem("Design", "1", "200", 200.0), Amount);
  }

  /** The items after row `index`'s description is set. */
  function WithDescription(items: seq<EditItem>, index: nat, value: string): (r: seq<EditItem>)
    requires index < |items|
    ensures |r| == |items| && r[index].description == value
    ensures r[index].quantity == items[index].quantity && r[index].rate == items[index].rate
    ensures r[index].amount == items[index].amount
    ensures forall i :: 0 <= i < |items| && i != index ==> r[i] == items[i]
  {
    items[index := items[index].(description := value)]
  }

  /** The items after row `index`'s quantity is set: its amount is recomputed. */
  function WithQuantity(items: seq<EditItem>, index: nat, value: string): (r: seq<EditItem>)
    requires index < |items|
    ensures |r| == |items| && r[index].quantity == value
    ensures r[index].description == items[index].description && r[index].rate == items[index].rate
    ensures r[index].amount == ItemAmount(value, items[index].rate)
    ensures forall i :: 0 <= i < |items| && i != index ==> r[i] == items[i]
  {
    items[index := items[index].(quantity := value, amount := ItemAmount(value, items[index].rate))]
  }

  /** The items after row `index`'s rate is set: its amount is recomputed. */
  function WithRate(items: seq<EditItem>, index: nat, value: string): (r: seq<EditItem>)
    requires index < |items|
    ensures |r| == |items| && r[index].rate == value
    ensures r[index].description == items[index].description && r[index].quantity == items[index].quantity
    ensures r[index].amount == ItemAmount(items[index].quantity, value)
    ensures forall i :: 0 <= i < |items| && i != index ==> r[i] == items[i]
  {
    items[index := items[index].(rate := value, amount := ItemAmount(items[index].quantity, value))]
  }

  /** A blank item's amount 0 is that of its quantity "1" and empty rate. */
  lemma BlankItemPriced()
    ensures BlankItem().amount == ItemAmount(BlankItem().quantity, BlankItem().rate)
  {
    ToNumberOfEmpty();
    assert NatToString(1) == "1";
    ToNumberOfNatToString(1);
    assert Num("1") * Num("") == 1.0 * 0.0;
  }

  /** A description edit leaves every amount in step with its inputs. */
  lemma DescriptionKeepsAmountsCurrent(items: seq<EditItem>, index: nat, value: string)
    requires AmountsCurrent(items) && index < |items|
    ensures AmountsCurrent(WithDescription(items, index, value))
  {
    var r := WithDescription(items, index, value);
    forall i | 0 <= i < |r|
      ensures r[i].amount == ItemAmount(r[i].quantity, r[i].rate)
    {
      assert i != index ==> r[i] == items[i];
    }
  }

  /** A quantity edit recomputes its row's amount, so every amount stays in step. */
  lemma QuantityKeepsAmountsCurrent(items: seq<EditItem>, index: nat, value: string)
    requires AmountsCurrent(items) && index < |items|
    ensures AmountsCurrent(WithQuantity(items, index, value))
  {
    var r := WithQuantity(items, index, value);
    forall i | 0 <= i < |r|
      ensures r[i].amount == ItemAmount(r[i].quantity, r[i].rate)
    {
      assert i != index ==> r[i] == items[i];
    }
  }

  /** A rate edit recomputes its row's amount, so every amount stays in step. */
  lemma RateKeepsAmountsCurrent(items: seq<EditItem>, index: nat, value: string)
    requires AmountsCurrent(items) && index < |items|
    ensures AmountsCurrent(WithRate(items, index, value))
  {
    var r := WithRate(items, index, value);
    forall i | 0 <= i < |r|
      ensures r[i].amount == ItemAmount(r[i].quantity, r[i].rate)
    {
      assert i != index ==> r[i] == items[i];
    }
  }

  lemma AddKeepsAmountsCurrent(items: seq<EditItem>)
    requires AmountsCurrent(items)
    ensures AmountsCurrent(items + [BlankItem()])
  {
    var r := items + [BlankItem()];
    forall i | 0 <= i < |r|
      ensures r[i].amount == ItemAmount(r[i].quantity, r[i].rate)
    {
      if i == |items| {
        BlankItemPriced();
      } else {
        assert r[i] == items[i];
      }
    }
  }

  /** The adjustment inputs of the totals panel. */
  datatype Adjustment = Tax | Discount | Shipping | AmountPaid

  function WithAdjustment(totals: EditTotals, field: Adjustment, value: string): EditTotals {
    match field
    case Tax => totals.(tax := Text(value))
    case Discount => totals.(discount := Text(value))
    case Shipping => totals.(shipping := Text(value))
    case AmountPaid => totals.(amountPaid := Text(value))
  }

  /** The status `handleApplyChanges` writes: the amount paid against the grand
      total to the cent, overdue only when a due date is set and past. */
  function EditStatus(totals: EditTotals, dueDate: Option<Time>, now: Time): (s: Status)
    ensures dueDate.None? ==> s != Overdue
    ensures s == Overdue <==>
      (BaseStatus(ScalarNum(totals.amountPaid), Round2(totals.grandTotal)) in {Unpaid, Partial}
       && dueDate.Some? && now > dueDate.value)
  {
    ApplyOverdue(BaseStatus(ScalarNum(totals.amountPaid), Round2(totals.grandTotal)), dueDate, now)
  }

  /** `prevPaid !== newPaid`, each read with `Number(x || 0)`; `NaN` differs from
      everything, itself included. */
  predicate PaymentChanged(stored: Scalar, entered: Scalar) {
    var prevPaid := ScalarOrZero(stored);
    var newPaid := ScalarOrZero(entered);
    !(prevPaid.Some? && newPaid.Some? && prevPaid.value == newPaid.value)
  }

  /** The payment time written back: now when the amount paid changed, the
      stored one otherwise. */
  function PaymentTimestamp(stored: Scalar, entered: Scalar, lastPaymentAt: Option<Time>, now: Time): (t: Option<Time>)
    ensures PaymentChanged(stored, entered) ==> t == Some(now)
    ensures !PaymentChanged(stored, entered) ==> t == lastPaymentAt
  {
    if PaymentChanged(stored, entered) then Some(now) else lastPaymentAt
  }

  /** Between two readable amounts, the timestamp moves exactly when they differ. */
  lemma PaymentChangedOfNumbers(stored: Scalar, entered: Scalar)
    requires ScalarOrZero(stored).Some? && ScalarOrZero(entered).Some?
    ensures PaymentChanged(stored, entered) <==> ScalarOrZero(stored).value != ScalarOrZero(entered).value
  {
  }

  /** An entered amount that is no number always counts as a new payment, even
      when the stored amount is the same text. */
  lemma UnreadableAmountAlwaysChanged(x: string, lastPaymentAt: Option<Time>, now: Time)
    requires ToNumber(x).None?
    ensures PaymentTimestamp(Text(x), Text(x), lastPaymentAt, now) == Some(now)
  {
  }

  /** Applying again with the amount paid as stored keeps the payment time. */
  lemma ReapplyKeepsTimestamp(paid: Scalar, lastPaymentAt: Option<Time>, now: Time)
    requires ScalarOrZero(paid).Some?
    ensures PaymentTimestamp(paid, paid, lastPaymentAt, now) == lastPaymentAt
  {
  }

  /** An item as stored: quantity and rate as text, amount as the number held. */
  function StoredItem(item: EditItem): InvoiceItem {
    InvoiceItem(item.description, item.quantity, item.rate, Some(item.amount))
  }

  /** The form invariant: amounts follow their inputs, totals follow the items. */
  ghost predicate Consistent(data: EditData) {
    AmountsCurrent(data.items) && data.totals == CalculateTotals(data.items, data.totals)
  }

  /** The handler's copy-then-assign of a description cell is `WithDescription`. */
  lemma DescriptionCellSteps(items: seq<EditItem>, index: nat, value: string)
    requires index < |items|
    ensures items[index := items[index].(description := value)] == WithDescription(items, index, value)
  {
  }

  /** Assigning the quantity and then the recomputed amount is `WithQuantity`. */
  lemma QuantityCellSteps(items: seq<EditItem>, index: nat, value: string)
    requires index < |items|
    ensures var a := items[index := items[index].(quantity := value)];
            a[index := a[index].(amount := ItemAmount(a[index].quantity, a[index].rate))]
            == WithQuantity(items, index, value)
  {
    var a := items[index := items[index].(quantity := value)];
    assert a[index].rate == items[index].rate;
  }

  /** Assigning the rate and then the recomputed amount is `WithRate`. */
  lemma RateCellSteps(items: seq<EditItem>, index: nat, value: string)
    requires index < |items|
    ensures var a := items[index := items[index].(rate := value)];
            a[index := a[index].(amount := ItemAmount(a[index].quantity, a[index].rate))]
            == WithRate(items, index, value)
  {
    var a := items[index := items[index].(rate := value)];
    assert a[index].quantity == items[index].quantity;
  }

  /** Once the amounts are current, the totals effect makes the form consistent. */
  lemma TotalsEffectConsistent(data: EditData, totals: EditTotals)
    requires AmountsCurrent(data.items) && data.totals == CalculateTotals(data.items, totals)
    ensures Consistent(data)
  {
    CalculateTotalsIdempotent(data.items, totals);
  }

  /** The three documents `handleApplyChanges` commits in one batch. */
  datatype Applied = Applied(invoice: Invoice, customer: Customer, user: User)

  /** The state of the open modal: the loaded edit data and the invoice as stored. */
  class EditForm {
    var data: EditData
    var firestoreInvoice: Invoice

    /** Every amount follows its inputs and the totals follow the items. */
    ghost predicate Valid()
      reads this
    {
      Consistent(data)
    }

    /** The modal after loading, once the totals effect has run. */
    constructor (loaded: EditData, invoice: Invoice)
      ensures data == loaded.(totals := CalculateTotals(loaded.items, loaded.totals))
      ensures firestoreInvoice == invoice
      ensures AmountsCurrent(loaded.items) ==> Valid()
    {
      data := loaded.(totals := CalculateTotals(loaded.items, loaded.totals));
      firestoreInvoice := invoice;
      CalculateTotalsIdempotent(loaded.items, loaded.totals);
    }

    /** The description cell of row `index`. */
    method SetDescription(index: nat, value: string)
      requires index < |data.items|
      modifies this`data
      ensures data.items == WithDescription(old(data.items), index, value)
      ensures data == old(data).(items := data.items, totals := CalculateTotals(data.items, old(data.totals)))
      ensures old(Valid()) ==> Valid()
    {
      var before := data;
      var items := data.items;
      items := items[index := items[index].(description := value)];
      DescriptionCellSteps(before.items, index, value);
      data := data.(items := items);
      RecalculateTotals();
      if old(Valid()) {
        DescriptionKeepsAmountsCurrent(before.items, index, value);
        TotalsEffectConsistent(data, before.totals);
      }
    }

    /** The quantity cell of row `index`: the row's amount is recomputed. */
    method SetQuantity(index: nat, value: string)
      requires index < |data.items|
      modifies this`data
      ensures data.items == WithQuantity(old(data.items), index, value)
      ensures data == old(data).(items := data.items, totals := CalculateTotals(data.items, old(data.totals)))
      ensures old(Valid()) ==> Valid()
    {
      var before := data;
      var items := data.items;
      items := items[index := items[index].(quantity := value)];
      items := items[index := items[index].(amount := ItemAmount(items[index].quantity, items[index].rate))];
      QuantityCellSteps(before.items, index, value);
      data := data.(items := items);
      RecalculateTotals();
      if old(Valid()) {
        QuantityKeepsAmountsCurrent(before.items, index, value);
        TotalsEffectConsistent(data, before.totals);
      }
    }

    /** The rate cell of row `index`: the row's amount is recomputed. */
    method SetRate(index: nat, value: string)
      requires index < |data.items|
      modifies this`data
      ensures data.items == WithRate(old(data.items), index, value)
      ensures data == old(data).(items := data.items, totals := CalculateTotals(data.items, old(data.totals)))
      ensures old(Valid()) ==> Valid()
    {
      var before := data;
      var items := data.items;
      items := items[index := items[index].(rate := value)];
      items := items[index := items[index].(amount := ItemAmount(items[index].quantity, items[index].rate))];
      RateCellSteps(before.items, index, value);
      data := data.(items := items);
      RecalculateTotals();
      if old(Valid()) {
        RateKeepsAmountsCurrent(before.items, index, value);
        TotalsEffectConsistent(data, before.totals);
      }
    }

    /** `handleAddNewRow`: one blank item at the end, the others untouched. */
    method AddNewRow()
      modifies this`data
      ensures data.items == old(data.items) + [BlankItem()]
      ensures data == old(data).(items := data.items, totals := CalculateTotals(data.items, old(data.totals)))
      ensures old(Valid()) ==> Valid()
    {
      data := data.(items := data.items + [BlankItem()]);
      RecalculateTotals();
      if old(Valid()) {
        AddKeepsAmountsCurrent(old(data.items));
        CalculateTotalsIdempotent(data.items, old(data.totals));
      }
    }

    /** A tax, discount, shipping or amount-paid input: kept as typed, totals recalculated. */
    method SetAdjustment(field: Adjustment, value: string)
      modifies this`data
      ensures data == old(data).(totals := CalculateTotals(data.items, WithAdjustment(old(data.totals), field, value)))
      ensures old(Valid()) ==> Valid()
    {
      data := data.(totals := CalculateTotals(data.items, WithAdjustment(data.totals, field, value)));
      CalculateTotalsIdempotent(data.items, WithAdjustment(old(data.totals), field, value));
    }

    /** The totals effect that runs whenever the items change. */
    method RecalculateTotals()
      modifies this`data
      ensures data == old(data).(totals := CalculateTotals(old(data.items), old(data.totals)))
    {
      data := data.(totals := CalculateTotals(data.items, data.totals));
    }

    /** The three documents written with a given status and payment time. */
    function Batch(status: Status, paymentTimestamp: Option<Time>): (r: Applied)
      reads this
      requires data.invoice.issueDate.Some?
      ensures r.invoice.status == Name(status) && r.invoice.lastPaymentAt == paymentTimestamp
      ensures r.invoice.invDate == data.invoice.issueDate.value && r.invoice.payDue == data.invoice.dueDate
      ensures r.invoice.invNumber == data.invoice.number && r.invoice.invPO == data.invoice.poNumber
      ensures r.invoice.payTerms == data.invoice.paymentTerms && r.invoice.notes == data.invoice.notes
      ensures r.invoice.items == StoreItems(data.items, StoredItem)
      ensures r.invoice.custID == firestoreInvoice.custID && r.invoice.userID == firestoreInvoice.userID
      ensures var t := CalculateTotals(data.items, data.totals);
        && r.invoice.costSubTotal == Some(t.subTotal) && r.invoice.costGrandTotal == Some(t.grandTotal)
        && r.invoice.costBalanceDue == Some(t.balanceDue)
      ensures r.invoice.costDiscount == data.totals.discount && r.invoice.costTax == data.totals.tax
      ensures r.invoice.costShipping == data.totals.shipping && r.invoice.costAmountPaid == data.totals.amountPaid
      ensures r.customer == Customer(Some(data.customer.name), Some(data.customer.email),
                                     Some(data.customer.address), Some(data.customer.phone))
      ensures r.user == User(data.user.name, data.user.email, data.user.phone, data.user.address)
    {
      var finalTotals := CalculateTotals(data.items, data.totals);
      var invoice := firestoreInvoice.(
        invNumber := data.invoice.number,
        invPO := data.invoice.poNumber,
        invDate := data.invoice.issueDate.value,
        payDue := data.invoice.dueDate,
        payTerms := data.invoice.paymentTerms,
        notes := data.invoice.notes,
        status := Name(status),
        items := StoreItems(data.items, StoredItem),
        costSubTotal := Some(finalTotals.subTotal),
        costDiscount := finalTotals.discount,
        costTax := finalTotals.tax,
        costShipping := finalTotals.shipping,
        costGrandTotal := Some(finalTotals.grandTotal),
        costAmountPaid := finalTotals.amountPaid,
        costBalanceDue := Some(finalTotals.balanceDue),
        lastPaymentAt := paymentTimestamp);
      var customer := Customer(Some(data.customer.name), Some(data.customer.email),
                               Some(data.customer.address), Some(data.customer.phone));
      var user := User(data.user.name, data.user.email, data.user.phone, data.user.address);
      Applied(invoice, customer, user)
    }

    /** The documents a successful apply writes at time `now`. */
    function Updated(now: Time): (r: Applied)
      reads this
      requires data.invoice.issueDate.Some?
      ensures r.invoice.status == Name(EditStatus(CalculateTotals(data.items, data.totals), data.invoice.dueDate, now))
      ensures r.invoice.lastPaymentAt ==
        PaymentTimestamp(firestoreInvoice.costAmountPaid, data.totals.amountPaid, firestoreInvoice.lastPaymentAt, now)
      ensures r.invoice.payDue == data.invoice.dueDate
      ensures r.invoice.custID == firestoreInvoice.custID && r.invoice.userID == firestoreInvoice.userID
    {
      var finalTotals := CalculateTotals(data.items, data.totals);
      Batch(EditStatus(finalTotals, data.invoice.dueDate, now),
            PaymentTimestamp(firestoreInvoice.costAmountPaid, finalTotals.amountPaid, firestoreInvoice.lastPaymentAt, now))
    }

    /** `handleApplyChanges`: an empty invoice date makes `new Date("")` invalid,
        the write throws and nothing is stored; otherwise the three documents. */
    method ApplyChanges(now: Time) returns (r: Result<Applied, string>)
      ensures data.invoice.issueDate.None? ==> r == Failure("Failed to update invoice")
      ensures data.invoice.issueDate.Some? ==> r == Success(Updated(now))
    {
      if data.invoice.issueDate.None? {
        return Failure("Failed to update invoice");
      }
      var finalTotals := CalculateTotals(data.items, data.totals);
      var paid := ScalarNum(finalTotals.amountPaid);
      var total := Round2(finalTotals.grandTotal);
      var invoiceStatus := Unpaid;
      if paid > total && total > 0.0 {
        invoiceStatus := Overpaid;
      } else if paid == total && total > 0.0 {
        invoiceStatus := Paid;
      } else if paid > 0.0 && paid < total {
        invoiceStatus := Partial;
      }
      var dueDate := data.invoice.dueDate;
      if invoiceStatus != Paid && invoiceStatus != Overpaid && dueDate.Some? && now > dueDate.value {
        invoiceStatus := Overdue;
      }
      var prevPaid := ScalarOrZero(firestoreInvoice.costAmountPaid);
      var newPaid := ScalarOrZero(finalTotals.amountPaid);
      var paymentChanged := !(prevPaid.Some? && newPaid.Some? && prevPaid.value == newPaid.value);
      var paymentTimestamp := if paymentChanged then Some(now) else firestoreInvoice.lastPaymentAt;
      assert invoiceStatus == EditStatus(finalTotals, dueDate, now);
      assert paymentTimestamp == PaymentTimestamp(firestoreInvoice.costAmountPaid, finalTotals.amountPaid,
                                                  firestoreInvoice.lastPaymentAt, now);
      r := Success(Batch(invoiceStatus, paymentTimestamp));
    }
  }

  /** What a successful apply writes is what the consistent modal shows: the
      stored sums are the totals on screen, the stored balance due plus the
      amount paid is the grand total, and every stored item amount is its
      quantity times its rate. */
  lemma WrittenMatchesShown(form: EditForm, now: Time)
    requires form.Valid() && form.data.invoice.issueDate.Some?
    ensures var inv := form.Updated(now).invoice;
      && inv.costSubTotal == Some(form.data.totals.subTotal)
      && inv.costGrandTotal == Some(form.data.totals.grandTotal)
      && inv.costBalanceDue == Some(form.data.totals.balanceDue)
      && inv.costBalanceDue.value + ScalarNum(inv.costAmountPaid) == inv.costGrandTotal.value
      && |inv.items| == |form.data.items|
      && forall i :: 0 <= i < |inv.items| ==>
           inv.items[i].itemAmount == Some(ItemAmount(inv.items[i].itemQuantity, inv.items[i].itemRate))
  {
    var data := form.data;
    var inv := form.Updated(now).invoice;
    assert inv == form.Batch(EditStatus(CalculateTotals(data.items, data.totals), data.invoice.dueDate, now),
                             inv.lastPaymentAt).invoice;
    forall i | 0 <= i < |inv.items|
      ensures inv.items[i].itemAmount == Some(ItemAmount(inv.items[i].itemQuantity, inv.items[i].itemRate))
    {
      assert inv.items[i] == StoredItem(data.items[i]);
    }
  }
}
