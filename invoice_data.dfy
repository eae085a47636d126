/** `getInvoiceEditData` and `getInvoiceViewData`: one invoice with its customer
    and user, read from the store and shaped for the edit form and for the
    read-only view. */
module InvoiceData {
  import opened Wrappers
  import opened Seqs
  import opened JsNumber
  import opened Records
  import EditInvoice

  /** The three collections, each by document id. */
  datatype Store = Store(
    invoices: map<string, Invoice>,
    customers: map<string, Customer>,
    users: map<string, User>)

  /** `Number(x) || 0` of a stored number: a missing, null or `NaN` value reads 0. */
  function OrZero(x: Option<real>): (r: real)
    ensures x.Some? ==> r == x.value
    ensures x.None? ==> r == 0.0
  {
    x.GetOr(0.0)
  }

  /** The three reads and their not-found errors, in the order they are made:
      the invoice, its customer (by `custID`), its user (by `userID`). */
  function Load(store: Store, invoiceId: string): (r: Result<(Invoice, Customer, User), string>)
    ensures invoiceId !in store.invoices ==> r == Failure("Invoice not found")
    ensures invoiceId in store.invoices && store.invoices[invoiceId].custID !in store.customers
            ==> r == Failure("Customer not found")
    ensures (&& invoiceId in store.invoices && store.invoices[invoiceId].custID in store.customers
             && store.invoices[invoiceId].userID !in store.users) ==> r == Failure("User not found")
    ensures r.Success? ==> && invoiceId in store.invoices
                           && r.value.0 == store.invoices[invoiceId]
                           && r.value.0.custID in store.customers
                           && r.value.1 == store.customers[r.value.0.custID]
                           && r.value.0.userID in store.users
                           && r.value.2 == store.users[r.value.0.userID]
  {
    if invoiceId !in store.invoices then Failure("Invoice not found")
    else
      var invoice := store.invoices[invoiceId];
      if invoice.custID !in store.customers then Failure("Customer not found")
      else if invoice.userID !in store.users then Failure("User not found")
      else Success((invoice, store.customers[invoice.custID], store.users[invoice.userID]))
  }

  /** `toDateInput`: the `yyyy-mm-dd` of a timestamp, "" (`None`) for none. */
  function ToDateInput(ts: Option<Time>): (d: Option<Time>)
    ensures d.None? <==> ts.None?
    ensures ts.Some? ==> d.value <= ts.value < d.value + DayMs && d.value % DayMs == 0
  {
    match ts
    case Some(t) => Some(DayStart(t))
    case None => None
  }

  /** An item for the edit form: quantity and rate as stored, amount recomputed. */
  function EditItemOf(item: InvoiceItem): (e: EditItem)
    ensures e.description == item.itemDescription
    ensures e.quantity == item.itemQuantity && e.rate == item.itemRate
    ensures e.amount == EditInvoice.ItemAmount(e.quantity, e.rate)
  {
    EditItem(item.itemDescription, item.itemQuantity, item.itemRate,
             EditInvoice.ItemAmount(item.itemQuantity, item.itemRate))
  }

  function EditItems(items: seq<InvoiceItem>): (r: seq<EditItem>)
    ensures |r| == |items|
    ensures forall i :: 0 <= i < |items| ==> r[i] == EditItemOf(items[i])
  {
    seq(|items|, i requires 0 <= i < |items| => EditItemOf(items[i]))
  }

  /** `getInvoiceEditData`: the edit model and, beside it, the stored invoice
      exactly as read. */
  function GetInvoiceEditData(store: Store, invoiceId: string): (r: Result<(EditData, Invoice), string>)
    ensures Load(store, invoiceId).Failure? ==> r == Failure(Load(store, invoiceId).error)
    ensures Load(store, invoiceId).Success? ==> r.Success? && r.value.1 == store.invoices[invoiceId]
    ensures r.Success? ==>
      var (data, inv) := r.value;
      var customer := store.customers[inv.custID];
      && data.invoice.id == invoiceId && data.invoice.number == inv.invNumber
      && data.invoice.issueDate == ToDateInput(Some(inv.invDate))
      && data.invoice.dueDate == ToDateInput(inv.payDue)
      && data.invoice.status == inv.status
      && data.customer.id == inv.custID && data.user.id == inv.userID
      && data.customer.name == customer.custName.GetOr("")
      && data.customer.email == customer.custEmail.GetOr("")
      && data.customer.phone == customer.custNumber.GetOr("")
      && data.customer.address == customer.custAddress.GetOr("")
      && data.items == EditItems(inv.items)
      && data.totals.subTotal == OrZero(inv.costSubTotal)
      && data.totals.grandTotal == OrZero(inv.costGrandTotal)
      && data.totals.balanceDue == OrZero(inv.costBalanceDue)
      && data.totals.discount == inv.costDiscount && data.totals.tax == inv.costTax
      && data.totals.shipping == inv.costShipping && data.totals.amountPaid == inv.costAmountPaid
  {
    match Load(store, invoiceId)
    case Failure(e) => Failure(e)
    case Success((invoice, customer, user)) =>
      var data := EditData(
        EditHeader(invoiceId, invoice.invNumber, invoice.invPO, ToDateInput(Some(invoice.invDate)),
                   ToDateInput(invoice.payDue), invoice.payTerms, invoice.status, invoice.notes),
        EditParty(invoice.custID, customer.custName.GetOr(""), customer.custEmail.GetOr(""),
                  customer.custNumber.GetOr(""), customer.custAddress.GetOr("")),
        EditParty(invoice.userID, user.userName, user.userEmail, user.userPhone, user.userAddress),
        EditItems(invoice.items),
        EditTotals(OrZero(invoice.costSubTotal), invoice.costDiscount, invoice.costTax, invoice.costShipping,
                   OrZero(invoice.costGrandTotal), invoice.costAmountPaid, OrZero(invoice.costBalanceDue)));
      Success((data, invoice))
  }

  /** The loaded items already carry their current amounts, so the edit form
      opens in a consistent state. */
  lemma EditItemsCurrent(items: seq<InvoiceItem>)
    ensures EditInvoice.AmountsCurrent(EditItems(items))
  {
    var r := EditItems(items);
    forall i | 0 <= i < |r|
      ensures r[i].amount == EditInvoice.ItemAmount(r[i].quantity, r[i].rate)
    {
      assert r[i] == EditItemOf(items[i]);
    }
  }

  /** An item for the view: quantity and rate coerced, amount recomputed. */
  function ViewItemOf(item: InvoiceItem): (v: ViewItem)
    ensures v.description == item.itemDescription
    ensures v.quantity == Num(item.itemQuantity) && v.rate == Num(item.itemRate)
    ensures v.amount == EditInvoice.ItemAmount(item.itemQuantity, item.itemRate)
  {
    ViewItem(item.itemDescription, Num(item.itemQuantity), Num(item.itemRate),
             EditInvoice.ItemAmount(item.itemQuantity, item.itemRate))
  }

  function ViewItems(items: seq<InvoiceItem>): (r: seq<ViewItem>)
    ensures |r| == |items|
    ensures forall i :: 0 <= i < |items| ==> r[i] == ViewItemOf(items[i])
  {
    seq(|items|, i requires 0 <= i < |items| => ViewItemOf(items[i]))
  }

  /** `getInvoiceViewData`: every total coerced to a number. */
  function GetInvoiceViewData(store: Store, invoiceId: string): (r: Result<ViewData, string>)
    ensures Load(store, invoiceId).Failure? ==> r == Failure(Load(store, invoiceId).error)
    ensures Load(store, invoiceId).Success? ==> r.Success?
    ensures r.Success? ==>
      var inv := store.invoices[invoiceId];
      var customer := store.customers[inv.custID];
      && r.value.invoice.id == invoiceId && r.value.invoice.number == inv.invNumber
      && r.value.invoice.issueDate == inv.invDate
      && r.value.invoice.dueDate == inv.payDue
      && r.value.invoice.status == inv.status
      && r.value.customer == ViewCustomer(customer.custName, customer.custEmail,
                                          customer.custNumber, customer.custAddress)
      && r.value.items == ViewItems(inv.items)
      && r.value.totals == ViewTotals(OrZero(inv.costSubTotal), ScalarNum(inv.costDiscount),
                                      ScalarNum(inv.costTax), ScalarNum(inv.costShipping),
                                      OrZero(inv.costGrandTotal), ScalarNum(inv.costAmountPaid),
                                      OrZero(inv.costBalanceDue))
  {
    match Load(store, invoiceId)
    case Failure(e) => Failure(e)
    case Success((invoice, customer, user)) =>
      Success(ViewData(
        ViewHeader(invoiceId, invoice.invNumber, invoice.invPO, invoice.invDate, invoice.payDue,
                   invoice.payTerms, invoice.status, invoice.notes),
        ViewUser(user.userName, user.userEmail, user.userPhone, user.userAddress),
        ViewCustomer(customer.custName, customer.custEmail, customer.custNumber, customer.custAddress),
        ViewItems(invoice.items),
        ViewTotals(OrZero(invoice.costSubTotal), ScalarNum(invoice.costDiscount), ScalarNum(invoice.costTax),
                   ScalarNum(invoice.costShipping), OrZero(invoice.costGrandTotal),
                   ScalarNum(invoice.costAmountPaid), OrZero(invoice.costBalanceDue))))
  }

  /** The edit model and the view model of one invoice agree: they fail
      together and with the same error, show the same items and amounts, the
      same stored sums, the same adjustments once coerced, and a due date on
      both or on neither. */
  lemma EditAndViewAgree(store: Store, invoiceId: string)
    ensures GetInvoiceEditData(store, invoiceId).Success? <==> GetInvoiceViewData(store, invoiceId).Success?
    ensures GetInvoiceEditData(store, invoiceId).Failure? ==>
            GetInvoiceEditData(store, invoiceId).error == GetInvoiceViewData(store, invoiceId).error
    ensures GetInvoiceEditData(store, invoiceId).Success? ==>
      var edit := GetInvoiceEditData(store, invoiceId).value.0;
      var view := GetInvoiceViewData(store, invoiceId).value;
      && |edit.items| == |view.items|
      && (forall i :: 0 <= i < |edit.items| ==>
            edit.items[i].description == view.items[i].description
            && edit.items[i].amount == view.items[i].amount)
      && edit.totals.subTotal == view.totals.subTotal
      && edit.totals.grandTotal == view.totals.grandTotal
      && edit.totals.balanceDue == view.totals.balanceDue
      && ScalarNum(edit.totals.discount) == view.totals.discount
      && ScalarNum(edit.totals.tax) == view.totals.tax
      && ScalarNum(edit.totals.shipping) == view.totals.shipping
      && ScalarNum(edit.totals.amountPaid) == view.totals.amountPaid
      && (edit.invoice.dueDate.None? <==> view.invoice.dueDate.None?)
  {
    if GetInvoiceEditData(store, invoiceId).Success? {
      var inv := store.invoices[invoiceId];
      var edit := GetInvoiceEditData(store, invoiceId).value.0;
      var view := GetInvoiceViewData(store, invoiceId).value;
      forall i | 0 <= i < |edit.items|
        ensures edit.items[i].amount == view.items[i].amount
      {
        assert edit.items[i] == EditItemOf(inv.items[i]);
        assert view.items[i] == ViewItemOf(inv.items[i]);
      }
    }
  }
}
