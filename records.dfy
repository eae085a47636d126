/** The stored documents (`invoices`, `customers`, `users`, `payouts`) and the
    edit and view models built from them, as declared in src/types. */
module Records {
  import opened Wrappers
  import opened JsNumber

  /** An instant, in milliseconds since the epoch (a Firestore `Timestamp`). */
  type Time = int

  const DayMs: int := 86400000

  /** The instant a `yyyy-mm-dd` date input denotes for the day holding `t`:
      midnight UTC, as `new Date(t.toISOString().split("T")[0])` gives it. */
  function DayStart(t: Time): (d: Time)
    ensures d <= t < d + DayMs
    ensures d % DayMs == 0
  {
    t - t % DayMs
  }

  /** A document read from a collection: its generated id and its data. */
  datatype Doc<T> = Doc(id: string, data: T)

  datatype InvoiceItem = InvoiceItem(
    itemDescription: string,
    itemQuantity: string,
    itemRate: string,
    itemAmount: Option<real>)

  /** The `items` array both invoice forms write: one stored item per table
      line, in the table's order, `store` giving the stored form of a line. */
  function StoreItems<T>(lines: seq<T>, store: T -> InvoiceItem): (items: seq<InvoiceItem>)
    ensures |items| == |lines|
    ensures forall i :: 0 <= i < |lines| ==> items[i] == store(lines[i])
  {
    seq(|lines|, i requires 0 <= i < |lines| => store(lines[i]))
  }

  /** An `invoices` document. Numeric fields are `None` when absent, null or `NaN`. */
  datatype Invoice = Invoice(
    invNumber: string,
    invPO: string,
    invDate: Time,
    payDue: Option<Time>,
    payTerms: string,
    status: string,
    notes: string,
    items: seq<InvoiceItem>,
    costSubTotal: Option<real>,
    costDiscount: Scalar,
    costTax: Scalar,
    costShipping: Scalar,
    costGrandTotal: Option<real>,
    costAmountPaid: Scalar,
    costBalanceDue: Option<real>,
    custID: string,
    userID: string,
    lastPaymentAt: Option<Time>)

  /** A `customers` document. A field is `None` when the document lacks it. */
  datatype Customer = Customer(
    custName: Option<string>,
    custEmail: Option<string>,
    custAddress: Option<string>,
    custNumber: Option<string>)

  /** A `users` document: the biller. */
  datatype User = User(
    userName: string,
    userEmail: string,
    userPhone: string,
    userAddress: string)

  /** A `payouts` document: a withdrawal. */
  datatype Payout = Payout(
    amount: real,
    payoutMethod: string,  // `method`
    email: string,
    createAt: Time)

  /** An item as the edit form holds it: quantity and rate as typed, amount computed. */
  datatype EditItem = EditItem(
    description: string,
    quantity: string,
    rate: string,
    amount: real)

  /** The totals as the edit form holds them: adjustments as typed, sums computed. */
  datatype EditTotals = EditTotals(
    subTotal: real,
    discount: Scalar,
    tax: Scalar,
    shipping: Scalar,
    grandTotal: real,
    amountPaid: Scalar,
    balanceDue: real)

  /** The invoice header of the edit form; a date is `None` for an empty date input. */
  datatype EditHeader = EditHeader(
    id: string,
    number: string,
    poNumber: string,
    issueDate: Option<Time>,
    dueDate: Option<Time>,
    paymentTerms: string,
    status: string,
    notes: string)

  datatype EditParty = EditParty(
    id: string,
    name: string,
    email: string,
    phone: string,
    address: string)

  /** `InvoiceEditData` */
  datatype EditData = EditData(
    invoice: EditHeader,
    customer: EditParty,
    user: EditParty,
    items: seq<EditItem>,
    totals: EditTotals)

  datatype ViewHeader = ViewHeader(
    id: string,
    number: string,
    poNumber: string,
    issueDate: Time,
    dueDate: Option<Time>,
    paymentTerms: string,
    status: string,
    notes: string)

  datatype ViewUser = ViewUser(
    name: string,
    email: string,
    phone: string,
    address: string)

  datatype ViewCustomer = ViewCustomer(
    name: Option<string>,
    email: Option<string>,
    phone: Option<string>,
    address: Option<string>)

  datatype ViewItem = ViewItem(
    description: string,
    quantity: real,
    rate: real,
    amount: real)

  datatype ViewTotals = ViewTotals(
    subTotal: real,
    discount: real,
    tax: real,
    shipping: real,
    grandTotal: real,
    amountPaid: real,
    balanceDue: real)

  /** `InvoiceViewData` */
  datatype ViewData = ViewData(
    invoice: ViewHeader,
    user: ViewUser,
    customer: ViewCustomer,
    items: seq<ViewItem>,
    totals: ViewTotals)

  /** One line of the earnings feed: an invoice payment (positive) or a payout (negative). */
  datatype EarningsEntry = EarningsEntry(
    id: string,
    description: string,
    date: Time,
    amount: real)
}
