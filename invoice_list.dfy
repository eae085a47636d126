/** The invoice table page: rows built from the invoices and customers, removal
    of a deleted invoice, the search box and the status tag colors. */
module InvoiceList {
  import opened Wrappers
  import opened Seqs
  import opened JsText
  import opened Records
  import opened PaymentStatus
  import opened EarningsTable

  /** A table row (`InvoiceData`). */
  datatype InvoiceRow = InvoiceRow(
    key: string,
    invoiceNumber: string,
    customerName: string,
    dueDate: Option<Time>,
    amount: real,
    amountDue: real,
    status: string)

  /** `customerMap[custID] || "Unknown Customer"`: a missing or empty name
      shows as "Unknown Customer". */
  function CustomerName(names: map<string, Option<string>>, custID: string): (r: string)
    ensures custID in names && names[custID].Some? && names[custID].value != "" ==> r == names[custID].value
    ensures custID !in names || names[custID].None? || names[custID].value == "" ==> r == "Unknown Customer"
    ensures r != ""
  {
    if custID in names && names[custID].Some? && names[custID].value != "" then names[custID].value
    else "Unknown Customer"
  }

  /** The row of one invoice document. */
  function RowOf(names: map<string, Option<string>>, d: Doc<Invoice>): (r: InvoiceRow)
    ensures r.key == d.id && r.invoiceNumber == d.data.invNumber
    ensures r.customerName == CustomerName(names, d.data.custID)
    ensures r.dueDate == d.data.payDue
    ensures d.data.costGrandTotal.Some? ==> r.amount == d.data.costGrandTotal.value
    ensures d.data.costGrandTotal.None? ==> r.amount == 0.0
    ensures d.data.costBalanceDue.Some? ==> r.amountDue == d.data.costBalanceDue.value
    ensures d.data.costBalanceDue.None? ==> r.amountDue == 0.0
    ensures d.data.status != "" ==> r.status == d.data.status
    ensures d.data.status == "" ==> r.status == "Unpaid"
  {
    InvoiceRow(d.id, d.data.invNumber, CustomerName(names, d.data.custID), d.data.payDue,
               d.data.costGrandTotal.GetOr(0.0), d.data.costBalanceDue.GetOr(0.0),
               if d.data.status == "" then "Unpaid" else d.data.status)
  }

  function Rows(names: map<string, Option<string>>, invoices: seq<Doc<Invoice>>): (r: seq<InvoiceRow>)
    ensures |r| == |invoices|
    ensures forall i :: 0 <= i < |invoices| ==> r[i] == RowOf(names, invoices[i])
  {
    seq(|invoices|, i requires 0 <= i < |invoices| => RowOf(names, invoices[i]))
  }

  /** `fetchInvoices`: the customer map filled by a loop, then one row per invoice. */
  method FetchInvoices(customers: seq<Doc<Customer>>, invoices: seq<Doc<Invoice>>) returns (list: seq<InvoiceRow>)
    ensures |list| == |invoices|
    ensures forall i :: 0 <= i < |invoices| ==> list[i] == RowOf(CustomerNames(customers), invoices[i])
  {
    var customerMap := BuildCustomerMap(customers);
    list := Rows(customerMap, invoices);
  }

  /** `prev.filter((invoice) => invoice.key !== invoiceId)` */
  function Delete(rows: seq<InvoiceRow>, invoiceId: string): (r: seq<InvoiceRow>)
    ensures forall i :: 0 <= i < |r| ==> r[i].key != invoiceId && r[i] in rows
    ensures forall i :: 0 <= i < |rows| && rows[i].key != invoiceId ==> rows[i] in r
  {
    Filter(rows, (row: InvoiceRow) => row.key != invoiceId)
  }

  /** The rows left keep their order. */
  lemma DeleteKeepsOrder(rows: seq<InvoiceRow>, invoiceId: string)
    ensures IsSubsequence(Delete(rows, invoiceId), rows)
  {
    FilterIsSubsequence(rows, (row: InvoiceRow) => row.key != invoiceId);
  }

  /** Deleting a key no row has changes nothing. */
  lemma DeleteAbsentKey(rows: seq<InvoiceRow>, invoiceId: string)
    requires forall i :: 0 <= i < |rows| ==> rows[i].key != invoiceId
    ensures Delete(rows, invoiceId) == rows
  {
    FilterKeepsAll(rows, (row: InvoiceRow) => row.key != invoiceId);
  }

  /** The invoice number or the customer name contains the query, ignoring case. */
  predicate Matches(row: InvoiceRow, query: string) {
    || Includes(ToLower(row.invoiceNumber), ToLower(query))
    || Includes(ToLower(row.customerName), ToLower(query))
  }

  /** `searchInvoice` */
  function Search(rows: seq<InvoiceRow>, query: string): (r: seq<InvoiceRow>)
    ensures forall i :: 0 <= i < |r| ==> r[i] in rows && Matches(r[i], query)
    ensures forall i :: 0 <= i < |rows| && Matches(rows[i], query) ==> rows[i] in r
  {
    Filter(rows, (row: InvoiceRow) => Matches(row, query))
  }

  /** An empty search box shows every row. */
  lemma EmptyQueryKeepsAll(rows: seq<InvoiceRow>)
    ensures Search(rows, "") == rows
  {
    forall i | 0 <= i < |rows|
      ensures Matches(rows[i], "")
    {
      assert ToLower("") == "";
      IncludesEmpty(ToLower(rows[i].invoiceNumber));
    }
    FilterKeepsAll(rows, (row: InvoiceRow) => Matches(row, ""));
  }

  /** The search keeps the rows' order, and searching its result again changes nothing. */
  lemma SearchOrderAndIdempotence(rows: seq<InvoiceRow>, query: string)
    ensures IsSubsequence(Search(rows, query), rows)
    ensures Search(Search(rows, query), query) == Search(rows, query)
  {
    FilterIsSubsequence(rows, (row: InvoiceRow) => Matches(row, query));
    FilterIdempotent(rows, (row: InvoiceRow) => Matches(row, query));
  }

  /** The color of a status tag. */
  function StatusColor(status: string): (color: string)
    ensures status == "Paid" ==> color == "#3FAA47"
    ensures status == "Unpaid" ==> color == "#9B9E9A"
    ensures status == "Partial" ==> color == "#378BD1"
    ensures status == "Overdue" ==> color == "#E84538"
    ensures status == "Overpaid" ==> color == "#E89A0F"
    ensures status !in {"Paid", "Unpaid", "Partial", "Overdue", "Overpaid"} ==> color == ""
  {
    if status == "Paid" then "#3FAA47"
    else if status == "Unpaid" then "#9B9E9A"
    else if status == "Partial" then "#378BD1"
    else if status == "Overdue" then "#E84538"
    else if status == "Overpaid" then "#E89A0F"
    else ""
  }

  /** Every status the invoice forms write has its own color. */
  lemma WrittenStatusesColored(a: Status, b: Status)
    ensures StatusColor(Name(a)) != ""
    ensures a != b ==> StatusColor(Name(a)) != StatusColor(Name(b))
  {
  }
}
