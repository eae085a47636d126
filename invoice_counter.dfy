/** `getInvoiceCounter`: how many invoices there are, and how many carry each of
    the statuses paid, unpaid, overdue and partial, ignoring case. */
module InvoiceCounter {
  import opened Seqs
  import opened JsText
  import opened Records

  /** `String(data.status || "").toLowerCase()`; a missing status is stored as "". */
  function StatusKey(inv: Invoice): (k: string)
    ensures |k| == |inv.status|
  {
    ToLower(inv.status)
  }

  predicate IsPaid(d: Doc<Invoice>) { StatusKey(d.data) == "paid" }
  predicate IsUnpaid(d: Doc<Invoice>) { StatusKey(d.data) == "unpaid" }
  predicate IsOverdue(d: Doc<Invoice>) { StatusKey(d.data) == "overdue" }
  predicate IsPartial(d: Doc<Invoice>) { StatusKey(d.data) == "partial" }

  /** The `counter` object the loop fills in. */
  class Counter {
    var total: nat
    var paid: nat
    var unpaid: nat
    var overdue: nat
    var partial: nat

    /** `{ total: snapshot.size, paid: 0, unpaid: 0, overdue: 0, partial: 0 }` */
    constructor (size: nat)
      ensures total == size && paid == 0 && unpaid == 0 && overdue == 0 && partial == 0
    {
      total := size;
      paid := 0;
      unpaid := 0;
      overdue := 0;
      partial := 0;
    }
  }

  /** `getInvoiceCounter` over the `invoices` collection: `total` is the number
      of documents and each bucket the number whose status names it. */
  method GetInvoiceCounter(invoices: seq<Doc<Invoice>>) returns (counter: Counter)
    ensures fresh(counter)
    ensures counter.total == |invoices|
    ensures counter.paid == CountWhere(invoices, IsPaid)
    ensures counter.unpaid == CountWhere(invoices, IsUnpaid)
    ensures counter.overdue == CountWhere(invoices, IsOverdue)
    ensures counter.partial == CountWhere(invoices, IsPartial)
  {
    counter := new Counter(|invoices|);
    var i := 0;
    while i < |invoices|
      invariant 0 <= i <= |invoices|
      invariant counter.total == |invoices|
      invariant counter.paid == CountWhere(invoices[..i], IsPaid)
      invariant counter.unpaid == CountWhere(invoices[..i], IsUnpaid)
      invariant counter.overdue == CountWhere(invoices[..i], IsOverdue)
      invariant counter.partial == CountWhere(invoices[..i], IsPartial)
    {
      assert invoices[..i + 1][..i] == invoices[..i];
      var status := StatusKey(invoices[i].data);
      if status == "paid" {
        counter.paid := counter.paid + 1;
      } else if status == "unpaid" {
        counter.unpaid := counter.unpaid + 1;
      } else if status == "overdue" {
        counter.overdue := counter.overdue + 1;
      } else if status == "partial" {
        counter.partial := counter.partial + 1;
      }
      i := i + 1;
    }
    assert invoices[..|invoices|] == invoices;
  }

  /** Each invoice lands in at most one bucket, so the buckets never add up to
      more than the total. */
  lemma {:induction false} BucketsWithinTotal(invoices: seq<Doc<Invoice>>)
    ensures CountWhere(invoices, IsPaid) + CountWhere(invoices, IsUnpaid)
            + CountWhere(invoices, IsOverdue) + CountWhere(invoices, IsPartial) <= |invoices|
  {
    if invoices != [] {
      BucketsWithinTotal(invoices[..|invoices| - 1]);
    }
  }

  /** Statuses that differ only in case land in the same bucket. */
  lemma CaseIgnored(a: Doc<Invoice>, b: Doc<Invoice>)
    requires ToLower(a.data.status) == ToLower(b.data.status)
    ensures IsPaid(a) == IsPaid(b) && IsUnpaid(a) == IsUnpaid(b)
    ensures IsOverdue(a) == IsOverdue(b) && IsPartial(a) == IsPartial(b)
  {
  }

  /** "Paid" and "PAID" count as paid; "Overpaid" and a missing status count in no bucket. */
  lemma BucketExamples(d: Doc<Invoice>)
    ensures d.data.status == "Paid" ==> IsPaid(d)
    ensures d.data.status == "PAID" ==> IsPaid(d)
    ensures d.data.status in {"Overpaid", ""} ==> !IsPaid(d) && !IsUnpaid(d) && !IsOverdue(d) && !IsPartial(d)
  {
  }
}
