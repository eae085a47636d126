/** The payment status both invoice flows write: an ordered classification of
    the amount paid against the total, then an overdue override. */
module PaymentStatus {
  import opened Wrappers
  import opened Records

  datatype Status = Overpaid | Paid | Partial | Unpaid | Overdue

  /** The text stored in the invoice's `status` field. */
  function Name(s: Status): (r: string)
    ensures r != []
  {
    match s
    case Overpaid => "Overpaid"
    case Paid => "Paid"
    case Partial => "Partial"
    case Unpaid => "Unpaid"
    case Overdue => "Overdue"
  }

  /** Different statuses are stored as different texts. */
  lemma NameInjective(a: Status, b: Status)
    requires Name(a) == Name(b)
    ensures a == b
  {
  }

  /** The if-chain before the overdue check: Overpaid, then Paid, then Partial,
      else Unpaid. */
  function BaseStatus(paid: real, total: real): (s: Status)
    ensures s == Overpaid <==> paid > total && total > 0.0
    ensures s == Paid <==> paid == total && total > 0.0
    ensures s == Partial <==> 0.0 < paid < total
    ensures s == Unpaid <==> total <= 0.0 || paid <= 0.0
    ensures s != Overdue
  {
    if paid > total && total > 0.0 then Overpaid
    else if paid == total && total > 0.0 then Paid
    else if paid > 0.0 && paid < total then Partial
    else Unpaid
  }

  /** The overdue check: a status other than Paid and Overpaid becomes Overdue
      once `now` is past the due date; without a due date nothing changes. */
  function ApplyOverdue(s: Status, due: Option<Time>, now: Time): (r: Status)
    ensures r == Overdue <==> s == Overdue || (s != Paid && s != Overpaid && due.Some? && now > due.value)
    ensures r != Overdue ==> r == s
  {
    if s != Paid && s != Overpaid && due.Some? && now > due.value then Overdue else s
  }

  /** A settled invoice is never overdue, whatever the dates. */
  lemma SettledNeverOverdue(paid: real, total: real, due: Option<Time>, now: Time)
    requires total > 0.0 && paid >= total
    ensures ApplyOverdue(BaseStatus(paid, total), due, now) in {Paid, Overpaid}
  {
  }
}
