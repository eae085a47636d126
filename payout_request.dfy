/** The payout request form: the amount, e-mail and method the user enters,
    the checks that gate a request, and the reset after one is made. */
module PayoutRequest {
  import opened Wrappers
  import opened JsNumber
  import opened Records
  import opened TotalIncome
  import opened TotalWithdraw
  import opened Dashboard

  /** The initial and reset value of the method field. */
  const Unchosen: string := "Select payment"

  /** The value the validity check compares the method against. */
  const UnchosenChecked: string := "Select payment method"

  /** What `createPayout` is given; it adds `createAt` itself. */
  datatype PayoutDraft = PayoutDraft(payoutMethod: string, email: string, amount: real)

  /** The `payouts` document `createPayout` writes for a draft at `now`. */
  function Written(draft: PayoutDraft, now: Time): (p: Payout)
    ensures p.amount == draft.amount && p.payoutMethod == draft.payoutMethod
    ensures p.email == draft.email && p.createAt == now
  {
    Payout(draft.amount, draft.payoutMethod, draft.email, now)
  }

  class PayoutForm {
    var amount: string
    var email: string
    var payoutMethod: string  // `method`

    constructor ()
      ensures amount == "" && email == "" && payoutMethod == Unchosen
    {
      amount := "";
      email := "";
      payoutMethod := Unchosen;
    }

    /** `Number(amount) || 0` */
    function NumericAmount(): (r: real)
      reads this
      ensures ToNumber(amount).Some? && ToNumber(amount).value != 0.0 ==> r == ToNumber(amount).value
      ensures ToNumber(amount).None? || ToNumber(amount).value == 0.0 ==> r == 0.0
    {
      Num(amount)
    }

    /** `balance - numericAmount`: the balance shown as if the request went through. */
    function PreviewBalance(balance: real): (r: real)
      reads this
      ensures r + NumericAmount() == balance
      ensures r < 0.0 <==> NumericAmount() > balance
    {
      balance - NumericAmount()
    }

    /** The amount is not above zero, exceeds the balance, the e-mail is empty,
        or the method equals "Select payment method". */
    predicate IsInvalid(balance: real)
      reads this
    {
      || NumericAmount() <= 0.0
      || NumericAmount() > balance
      || email == ""
      || payoutMethod == UnchosenChecked
    }

    /** `handleSubmit`: an invalid form does nothing. Otherwise the draft is
        handed to `createPayout`; `written` says whether that call returned, and
        only then is the form reset. */
    method HandleSubmit(balance: real, written: bool) returns (request: Option<PayoutDraft>)
      modifies this
      ensures old(IsInvalid(balance)) ==> request.None? && unchanged(this)
      ensures !old(IsInvalid(balance)) ==>
        request == Some(PayoutDraft(old(payoutMethod), old(email), old(NumericAmount())))
      ensures !old(IsInvalid(balance)) && written ==> amount == "" && email == "" && payoutMethod == Unchosen
      ensures !written ==> unchanged(this)
      ensures request.Some? ==> 0.0 < request.value.amount <= balance && request.value.email != ""
    {
      if IsInvalid(balance) {
        return None;
      }
      request := Some(PayoutDraft(payoutMethod, email, NumericAmount()));
      if written {
        amount := "";
        email := "";
        payoutMethod := Unchosen;
      }
    }
  }

  /** A valid form asks for a positive amount no larger than the balance. */
  lemma ValidRequestWithinBalance(form: PayoutForm, balance: real)
    requires !form.IsInvalid(balance)
    ensures 0.0 < form.NumericAmount() <= balance
    ensures balance > 0.0 && form.PreviewBalance(balance) >= 0.0
  {
  }

  /** An empty amount reads as 0, so a freshly opened or reset form is invalid. */
  lemma EmptyAmountInvalid(form: PayoutForm, balance: real)
    requires form.amount == ""
    ensures form.NumericAmount() == 0.0
    ensures form.IsInvalid(balance)
  {
    ToNumberOfEmpty();
  }

  /** The method check compares against a text the field never holds until a
      method is picked: with the method left unchosen, a positive amount within
      the balance and an e-mail are enough. */
  lemma UnchosenMethodPasses(form: PayoutForm, balance: real)
    requires form.payoutMethod == Unchosen
    requires 0.0 < form.NumericAmount() <= balance && form.email != ""
    ensures !form.IsInvalid(balance)
  {
    assert |Unchosen| != |UnchosenChecked|;
  }

  /** A request made on the earnings page, whose balance is income less
      withdrawals, never takes the balance below zero once its payout is stored. */
  lemma RequestKeepsBalanceNonNegative(form: PayoutForm, invoices: seq<Doc<Invoice>>,
                                       payouts: seq<Doc<Payout>>, id: string, now: Time)
    requires !form.IsInvalid(TotalBalance(IncomeSum(invoices), WithdrawSum(payouts)))
    ensures var draft := PayoutDraft(form.payoutMethod, form.email, form.NumericAmount());
      TotalBalance(IncomeSum(invoices), WithdrawSum(payouts + [Doc(id, Written(draft, now))])) >= 0.0
  {
    var draft := PayoutDraft(form.payoutMethod, form.email, form.NumericAmount());
    WithdrawAppend(payouts, Doc(id, Written(draft, now)));
  }
}
