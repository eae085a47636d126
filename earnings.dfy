/** `getTotalIncome`: the sum of the positive amounts paid on invoices. */
module TotalIncome {
  import opened Wrappers
  import opened Seqs
  import opened JsNumber
  import opened Records

  /** `Number(costAmountPaid)` is a number above 0. */
  predicate IsIncome(inv: Invoice) {
    ScalarNumber(inv.costAmountPaid).Some? && ScalarNumber(inv.costAmountPaid).value > 0.0
  }

  /** What one invoice adds to the total income. */
  function IncomeOf(d: Doc<Invoice>): (r: real)
    ensures r >= 0.0
    ensures r > 0.0 <==> IsIncome(d.data)
    ensures IsIncome(d.data) ==> r == ScalarNumber(d.data.costAmountPaid).value
  {
    var paid := ScalarNumber(d.data.costAmountPaid);
    if paid.Some? && paid.value > 0.0 then paid.value else 0.0
  }

  ghost function IncomeSum(invoices: seq<Doc<Invoice>>): real {
    SumOf(invoices, IncomeOf)
  }

  /** `getTotalIncome` over the `invoices` collection. */
  method GetTotalIncome(invoices: seq<Doc<Invoice>>) returns (totalIncome: real)
    ensures totalIncome == IncomeSum(invoices)
    ensures totalIncome >= 0.0
  {
    totalIncome := 0.0;
    var i := 0;
    while i < |invoices|
      invariant 0 <= i <= |invoices|
      invariant totalIncome == SumOf(invoices[..i], IncomeOf)
    {
      var paid := ScalarNumber(invoices[i].data.costAmountPaid);
      SumOfPrefixStep(invoices, i, IncomeOf);
      if paid.Some? && paid.value > 0.0 {
        totalIncome := totalIncome + paid.value;
      }
      i := i + 1;
    }
    assert invoices[..|invoices|] == invoices;
    IncomeSumNonNegative(invoices);
  }

  lemma IncomeSumNonNegative(invoices: seq<Doc<Invoice>>)
    ensures IncomeSum(invoices) >= 0.0
  {
    SumOfNonNegative(invoices, IncomeOf);
  }

  /** The total does not depend on the order the documents arrive in. */
  lemma IncomeOrderFree(a: seq<Doc<Invoice>>, b: seq<Doc<Invoice>>)
    requires multiset(a) == multiset(b)
    ensures IncomeSum(a) == IncomeSum(b)
  {
    SumOfPermutation(a, b, IncomeOf);
  }

  /** Invoices paid nothing, a negative amount or text that is no number add nothing. */
  lemma UnpaidAddNothing(invoices: seq<Doc<Invoice>>, d: Doc<Invoice>)
    requires !IsIncome(d.data)
    ensures IncomeSum(invoices + [d]) == IncomeSum(invoices)
  {
    SumOfAppend(invoices, [d], IncomeOf);
    SumOfSingleton(d, IncomeOf);
  }
}

/** `getTotalWithdraw`: the sum of the positive payout amounts. */
module TotalWithdraw {
  import opened Seqs
  import opened Records

  /** What one payout adds to the total withdrawn. */
  function WithdrawnOf(d: Doc<Payout>): (r: real)
    ensures r >= 0.0
    ensures d.data.amount > 0.0 ==> r == d.data.amount
    ensures d.data.amount <= 0.0 ==> r == 0.0
  {
    if d.data.amount > 0.0 then d.data.amount else 0.0
  }

  ghost function WithdrawSum(payouts: seq<Doc<Payout>>): real {
    SumOf(payouts, WithdrawnOf)
  }

  /** `getTotalWithdraw` over the `payouts` collection. */
  method GetTotalWithdraw(payouts: seq<Doc<Payout>>) returns (totalWithdraw: real)
    ensures totalWithdraw == WithdrawSum(payouts)
    ensures totalWithdraw >= 0.0
  {
    totalWithdraw := 0.0;
    var i := 0;
    while i < |payouts|
      invariant 0 <= i <= |payouts|
      invariant totalWithdraw == SumOf(payouts[..i], WithdrawnOf)
    {
      var amount := payouts[i].data.amount;
      SumOfPrefixStep(payouts, i, WithdrawnOf);
      if amount > 0.0 {
        totalWithdraw := totalWithdraw + amount;
      }
      i := i + 1;
    }
    assert payouts[..|payouts|] == payouts;
    SumOfNonNegative(payouts, WithdrawnOf);
  }

  /** A new payout of a positive amount raises the total by exactly that amount;
      any other payout leaves it as it is. */
  lemma WithdrawAppend(payouts: seq<Doc<Payout>>, d: Doc<Payout>)
    ensures d.data.amount > 0.0 ==> WithdrawSum(payouts + [d]) == WithdrawSum(payouts) + d.data.amount
    ensures d.data.amount <= 0.0 ==> WithdrawSum(payouts + [d]) == WithdrawSum(payouts)
  {
    SumOfAppend(payouts, [d], WithdrawnOf);
    SumOfSingleton(d, WithdrawnOf);
  }

  /** The total does not depend on the order the documents arrive in. */
  lemma WithdrawOrderFree(a: seq<Doc<Payout>>, b: seq<Doc<Payout>>)
    requires multiset(a) == multiset(b)
    ensures WithdrawSum(a) == WithdrawSum(b)
  {
    SumOfPermutation(a, b, WithdrawnOf);
  }
}

/** `getEarningsTableData`: one positive entry per paid invoice, one negative
    entry per payout, newest first. */
module EarningsTable {
  import opened Wrappers
  import opened Seqs
  import opened JsNumber
  import opened Records
  import opened TotalIncome
  import opened TotalWithdraw
  import StandardInvoice

  /** `customerMap`: customer id to `custName`; a later document with the same
      id overwrites an earlier one. */
  function CustomerNames(customers: seq<Doc<Customer>>): map<string, Option<string>> {
    if customers == [] then map[]
    else
      var last := customers[|customers| - 1];
      CustomerNames(customers[..|customers| - 1])[last.id := last.data.custName]
  }

  /** The map holds exactly the ids of the customers, each with the name of the
      last document carrying it. */
  lemma {:induction false} CustomerNamesLookup(customers: seq<Doc<Customer>>, k: nat)
    requires k < |customers|
    requires forall j :: k < j < |customers| ==> customers[j].id != customers[k].id
    ensures customers[k].id in CustomerNames(customers)
    ensures CustomerNames(customers)[customers[k].id] == customers[k].data.custName
  {
    if k < |customers| - 1 {
      CustomerNamesLookup(customers[..|customers| - 1], k);
    }
  }

  lemma {:induction false} CustomerNamesKeys(customers: seq<Doc<Customer>>, id: string)
    ensures id in CustomerNames(customers) <==> exists i :: 0 <= i < |customers| && customers[i].id == id
  {
    if customers != [] {
      var init := customers[..|customers| - 1];
      CustomerNamesKeys(init, id);
      if exists i :: 0 <= i < |init| && init[i].id == id {
        var i :| 0 <= i < |init| && init[i].id == id;
        assert customers[i].id == id;
      }
    }
  }

  /** The loop that fills `customerMap`. */
  method BuildCustomerMap(customers: seq<Doc<Customer>>) returns (customerMap: map<string, Option<string>>)
    ensures customerMap == CustomerNames(customers)
  {
    customerMap := map[];
    var i := 0;
    while i < |customers|
      invariant 0 <= i <= |customers|
      invariant customerMap == CustomerNames(customers[..i])
    {
      assert customers[..i + 1][..i] == customers[..i];
      customerMap := customerMap[customers[i].id := customers[i].data.custName];
      i := i + 1;
    }
    assert customers[..|customers|] == customers;
  }

  /** `customerMap[custID] ?? "Unknown Customer"` */
  function CustomerLabel(names: map<string, Option<string>>, custID: string): (r: string)
    ensures custID in names && names[custID].Some? ==> r == names[custID].value
    ensures custID !in names || names[custID].None? ==> r == "Unknown Customer"
  {
    if custID in names && names[custID].Some? then names[custID].value else "Unknown Customer"
  }

  /** The date an invoice's payment is listed under: `lastPaymentAt`, else `invDate`. */
  function PaymentDate(inv: Invoice): (t: Time)
    ensures inv.lastPaymentAt.Some? ==> t == inv.lastPaymentAt.value
    ensures inv.lastPaymentAt.None? ==> t == inv.invDate
  {
    inv.lastPaymentAt.GetOr(inv.invDate)
  }

  /** The entry of a paid invoice. */
  function IncomeEntry(names: map<string, Option<string>>, d: Doc<Invoice>): (e: EarningsEntry)
    requires IsIncome(d.data)
    ensures e.id == d.id && e.date == PaymentDate(d.data)
    ensures e.description == CustomerLabel(names, d.data.custID) + " — " + d.data.invNumber
    ensures e.amount == IncomeOf(d) && e.amount > 0.0
  {
    EarningsEntry(d.id, CustomerLabel(names, d.data.custID) + " — " + d.data.invNumber,
                  PaymentDate(d.data), ScalarNumber(d.data.costAmountPaid).value)
  }

  /** The entry of a payout: its method, its time and its amount negated. */
  function PayoutEntry(d: Doc<Payout>): (e: EarningsEntry)
    ensures e.id == d.id && e.description == d.data.payoutMethod && e.date == d.data.createAt
    ensures e.amount == -d.data.amount
  {
    EarningsEntry(d.id, d.data.payoutMethod, d.data.createAt, -d.data.amount)
  }

  function IncomeEntries(names: map<string, Option<string>>, invoices: seq<Doc<Invoice>>): seq<EarningsEntry> {
    if invoices == [] then []
    else
      var last := invoices[|invoices| - 1];
      IncomeEntries(names, invoices[..|invoices| - 1]) + (if IsIncome(last.data) then [IncomeEntry(names, last)] else [])
  }

  function PayoutEntries(payouts: seq<Doc<Payout>>): seq<EarningsEntry> {
    if payouts == [] then []
    else PayoutEntries(payouts[..|payouts| - 1]) + [PayoutEntry(payouts[|payouts| - 1])]
  }

  /** One more invoice of a left-to-right pass. */
  lemma IncomeEntriesStep(names: map<string, Option<string>>, invoices: seq<Doc<Invoice>>, i: nat)
    requires i < |invoices|
    ensures IncomeEntries(names, invoices[..i + 1]) == IncomeEntries(names, invoices[..i])
      + (if IsIncome(invoices[i].data) then [IncomeEntry(names, invoices[i])] else [])
  {
    assert invoices[..i + 1][..i] == invoices[..i];
  }

  /** One more payout of a left-to-right pass. */
  lemma PayoutEntriesStep(payouts: seq<Doc<Payout>>, j: nat)
    requires j < |payouts|
    ensures PayoutEntries(payouts[..j + 1]) == PayoutEntries(payouts[..j]) + [PayoutEntry(payouts[j])]
  {
    assert payouts[..j + 1][..j] == payouts[..j];
  }

  /** The entries in the order they are pushed, before sorting. */
  function Entries(names: map<string, Option<string>>, invoices: seq<Doc<Invoice>>, payouts: seq<Doc<Payout>>): seq<EarningsEntry> {
    IncomeEntries(names, invoices) + PayoutEntries(payouts)
  }

  /** Ordered by date, newest first. */
  predicate NewestFirst(s: seq<EarningsEntry>) {
    forall i, j :: 0 <= i < j < |s| ==> s[i].date >= s[j].date
  }

  /** `e` placed after every entry at least as new: the step of a stable sort. */
  function Insert(s: seq<EarningsEntry>, e: EarningsEntry): (r: seq<EarningsEntry>)
    ensures |r| == |s| + 1
    ensures multiset(r) == multiset(s) + multiset{e}
  {
    if s == [] then [e]
    else if s[0].date < e.date then [e] + s
    else
      assert s == [s[0]] + s[1..];
      [s[0]] + Insert(s[1..], e)
  }

  /** Inserting into a feed that is newest first keeps it newest first. */
  lemma {:induction false} InsertKeepsOrder(s: seq<EarningsEntry>, e: EarningsEntry)
    requires NewestFirst(s)
    ensures NewestFirst(Insert(s, e))
  {
    if s != [] && s[0].date >= e.date {
      var rest := Insert(s[1..], e);
      InsertKeepsOrder(s[1..], e);
      forall k | 0 <= k < |rest|
        ensures s[0].date >= rest[k].date
      {
        assert rest[k] in multiset(s[1..]) + multiset{e};
        if rest[k] != e {
          assert rest[k] in s[1..];
        }
      }
      assert Insert(s, e) == [s[0]] + rest;
    }
  }

  /** `results.sort((a, b) => b.date - a.date)`: a stable sort, newest first. */
  function SortNewestFirst(s: seq<EarningsEntry>): (r: seq<EarningsEntry>)
    ensures |r| == |s|
    ensures multiset(r) == multiset(s)
    ensures NewestFirst(r)
  {
    if s == [] then []
    else
      assert s == s[..|s| - 1] + [s[|s| - 1]];
      InsertKeepsOrder(SortNewestFirst(s[..|s| - 1]), s[|s| - 1]);
      Insert(SortNewestFirst(s[..|s| - 1]), s[|s| - 1])
  }

  /** An entry no newer than all others goes last. */
  lemma {:induction false} InsertOldest(s: seq<EarningsEntry>, e: EarningsEntry)
    requires forall i :: 0 <= i < |s| ==> s[i].date >= e.date
    ensures Insert(s, e) == s + [e]
  {
    if s != [] {
      InsertOldest(s[1..], e);
      assert s == [s[0]] + s[1..];
    }
  }

  /** Sorting what is already newest first changes nothing: the sort is stable. */
  lemma {:induction false} SortSortedIsIdentity(s: seq<EarningsEntry>)
    requires NewestFirst(s)
    ensures SortNewestFirst(s) == s
  {
    if s != [] {
      var init := s[..|s| - 1];
      SortSortedIsIdentity(init);
      InsertOldest(init, s[|s| - 1]);
      assert init + [s[|s| - 1]] == s;
    }
  }

  /** The first `forEach` of `getEarningsTableData`: an entry pushed for each
      invoice whose amount paid is a number above 0. */
  method PushIncomeEntries(customerMap: map<string, Option<string>>, invoices: seq<Doc<Invoice>>)
    returns (results: seq<EarningsEntry>)
    ensures results == IncomeEntries(customerMap, invoices)
  {
    results := [];
    var i := 0;
    while i < |invoices|
      invariant 0 <= i <= |invoices|
      invariant results == IncomeEntries(customerMap, invoices[..i])
    {
      IncomeEntriesStep(customerMap, invoices, i);
      var data := invoices[i].data;
      var paidAmount := ScalarNumber(data.costAmountPaid);
      if paidAmount.Some? && paidAmount.value > 0.0 {
        var customerName := CustomerLabel(customerMap, data.custID);
        var entry := EarningsEntry(invoices[i].id, customerName + " — " + data.invNumber,
                                   PaymentDate(data), paidAmount.value);
        assert entry == IncomeEntry(customerMap, invoices[i]);
        results := results + [entry];
      }
      i := i + 1;
    }
    assert invoices[..|invoices|] == invoices;
  }

  /** The second `forEach`: an entry pushed for every payout. */
  method PushPayoutEntries(results0: seq<EarningsEntry>, payouts: seq<Doc<Payout>>)
    returns (results: seq<EarningsEntry>)
    ensures results == results0 + PayoutEntries(payouts)
  {
    results := results0;
    var j := 0;
    while j < |payouts|
      invariant 0 <= j <= |payouts|
      invariant results == results0 + PayoutEntries(payouts[..j])
    {
      PayoutEntriesStep(payouts, j);
      var data := payouts[j].data;
      var entry := EarningsEntry(payouts[j].id, data.payoutMethod, data.createAt, -data.amount);
      assert entry == PayoutEntry(payouts[j]);
      results := results + [entry];
      j := j + 1;
    }
    assert payouts[..|payouts|] == payouts;
  }

  /** `getEarningsTableData` over the three collections. */
  method GetEarningsTableData(customers: seq<Doc<Customer>>, invoices: seq<Doc<Invoice>>, payouts: seq<Doc<Payout>>)
    returns (results: seq<EarningsEntry>)
    ensures results == SortNewestFirst(Entries(CustomerNames(customers), invoices, payouts))
  {
    var customerMap := BuildCustomerMap(customers);
    results := PushIncomeEntries(customerMap, invoices);
    results := PushPayoutEntries(results, payouts);
    results := SortNewestFirst(results);
  }

  /** One entry per paid invoice. */
  lemma {:induction false} IncomeEntriesLength(names: map<string, Option<string>>, invoices: seq<Doc<Invoice>>)
    ensures |IncomeEntries(names, invoices)| == CountWhere(invoices, (d: Doc<Invoice>) => IsIncome(d.data))
  {
    if invoices != [] {
      IncomeEntriesLength(names, invoices[..|invoices| - 1]);
    }
  }

  lemma {:induction false} PayoutEntriesLength(payouts: seq<Doc<Payout>>)
    ensures |PayoutEntries(payouts)| == |payouts|
  {
    if payouts != [] {
      PayoutEntriesLength(payouts[..|payouts| - 1]);
    }
  }

  function EntryAmount(e: EarningsEntry): real {
    e.amount
  }

  function PayoutAmount(d: Doc<Payout>): real {
    d.data.amount
  }

  lemma {:induction false} IncomeEntriesSum(names: map<string, Option<string>>, invoices: seq<Doc<Invoice>>)
    ensures SumOf(IncomeEntries(names, invoices), EntryAmount) == IncomeSum(invoices)
  {
    if invoices != [] {
      var init := invoices[..|invoices| - 1];
      var last := invoices[|invoices| - 1];
      var prev := IncomeEntries(names, init);
      IncomeEntriesSum(names, init);
      assert IncomeSum(invoices) == IncomeSum(init) + IncomeOf(last);
      if IsIncome(last.data) {
        assert IncomeEntries(names, invoices) == prev + [IncomeEntry(names, last)];
        SumOfAppend(prev, [IncomeEntry(names, last)], EntryAmount);
        SumOfSingleton(IncomeEntry(names, last), EntryAmount);
      } else {
        assert prev + [] == prev;
        assert IncomeEntries(names, invoices) == prev;
      }
    }
  }

  lemma {:induction false} PayoutEntriesSum(payouts: seq<Doc<Payout>>)
    ensures SumOf(PayoutEntries(payouts), EntryAmount) == -SumOf(payouts, PayoutAmount)
  {
    if payouts != [] {
      var init := payouts[..|payouts| - 1];
      PayoutEntriesSum(init);
      SumOfAppend(PayoutEntries(init), [PayoutEntry(payouts[|payouts| - 1])], EntryAmount);
      SumOfSingleton(PayoutEntry(payouts[|payouts| - 1]), EntryAmount);
    }
  }

  /** The feed has one entry per paid invoice and one per payout, newest first,
      and its amounts add up to the income less everything paid out. */
  lemma FeedFacts(customers: seq<Doc<Customer>>, invoices: seq<Doc<Invoice>>, payouts: seq<Doc<Payout>>)
    ensures var feed := SortNewestFirst(Entries(CustomerNames(customers), invoices, payouts));
      && |feed| == CountWhere(invoices, (d: Doc<Invoice>) => IsIncome(d.data)) + |payouts|
      && NewestFirst(feed)
      && SumOf(feed, EntryAmount) == IncomeSum(invoices) - SumOf(payouts, PayoutAmount)
  {
    var names := CustomerNames(customers);
    var entries := Entries(names, invoices, payouts);
    IncomeEntriesLength(names, invoices);
    PayoutEntriesLength(payouts);
    IncomeEntriesSum(names, invoices);
    PayoutEntriesSum(payouts);
    SumOfAppend(IncomeEntries(names, invoices), PayoutEntries(payouts), EntryAmount);
    SumOfPermutation(SortNewestFirst(entries), entries, EntryAmount);
  }

  /** The part of an entry that is money in. */
  function MoneyIn(e: EarningsEntry): real {
    if e.amount > 0.0 then e.amount else 0.0
  }

  lemma {:induction false} IncomeEntriesMoneyIn(names: map<string, Option<string>>, invoices: seq<Doc<Invoice>>)
    ensures SumOf(IncomeEntries(names, invoices), MoneyIn) == IncomeSum(invoices)
  {
    if invoices != [] {
      var init := invoices[..|invoices| - 1];
      var last := invoices[|invoices| - 1];
      var prev := IncomeEntries(names, init);
      IncomeEntriesMoneyIn(names, init);
      assert IncomeSum(invoices) == IncomeSum(init) + IncomeOf(last);
      if IsIncome(last.data) {
        assert IncomeEntries(names, invoices) == prev + [IncomeEntry(names, last)];
        SumOfAppend(prev, [IncomeEntry(names, last)], MoneyIn);
        SumOfSingleton(IncomeEntry(names, last), MoneyIn);
      } else {
        assert prev + [] == prev;
        assert IncomeEntries(names, invoices) == prev;
      }
    }
  }

  lemma {:induction false} PayoutEntriesMoneyIn(payouts: seq<Doc<Payout>>)
    requires forall i :: 0 <= i < |payouts| ==> payouts[i].data.amount >= 0.0
    ensures SumOf(PayoutEntries(payouts), MoneyIn) == 0.0
  {
    if payouts != [] {
      var init := payouts[..|payouts| - 1];
      PayoutEntriesMoneyIn(init);
      SumOfAppend(PayoutEntries(init), [PayoutEntry(payouts[|payouts| - 1])], MoneyIn);
      SumOfSingleton(PayoutEntry(payouts[|payouts| - 1]), MoneyIn);
    }
  }

  /** With no negative payout, the total income is the money coming in on the feed. */
  lemma IncomeIsFeedMoneyIn(customers: seq<Doc<Customer>>, invoices: seq<Doc<Invoice>>, payouts: seq<Doc<Payout>>)
    requires forall i :: 0 <= i < |payouts| ==> payouts[i].data.amount >= 0.0
    ensures SumOf(SortNewestFirst(Entries(CustomerNames(customers), invoices, payouts)), MoneyIn) == IncomeSum(invoices)
  {
    var names := CustomerNames(customers);
    var entries := Entries(names, invoices, payouts);
    IncomeEntriesMoneyIn(names, invoices);
    PayoutEntriesMoneyIn(payouts);
    SumOfAppend(IncomeEntries(names, invoices), PayoutEntries(payouts), MoneyIn);
    SumOfPermutation(SortNewestFirst(entries), entries, MoneyIn);
  }

  /** With no negative payout, what was paid out per the feed is the total withdrawn. */
  lemma {:induction false} WithdrawIsPayoutTotal(payouts: seq<Doc<Payout>>)
    requires forall i :: 0 <= i < |payouts| ==> payouts[i].data.amount >= 0.0
    ensures WithdrawSum(payouts) == SumOf(payouts, PayoutAmount)
  {
    if payouts != [] {
      WithdrawIsPayoutTotal(payouts[..|payouts| - 1]);
    }
  }

  /** The invoice the create page writes carries its payment time under
      `lastPayment`, so the feed lists a payment made on creation under the
      invoice date, not under the time it was made. */
  lemma CreatedPaymentListedUnderInvoiceDate(form: StandardInvoice.InvoiceForm, names: map<string, Option<string>>,
                                             id: string, customerId: string, userId: string, now: Time)
    requires IsIncome(form.Created(customerId, userId, now))
    ensures var inv := form.Created(customerId, userId, now);
      && StandardInvoice.LastPayment(form.amountPaid, now) == Some(now)
      && IncomeEntry(names, Doc(id, inv)).date == inv.invDate
      && (form.invoiceDate.Some? && form.invoiceDate.value != now ==> IncomeEntry(names, Doc(id, inv)).date != now)
  {
  }
}

/** The dashboard and earnings pages: the balance, the recent flow and how a
    signed amount is shown. */
module Dashboard {
  import opened Seqs
  import opened Records
  import opened TotalIncome
  import opened TotalWithdraw
  import opened EarningsTable

  /** `totalBalance`: income less withdrawals. */
  function TotalBalance(totalIncome: real, totalWithdraw: real): real {
    totalIncome - totalWithdraw
  }

  /** With no negative payout the balance is the sum of the feed's amounts. */
  lemma BalanceIsFeedSum(customers: seq<Doc<Customer>>, invoices: seq<Doc<Invoice>>, payouts: seq<Doc<Payout>>)
    requires forall i :: 0 <= i < |payouts| ==> payouts[i].data.amount >= 0.0
    ensures TotalBalance(IncomeSum(invoices), WithdrawSum(payouts))
            == SumOf(SortNewestFirst(Entries(CustomerNames(customers), invoices, payouts)), EntryAmount)
  {
    FeedFacts(customers, invoices, payouts);
    WithdrawIsPayoutTotal(payouts);
  }

  function Min(a: int, b: int): int {
    if a < b then a else b
  }

  /** `loadRecentFlow`: a sorted copy of the feed cut to its first ten entries. */
  function RecentFlow(data: seq<EarningsEntry>): (r: seq<EarningsEntry>)
    ensures |r| == Min(10, |data|)
    ensures NewestFirst(r)
    ensures multiset(r) <= multiset(data)
  {
    var sorted := SortNewestFirst(data);
    PrefixWithin(sorted, Min(10, |data|));
    sorted[..Min(10, |data|)]
  }

  lemma PrefixWithin(s: seq<EarningsEntry>, n: nat)
    requires n <= |s|
    ensures multiset(s[..n]) <= multiset(s)
  {
    assert s == s[..n] + s[n..];
  }

  /** The feed arrives sorted already, so the recent flow is simply its first ten entries. */
  lemma RecentFlowOfFeed(customers: seq<Doc<Customer>>, invoices: seq<Doc<Invoice>>, payouts: seq<Doc<Payout>>)
    ensures var feed := SortNewestFirst(Entries(CustomerNames(customers), invoices, payouts));
      RecentFlow(feed) == feed[..Min(10, |feed|)]
  {
    var feed := SortNewestFirst(Entries(CustomerNames(customers), invoices, payouts));
    SortSortedIsIdentity(feed);
  }

  /** `isPositive ? "+" : "-"` */
  function SignPrefix(amount: real): (r: string)
    ensures r == "+" <==> amount > 0.0
    ensures r == "-" <==> amount <= 0.0
  {
    if amount > 0.0 then "+" else "-"
  }

  /** `Math.abs(amount)` */
  function Magnitude(amount: real): (r: real)
    ensures r >= 0.0
    ensures r == amount || r == -amount
  {
    if amount < 0.0 then -amount else amount
  }

  /** Sign and magnitude together give the amount back. */
  lemma ShownAmountRoundTrip(amount: real)
    ensures (if SignPrefix(amount) == "+" then Magnitude(amount) else -Magnitude(amount)) == amount
  {
  }
}
