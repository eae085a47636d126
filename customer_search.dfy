/** The customers page search: a blank query shows the whole table, any other
    query keeps the rows one of whose fields contains it, ignoring case. */
module CustomerSearch {
  import opened Seqs
  import opened JsText
  import opened CustomerTable

  /** `String(field).toLowerCase().includes(keyword)` for the name, e-mail,
      address and number; a missing field reads "undefined". */
  predicate Matches(c: CustomerRow, keyword: string) {
    || Includes(ToLower(FieldText(c.custName)), keyword)
    || Includes(ToLower(FieldText(c.custEmail)), keyword)
    || Includes(ToLower(FieldText(c.custAddress)), keyword)
    || Includes(ToLower(FieldText(c.custNumber)), keyword)
  }

  /** `searchCustomers`: the keyword is the query lower-cased but not trimmed. */
  function SearchCustomers(table: seq<CustomerRow>, query: string): (r: seq<CustomerRow>)
    ensures IsBlank(query) ==> r == table
    ensures !IsBlank(query) ==> forall i :: 0 <= i < |r| ==> r[i] in table && Matches(r[i], ToLower(query))
    ensures !IsBlank(query) ==> forall i :: 0 <= i < |table| && Matches(table[i], ToLower(query)) ==> table[i] in r
  {
    TrimEmptyIffBlank(query);
    if Trim(query) == "" then table
    else Filter(table, (c: CustomerRow) => Matches(c, ToLower(query)))
  }

  /** The result keeps the table's order, and searching it again with the same
      query changes nothing. */
  lemma SearchOrderAndIdempotence(table: seq<CustomerRow>, query: string)
    ensures IsSubsequence(SearchCustomers(table, query), table)
    ensures SearchCustomers(SearchCustomers(table, query), query) == SearchCustomers(table, query)
  {
    TrimEmptyIffBlank(query);
    if IsBlank(query) {
      SubsequenceOfItself(table);
    } else {
      FilterIsSubsequence(table, (c: CustomerRow) => Matches(c, ToLower(query)));
      FilterIdempotent(table, (c: CustomerRow) => Matches(c, ToLower(query)));
    }
  }

  lemma {:induction false} SubsequenceOfItself<T>(s: seq<T>)
    ensures IsSubsequence(s, s)
  {
    if s != [] {
      SubsequenceOfItself(s[..|s| - 1]);
    }
  }

  /** A customer without a name is found by searching "undefined". */
  lemma MissingFieldReadsUndefined(c: CustomerRow)
    requires c.custName.None?
    ensures Matches(c, "undefined")
  {
    assert ToLower("undefined") == "undefined";
    assert OccursAt("undefined", "undefined", 0);
  }
}
