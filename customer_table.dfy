/** `getCustomerTable`: the customers collection as table rows, one row per
    e-mail address once trimmed and lower-cased, the first document winning. */
module CustomerTable {
  import opened Wrappers
  import opened Seqs
  import opened JsText
  import opened Records

  /** `{ id: doc.id, ...doc.data() }` */
  datatype CustomerRow = CustomerRow(
    id: string,
    custName: Option<string>,
    custEmail: Option<string>,
    custAddress: Option<string>,
    custNumber: Option<string>)

  function ToRow(d: Doc<Customer>): (r: CustomerRow)
    ensures r.id == d.id && r.custName == d.data.custName && r.custEmail == d.data.custEmail
    ensures r.custAddress == d.data.custAddress && r.custNumber == d.data.custNumber
  {
    CustomerRow(d.id, d.data.custName, d.data.custEmail, d.data.custAddress, d.data.custNumber)
  }

  /** `snapshot.docs.map(...)` */
  function Rows(docs: seq<Doc<Customer>>): (r: seq<CustomerRow>)
    ensures |r| == |docs|
    ensures forall i :: 0 <= i < |docs| ==> r[i] == ToRow(docs[i])
  {
    seq(|docs|, i requires 0 <= i < |docs| => ToRow(docs[i]))
  }

  predicate HasEmail(r: CustomerRow) {
    r.custEmail.Some?
  }

  predicate AllEmails(rows: seq<CustomerRow>) {
    forall i :: 0 <= i < |rows| ==> HasEmail(rows[i])
  }

  /** `customer.custEmail.trim().toLowerCase()`, or `None` where a missing
      e-mail makes `trim` throw. */
  function Key(r: CustomerRow): (k: Option<string>)
    ensures k.None? <==> !HasEmail(r)
  {
    match r.custEmail
    case Some(email) => Some(ToLower(Trim(email)))
    case None => None
  }

  function KeysOf<T, K>(s: seq<T>, key: T -> K): set<K> {
    set i | 0 <= i < |s| :: key(s[i])
  }

  lemma KeysOfAppend<T, K>(s: seq<T>, x: T, key: T -> K)
    ensures KeysOf(s + [x], key) == KeysOf(s, key) + {key(x)}
  {
    var a, b := KeysOf(s + [x], key), KeysOf(s, key) + {key(x)};
    forall k | k in a
      ensures k in b
    {
      var i :| 0 <= i < |s + [x]| && key((s + [x])[i]) == k;
      if i < |s| {
        assert (s + [x])[i] == s[i];
      }
    }
    forall k | k in b
      ensures k in a
    {
      if k == key(x) {
        assert (s + [x])[|s|] == x;
      } else {
        var i :| 0 <= i < |s| && key(s[i]) == k;
        assert (s + [x])[i] == s[i];
      }
    }
  }

  ghost predicate KeysDistinct<T, K>(s: seq<T>, key: T -> K) {
    forall i, j :: 0 <= i < j < |s| ==> key(s[i]) != key(s[j])
  }

  /** No element before position `i` has the key of `s[i]`. */
  ghost predicate IsFirst<T, K>(s: seq<T>, key: T -> K, i: int)
    requires 0 <= i < |s|
  {
    forall k :: 0 <= k < i ==> key(s[k]) != key(s[i])
  }

  /** The values of a `Map` filled in order, an element being added when its
      key is not yet there. */
  function Dedup<T, K(==)>(s: seq<T>, key: T -> K): (r: seq<T>)
    ensures |r| <= |s|
    ensures KeysDistinct(r, key)
  {
    if s == [] then []
    else
      var init := s[..|s| - 1];
      var last := s[|s| - 1];
      var kept := Dedup(init, key);
      if key(last) in KeysOf(kept, key) then kept
      else
        assert forall i :: 0 <= i < |kept| ==> key(kept[i]) in KeysOf(kept, key);
        kept + [last]
  }

  /** The table holds exactly the keys of its input. */
  lemma {:induction false} DedupKeys<T, K>(s: seq<T>, key: T -> K)
    ensures KeysOf(Dedup(s, key), key) == KeysOf(s, key)
  {
    if s != [] {
      var init := s[..|s| - 1];
      var last := s[|s| - 1];
      DedupKeys(init, key);
      assert s == init + [last];
      KeysOfAppend(init, last, key);
      KeysOfAppend(Dedup(init, key), last, key);
    }
  }

  /** One step of the loop that fills the `Map`: the element is skipped when
      its key is already held, else appended. */
  lemma DedupStep<T, K>(s: seq<T>, i: nat, key: T -> K, kept: seq<T>)
    requires i < |s| && kept == Dedup(s[..i], key)
    ensures Dedup(s[..i + 1], key) == if key(s[i]) in KeysOf(kept, key) then kept else kept + [s[i]]
  {
    assert s[..i + 1][..i] == s[..i];
  }

  /** The loop that fills the `Map`, with the `Map` held as its key set `seen`
      and its values in insertion order `values`. A key that cannot be computed
      stops the loop; the failure carries that element's position. */
  method FillMap<T, K(==)>(s: seq<T>, key: T -> Option<K>) returns (r: Result<seq<T>, nat>)
    ensures r.Success? <==> forall j :: 0 <= j < |s| ==> key(s[j]).Some?
    ensures r.Success? ==> r.value == Dedup(s, key)
    ensures r.Failure? ==> r.error < |s| && key(s[r.error]).None?
                           && forall j :: 0 <= j < r.error ==> key(s[j]).Some?
  {
    var seen: set<Option<K>> := {};
    var values: seq<T> := [];
    var i := 0;
    while i < |s|
      invariant 0 <= i <= |s|
      invariant forall j :: 0 <= j < i ==> key(s[j]).Some?
      invariant values == Dedup(s[..i], key)
      invariant seen == KeysOf(values, key)
    {
      var k := key(s[i]);
      if k.None? {
        return Failure(i);
      }
      DedupStep(s, i, key, values);
      if k !in seen {
        KeysOfAppend(values, s[i], key);
        seen := seen + {k};
        values := values + [s[i]];
      }
      i := i + 1;
    }
    assert s[..|s|] == s;
    return Success(values);
  }

  /** `getCustomerTable` over the `customers` collection. A document without an
      e-mail makes `trim` throw; the failure carries that document's id. */
  method GetCustomerTable(docs: seq<Doc<Customer>>) returns (r: Result<seq<CustomerRow>, string>)
    ensures r.Success? <==> AllEmails(Rows(docs))
    ensures r.Success? ==> r.value == Dedup(Rows(docs), Key)
    ensures r.Failure? ==> exists i :: 0 <= i < |docs| && docs[i].data.custEmail.None? && r.error == docs[i].id
                                       && AllEmails(Rows(docs)[..i])
  {
    var customers := Rows(docs);
    var filled := FillMap(customers, Key);
    match filled
    case Success(values) =>
      r := Success(values);
    case Failure(i) =>
      assert AllEmails(customers[..i]);
      r := Failure(customers[i].id);
  }

  /** Every key of the input has an element in the table. */
  lemma EveryKeyKept<T, K>(s: seq<T>, key: T -> K, i: int)
    requires 0 <= i < |s|
    ensures exists j :: 0 <= j < |Dedup(s, key)| && key(Dedup(s, key)[j]) == key(s[i])
  {
    DedupKeys(s, key);
    assert key(s[i]) in KeysOf(s, key);
    assert key(s[i]) in KeysOf(Dedup(s, key), key);
  }

  /** The first element with a key is the one kept. */
  lemma {:induction false} FirstIsKept<T, K>(s: seq<T>, key: T -> K, i: int)
    requires 0 <= i < |s| && IsFirst(s, key, i)
    ensures s[i] in Dedup(s, key)
  {
    var init := s[..|s| - 1];
    if i < |s| - 1 {
      FirstIsKept(init, key, i);
    } else {
      assert forall k :: 0 <= k < |init| ==> key(init[k]) != key(s[i]);
      assert key(s[i]) !in KeysOf(init, key);
      DedupKeys(init, key);
    }
  }

  /** Every element of the table is the first input element with its key. */
  lemma {:induction false} OnlyFirstsKept<T, K>(s: seq<T>, key: T -> K, j: int)
    requires 0 <= j < |Dedup(s, key)|
    ensures exists i :: 0 <= i < |s| && s[i] == Dedup(s, key)[j] && IsFirst(s, key, i)
  {
    var init := s[..|s| - 1];
    var kept := Dedup(init, key);
    if j < |kept| {
      OnlyFirstsKept(init, key, j);
      var i :| 0 <= i < |init| && init[i] == kept[j] && IsFirst(init, key, i);
      assert s[i] == Dedup(s, key)[j];
      assert IsFirst(s, key, i);
    } else {
      var n := |s| - 1;
      DedupKeys(init, key);
      assert key(s[n]) !in KeysOf(init, key);
      forall k | 0 <= k < n
        ensures key(s[k]) != key(s[n])
      {
        assert key(init[k]) in KeysOf(init, key);
      }
      assert IsFirst(s, key, n);
    }
  }

  /** The table keeps the input's order. */
  lemma {:induction false} DedupIsSubsequence<T, K>(s: seq<T>, key: T -> K)
    ensures IsSubsequence(Dedup(s, key), s)
  {
    if s != [] {
      var init := s[..|s| - 1];
      DedupIsSubsequence(init, key);
      var r := Dedup(s, key);
      if r != Dedup(init, key) {
        assert r[..|r| - 1] == Dedup(init, key);
      }
    }
  }

  /** Distinct keys lose nothing. */
  lemma {:induction false} DistinctLosesNothing<T, K>(s: seq<T>, key: T -> K)
    requires KeysDistinct(s, key)
    ensures Dedup(s, key) == s
  {
    if s != [] {
      var init := s[..|s| - 1];
      var n := |s| - 1;
      assert KeysDistinct(init, key) by {
        forall i, j | 0 <= i < j < |init|
          ensures key(init[i]) != key(init[j])
        {
          assert key(s[i]) != key(s[j]);
        }
      }
      DistinctLosesNothing(init, key);
      assert forall k :: 0 <= k < |init| ==> key(init[k]) != key(s[n]);
      assert key(s[n]) !in KeysOf(init, key);
      assert init + [s[n]] == s;
    }
  }

  /** A table as long as its input had distinct keys. */
  lemma {:induction false} NothingLostMeansDistinct<T, K>(s: seq<T>, key: T -> K)
    requires |Dedup(s, key)| == |s|
    ensures KeysDistinct(s, key)
  {
    if s != [] {
      var init := s[..|s| - 1];
      var n := |s| - 1;
      assert |Dedup(init, key)| == |init|;
      NothingLostMeansDistinct(init, key);
      DedupKeys(init, key);
      assert key(s[n]) !in KeysOf(init, key);
      forall i, j | 0 <= i < j < |s|
        ensures key(s[i]) != key(s[j])
      {
        if j < n {
          assert key(init[i]) != key(init[j]);
        } else {
          assert key(init[i]) in KeysOf(init, key);
        }
      }
    }
  }

  /** Nothing is dropped exactly when the keys are already distinct. */
  lemma NothingDroppedIffDistinct<T, K>(s: seq<T>, key: T -> K)
    ensures |Dedup(s, key)| == |s| <==> KeysDistinct(s, key)
  {
    if KeysDistinct(s, key) {
      DistinctLosesNothing(s, key);
    }
    if |Dedup(s, key)| == |s| {
      NothingLostMeansDistinct(s, key);
    }
  }

  /** Two elements with the same key collapse to the first. */
  lemma SameKeyKeepsFirst<T, K>(a: T, b: T, key: T -> K)
    requires key(a) == key(b)
    ensures Dedup([a, b], key) == [a]
  {
    assert [a, b][..1] == [a];
    assert [a][..0] == [];
    assert Dedup([a], key) == [a];
    assert [a][0] == a;
    assert key(a) in KeysOf([a], key);
  }

  /** White space around an e-mail and the case of its letters do not change
      its key, so "A@x.com" and "a@x.com " are one customer. */
  lemma KeyIgnoresPaddingAndCase(a: CustomerRow, b: CustomerRow, pa: string, ea: string, qa: string,
                                 pb: string, eb: string, qb: string)
    requires a.custEmail == Some(pa + ea + qa) && b.custEmail == Some(pb + eb + qb)
    requires IsBlank(pa) && IsBlank(qa) && IsBlank(pb) && IsBlank(qb)
    requires ea != [] && !IsSpace(ea[0]) && !IsSpace(ea[|ea| - 1])
    requires eb != [] && !IsSpace(eb[0]) && !IsSpace(eb[|eb| - 1])
    requires ToLower(ea) == ToLower(eb)
    ensures Key(a) == Key(b)
  {
    TrimPadded(pa, ea, qa);
    TrimPadded(pb, eb, qb);
  }
}
