/**
 The paginated payment list: pages partition the sorted store, whatever order the map hands the
 payments over in.
 */
module PaymentList {
  import opened PaymentStore
  import opened RustInt
  import opened Text
  import opened Timestamps

  datatype Order = Asc | Desc

  datatype ListParams = ListParams(page: i64, perPage: i64, order: Order)

  // ----- the sort key -----

  /** Creation date first, payment id as the tiebreaker. */
  predicate KeyLess(a: Payment, b: Payment) {
    Less(a.creationDate, b.creationDate)
    || (a.creationDate == b.creationDate && Less(a.paymentId, b.paymentId))
  }

  lemma KeyLessIsStrictOrder(a: Payment, b: Payment, c: Payment)
    ensures !(KeyLess(a, b) && KeyLess(b, a))
    ensures KeyLess(a, b) && KeyLess(b, c) ==> KeyLess(a, c)
    ensures KeyLess(a, b) || KeyLess(b, a) || (a.creationDate == b.creationDate && a.paymentId == b.paymentId)
  {
    LessIsStrict(a.creationDate, b.creationDate);
    LessIsStrict(a.paymentId, b.paymentId);
    LessIsTotal(a.creationDate, b.creationDate);
    LessIsTotal(a.paymentId, b.paymentId);
    if KeyLess(a, b) && KeyLess(b, c) {
      if Less(a.creationDate, b.creationDate) && Less(b.creationDate, c.creationDate) {
        LessIsTransitive(a.creationDate, b.creationDate, c.creationDate);
      } else if a.creationDate == b.creationDate == c.creationDate {
        LessIsTransitive(a.paymentId, b.paymentId, c.paymentId);
      }
    }
  }

  predicate IsSorted(s: seq<Payment>) {
    forall i, j :: 0 <= i < j < |s| ==> KeyLess(s[i], s[j])
  }

  predicate DistinctIds(s: seq<Payment>) {
    forall i, j :: 0 <= i < j < |s| ==> s[i].paymentId != s[j].paymentId
  }

  // ----- sorting -----

  /** Stable insertion: past every payment whose key is not greater. */
  function InsertByKey(p: Payment, s: seq<Payment>): seq<Payment> {
    if s == [] then [p]
    else if KeyLess(p, s[0]) then [p] + s
    else [s[0]] + InsertByKey(p, s[1..])
  }

  /** `sort_by` on the sort key. */
  function SortByKey(s: seq<Payment>): seq<Payment> {
    if s == [] then [] else InsertByKey(s[|s| - 1], SortByKey(s[..|s| - 1]))
  }

  lemma {:induction false} InsertKeepsElements(p: Payment, s: seq<Payment>)
    ensures multiset(InsertByKey(p, s)) == multiset(s) + multiset{p}
  {
    if s != [] && !KeyLess(p, s[0]) {
      InsertKeepsElements(p, s[1..]);
      assert s == [s[0]] + s[1..];
    }
  }

  lemma {:induction false} InsertKeepsSorted(p: Payment, s: seq<Payment>)
    requires IsSorted(s) && forall q :: q in s ==> q.paymentId != p.paymentId
    ensures IsSorted(InsertByKey(p, s))
  {
    hide KeyLess;
    if s != [] {
      var r := InsertByKey(p, s);
      if KeyLess(p, s[0]) {
        forall j | 0 <= j < |s| ensures KeyLess(p, s[j]) {
          KeyLessIsStrictOrder(p, s[0], s[j]);
        }
      } else {
        InsertKeepsSorted(p, s[1..]);
        InsertKeepsElements(p, s[1..]);
        KeyLessIsStrictOrder(p, s[0], p);
        forall j | 0 < j < |r| ensures KeyLess(s[0], r[j]) {
          assert r[j] in multiset(InsertByKey(p, s[1..]));
          assert r[j] == p || r[j] in s[1..];
        }
      }
    }
  }

  /** Sorting yields a sorted rearrangement. */
  lemma {:induction false} SortSorts(s: seq<Payment>)
    requires DistinctIds(s)
    ensures IsSorted(SortByKey(s)) && multiset(SortByKey(s)) == multiset(s)
  {
    hide KeyLess, InsertByKey;
    if s != [] {
      var prefix, p := s[..|s| - 1], s[|s| - 1];
      SortSorts(prefix);
      LastIdIsNew(s, SortByKey(prefix));
      InsertKeepsSorted(p, SortByKey(prefix));
      InsertKeepsElements(p, SortByKey(prefix));
      assert s == prefix + [p];
    }
  }

  lemma LastIdIsNew(s: seq<Payment>, others: seq<Payment>)
    requires s != [] && DistinctIds(s) && multiset(others) == multiset(s[..|s| - 1])
    ensures forall q :: q in others ==> q.paymentId != s[|s| - 1].paymentId
  {
    forall q | q in others ensures q.paymentId != s[|s| - 1].paymentId {
      assert q in multiset(others);
      assert q in s[..|s| - 1];
    }
  }

  /** A sorted rearrangement is unique, so it does not depend on the sorting algorithm or the input order. */
  lemma {:induction false} SortedIsUnique(a: seq<Payment>, b: seq<Payment>)
    requires IsSorted(a) && IsSorted(b) && multiset(a) == multiset(b)
    ensures a == b
  {
    hide KeyLess;
    assert |a| == |multiset(a)| == |multiset(b)| == |b|;
    if a != [] {
      SameFirst(a, b);
      assert a == [a[0]] + a[1..] && b == [b[0]] + b[1..];
      assert multiset(a[1..]) == multiset(a) - multiset{a[0]};
      assert multiset(b[1..]) == multiset(b) - multiset{b[0]};
      RestIsSorted(a);
      RestIsSorted(b);
      SortedIsUnique(a[1..], b[1..]);
    }
  }

  lemma RestIsSorted(s: seq<Payment>)
    requires s != [] && IsSorted(s)
    ensures IsSorted(s[1..])
  {
    hide KeyLess;
  }

  lemma SameFirst(a: seq<Payment>, b: seq<Payment>)
    requires a != [] && b != [] && IsSorted(a) && IsSorted(b) && multiset(a) == multiset(b)
    ensures a[0] == b[0]
  {
    hide KeyLess;
    assert a[0] in multiset(b) && b[0] in multiset(a);
    FirstIsLeast(a, b[0]);
    FirstIsLeast(b, a[0]);
    KeyLessIsStrictOrder(a[0], b[0], a[0]);
  }

  lemma FirstIsLeast(s: seq<Payment>, p: Payment)
    requires IsSorted(s) && p in s
    ensures p == s[0] || KeyLess(s[0], p)
  {
  }

  lemma RearrangedIdsStayDistinct(s: seq<Payment>, t: seq<Payment>)
    requires DistinctIds(s) && multiset(s) == multiset(t)
    ensures DistinctIds(t)
  {
    forall i, j | 0 <= i < j < |t| ensures t[i].paymentId != t[j].paymentId {
      if t[i] == t[j] {
        assert t == t[..i] + [t[i]] + t[i + 1..];
        assert t[i + 1..][j - i - 1] == t[j];
        assert t[j] in multiset(t[i + 1..]);
        assert multiset(t)[t[i]] >= 2;
        OccursOnce(s, t[i]);
      } else {
        assert t[i] in multiset(s) && t[j] in multiset(s);
      }
    }
  }

  lemma {:induction false} OccursOnce(s: seq<Payment>, p: Payment)
    requires DistinctIds(s)
    ensures multiset(s)[p] <= 1
  {
    if s != [] {
      assert s == [s[0]] + s[1..];
      OccursOnce(s[1..], p);
      forall k | 0 <= k < |s[1..]| ensures s[1..][k] != s[0] {
        assert s[1..][k] == s[k + 1];
      }
    }
  }

  // ----- pages -----

  function Reverse(s: seq<Payment>): (r: seq<Payment>)
    ensures |r| == |s| && forall i :: 0 <= i < |s| ==> r[i] == s[|s| - 1 - i]
  {
    if s == [] then [] else Reverse(s[1..]) + [s[0]]
  }

  function Ordered(payments: seq<Payment>, order: Order): seq<Payment> {
    if order == Desc then Reverse(SortByKey(payments)) else SortByKey(payments)
  }

  function Min(a: int, b: int): int {
    if a <= b then a else b
  }

  /** The `page`-th window of `perPage` items in unbounded arithmetic. */
  function Window(s: seq<Payment>, page: int, perPage: int): seq<Payment>
    requires page >= 1 && perPage >= 1
  {
    var start := Min((page - 1) * perPage, |s|);
    s[start..Min(start + perPage, |s|)]
  }

  function SaturatingMul(a: i64, b: i64): i64 {
    var exact := a as int * b as int;
    if exact > I64_MAX then I64_MAX as i64 else if exact < I64_MIN then I64_MIN as i64 else exact as i64
  }

  function SaturatingAdd(a: i64, b: i64): i64 {
    var exact := a as int + b as int;
    if exact > I64_MAX then I64_MAX as i64 else if exact < I64_MIN then I64_MIN as i64 else exact as i64
  }

  function Min64(a: i64, b: i64): i64 {
    if a <= b then a else b
  }

  /**
   The list the server answers with. Saturation never shows: the machine-integer window is the
   unbounded one for every page and page size.
   */
  method ApplyListParams(payments: seq<Payment>, params: ListParams) returns (page: seq<Payment>)
    requires params.page >= 1 && params.perPage >= 1
    requires |payments| <= I64_MAX
    ensures page == Window(Ordered(payments, params.order), params.page as int, params.perPage as int)
  {
    var sorted := SortByKey(payments);
    if params.order == Desc {
      sorted := Reverse(sorted);
    }
    SortLength(payments);
    var len := |sorted| as i64;
    var start := Min64(SaturatingMul(params.page - 1, params.perPage), len);
    var end := Min64(SaturatingAdd(start, params.perPage), len);
    MulNonNegative(params.page as int - 1, params.perPage as int);
    page := sorted[start as int..end as int];
  }

  lemma MulNonNegative(a: int, b: int)
    requires a >= 0 && b >= 0
    ensures a * b >= 0
  {
  }

  lemma {:induction false} SortLength(s: seq<Payment>)
    ensures |SortByKey(s)| == |s|
  {
    if s != [] {
      SortLength(s[..|s| - 1]);
      InsertKeepsElements(s[|s| - 1], SortByKey(s[..|s| - 1]));
      assert |multiset(SortByKey(s))| == |SortByKey(s[..|s| - 1])| + 1;
    }
  }

  /** Any two orders of the same payments give the same list, hence the same pages. */
  lemma ListIgnoresMapOrder(s: seq<Payment>, t: seq<Payment>, order: Order)
    requires DistinctIds(s) && multiset(s) == multiset(t)
    ensures Ordered(s, order) == Ordered(t, order)
  {
    RearrangedIdsStayDistinct(s, t);
    SortSorts(s);
    SortSorts(t);
    SortedIsUnique(SortByKey(s), SortByKey(t));
  }

  function FirstPages(s: seq<Payment>, count: nat, perPage: int): seq<Payment>
    requires perPage >= 1
  {
    if count == 0 then [] else FirstPages(s, count - 1, perPage) + Window(s, count, perPage)
  }

  lemma {:induction false} PagesAreConsecutive(s: seq<Payment>, count: nat, perPage: int)
    requires perPage >= 1
    ensures FirstPages(s, count, perPage) == s[..Min(count * perPage, |s|)]
  {
    MulNonNegative(count, perPage);
    if count > 0 {
      PagesAreConsecutive(s, count - 1, perPage);
      assert count * perPage == (count - 1) * perPage + perPage;
      MulNonNegative(count - 1, perPage);
    }
  }

  /**
   The pages 1, 2, 3, ... laid end to end are the whole store in order: every payment appears on
   exactly one page, pages past the end are empty, and `desc` reads `asc` backwards.
   */
  lemma PagesPartitionTheStore(payments: seq<Payment>, order: Order, count: nat, perPage: int)
    requires DistinctIds(payments) && perPage >= 1 && count * perPage >= |payments|
    ensures FirstPages(Ordered(payments, order), count, perPage) == Ordered(payments, order)
    ensures multiset(FirstPages(Ordered(payments, order), count, perPage)) == multiset(payments)
    ensures order == Asc ==> IsSorted(Ordered(payments, order))
    ensures Ordered(payments, Desc) == Reverse(Ordered(payments, Asc))
    ensures Window(Ordered(payments, order), count + 1, perPage) == []
  {
    var all := Ordered(payments, order);
    SortSorts(payments);
    SortLength(payments);
    ReverseKeepsElements(SortByKey(payments));
    PagesAreConsecutive(all, count, perPage);
    assert all[..|all|] == all;
  }

  lemma {:induction false} ReverseKeepsElements(s: seq<Payment>)
    ensures multiset(Reverse(s)) == multiset(s)
  {
    if s != [] {
      ReverseKeepsElements(s[1..]);
      assert s == [s[0]] + s[1..];
    }
  }

  // ----- chronology -----

  /**
   Payments stamped by the server's clock are listed in the order of the instants they were created,
   as long as that clock has not left the four-digit years.
   */
  lemma ListIsChronological(payments: seq<Payment>, created: map<string, int>, i: nat, j: nat)
    requires DistinctIds(payments)
    requires forall p :: p in payments ==>
      p.paymentId in created && IsFourDigit(created[p.paymentId])
      && p.creationDate == Rfc3339(created[p.paymentId])
    ensures i < j < |payments| ==>
      |Ordered(payments, Asc)| == |payments|
      && Ordered(payments, Asc)[i].paymentId in created && Ordered(payments, Asc)[j].paymentId in created
      && created[Ordered(payments, Asc)[i].paymentId] <= created[Ordered(payments, Asc)[j].paymentId]
  {
    if i < j < |payments| {
      var sorted := Ordered(payments, Asc);
      SortSorts(payments);
      SortLength(payments);
      assert sorted[i] in multiset(sorted) && sorted[j] in multiset(sorted);
      assert sorted[i] in payments && sorted[j] in payments && KeyLess(sorted[i], sorted[j]);
      var s, t := created[sorted[i].paymentId], created[sorted[j].paymentId];
      hide Rfc3339, Less;
      if t < s {
        StringsSortAsInstants(t, s);
        LessIsStrict(Rfc3339(s), Rfc3339(t));
      }
    }
  }

  /** In the order `asc` each payment precedes the next by its date, or by its id where the dates are equal. */
  lemma ListOrder(payments: seq<Payment>, i: nat, j: nat)
    requires DistinctIds(payments) && i < j < |payments|
    ensures |Ordered(payments, Asc)| == |payments|
    ensures var (a, b) := (Ordered(payments, Asc)[i], Ordered(payments, Asc)[j]);
      (exists k: nat :: IsLessFrom(a.creationDate, b.creationDate, k))
      || (a.creationDate == b.creationDate && exists k: nat :: IsLessFrom(a.paymentId, b.paymentId, k))
  {
    SortSorts(payments);
    SortLength(payments);
    var a, b := Ordered(payments, Asc)[i], Ordered(payments, Asc)[j];
    assert KeyLess(a, b);
    LessIsLexicographic(a.creationDate, b.creationDate);
    LessIsLexicographic(a.paymentId, b.paymentId);
    hide Less, IsLessFrom;
  }
}
