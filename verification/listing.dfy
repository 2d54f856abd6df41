/** The transaction list (script.js:53-61): the ledger narrowed by the
    category filter, then sorted by date with the latest day first. The sort
    is `Array.prototype.sort`, which is stable, so records of the same day
    keep their relative order. */
module Listing {
  import opened Records

  predicate SortedByDateDesc(s: seq<Transaction>)
  {
    forall i, j :: 0 <= i < j < |s| ==> s[i].date >= s[j].date
  }

  /** A record no later than the first of a sorted list can go in front of it. */
  lemma SortedCons(x: Transaction, s: seq<Transaction>)
    requires SortedByDateDesc(s)
    requires s == [] || x.date >= s[0].date
    ensures SortedByDateDesc([x] + s)
  {
    forall i, j | 0 <= i < j < |[x] + s| ensures ([x] + s)[i].date >= ([x] + s)[j].date {
      if i > 0 {
        assert ([x] + s)[i] == s[i - 1];
      }
    }
  }

  /** Places `t` before the first record of `s` that is not later than it. */
  function Insert(t: Transaction, s: seq<Transaction>): seq<Transaction>
  {
    if s == [] || t.date >= s[0].date then [t] + s
    else [s[0]] + Insert(t, s[1..])
  }

  /** Inserting into a list in descending date order keeps it in that order
      and adds exactly the one record. */
  lemma {:induction false} InsertSorted(t: Transaction, s: seq<Transaction>)
    requires SortedByDateDesc(s)
    ensures SortedByDateDesc(Insert(t, s))
    ensures multiset(Insert(t, s)) == multiset(s) + multiset{t}
    ensures Insert(t, s)[0] == t || (s != [] && Insert(t, s)[0] == s[0])
  {
    if s == [] || t.date >= s[0].date {
      SortedCons(t, s);
    } else {
      var rest := Insert(t, s[1..]);
      assert SortedByDateDesc(s[1..]) by {
        forall i, j | 0 <= i < j < |s| - 1 ensures s[1..][i].date >= s[1..][j].date {
          assert s[1..][i] == s[i + 1] && s[1..][j] == s[j + 1];
        }
      }
      InsertSorted(t, s[1..]);
      assert s == [s[0]] + s[1..];
      SortedCons(s[0], rest);
    }
  }

  /** The comparator `(a, b) => new Date(b.date) - new Date(a.date)` under a
      stable sort, written as an insertion sort. */
  function SortByDateDesc(s: seq<Transaction>): seq<Transaction>
  {
    if s == [] then [] else Insert(s[0], SortByDateDesc(s[1..]))
  }

  /** The sorted list is in descending date order and holds the same records
      as `s`, each as often. */
  lemma {:induction false} SortCorrect(s: seq<Transaction>)
    ensures SortedByDateDesc(SortByDateDesc(s))
    ensures multiset(SortByDateDesc(s)) == multiset(s)
  {
    if s != [] {
      SortCorrect(s[1..]);
      InsertSorted(s[0], SortByDateDesc(s[1..]));
      assert s == [s[0]] + s[1..];
    }
  }

  /** Sorting keeps every amount positive: it only moves records. */
  lemma SortKeepsPositive(s: seq<Transaction>)
    requires AllPositive(s)
    ensures AllPositive(SortByDateDesc(s))
  {
    var r := SortByDateDesc(s);
    SortCorrect(s);
    forall i | 0 <= i < |r| ensures r[i].amount > 0.0 {
      assert r[i] in multiset(s);
    }
  }

  /** Inserting keeps the records of every single day in their order. */
  lemma {:induction false} InsertStable(t: Transaction, s: seq<Transaction>, d: int)
    ensures Filter(Insert(t, s), DateIs(d)) == Filter([t] + s, DateIs(d))
  {
    if s != [] && t.date < s[0].date {
      var p := DateIs(d);
      var s1 := s[1..];
      assert s == [s[0]] + s1;
      var h0 := if p(s[0]) then [s[0]] else [];
      var ht := if p(t) then [t] else [];
      assert h0 + ht == ht + h0;
      FilterCons(s[0], Insert(t, s1), p);
      InsertStable(t, s1, d);
      FilterCons(t, s1, p);
      FilterCons(t, s, p);
      FilterCons(s[0], s1, p);
    }
  }

  /** Stability: for every day, the records of that day appear in the sorted
      list in exactly the order they had before. */
  lemma {:induction false} SortStable(s: seq<Transaction>, d: int)
    ensures Filter(SortByDateDesc(s), DateIs(d)) == Filter(s, DateIs(d))
  {
    if s != [] {
      assert s == [s[0]] + s[1..];
      SortStable(s[1..], d);
      InsertStable(s[0], SortByDateDesc(s[1..]), d);
      FilterCons(s[0], SortByDateDesc(s[1..]), DateIs(d));
      FilterCons(s[0], s[1..], DateIs(d));
    }
  }

  /** A list already in descending date order is left as it is. */
  lemma {:induction false} SortKeepsSorted(s: seq<Transaction>)
    requires SortedByDateDesc(s)
    ensures SortByDateDesc(s) == s
  {
    if s != [] {
      SortKeepsSorted(s[1..]);
      assert s == [s[0]] + s[1..];
    }
  }

  /** If `r2` has the same records as `r1` on the first day of `r1`, then
      `r2` is not empty and its first day is no earlier. */
  lemma FirstDayBound(r1: seq<Transaction>, r2: seq<Transaction>)
    requires r1 != [] && SortedByDateDesc(r2)
    requires Filter(r1, DateIs(r1[0].date)) == Filter(r2, DateIs(r1[0].date))
    ensures r2 != [] && r2[0].date >= r1[0].date
  {
    var p := DateIs(r1[0].date);
    assert r1 == [r1[0]] + r1[1..];
    FilterCons(r1[0], r1[1..], p);
    FilterMembers(r2, p);
    assert r1[0] in Filter(r2, p);
  }

  /** Two lists that start on the same day and agree on that day and on day
      `e` start with the same record and agree on day `e` after it. */
  lemma DropFirst(r1: seq<Transaction>, r2: seq<Transaction>, e: int)
    requires r1 != [] && r2 != [] && r1[0].date == r2[0].date
    requires Filter(r1, DateIs(r1[0].date)) == Filter(r2, DateIs(r1[0].date))
    requires Filter(r1, DateIs(e)) == Filter(r2, DateIs(e))
    ensures r1[0] == r2[0]
    ensures Filter(r1[1..], DateIs(e)) == Filter(r2[1..], DateIs(e))
  {
    var d := r1[0].date;
    var a1, a2 := r1[0], r2[0];
    var t1, t2 := r1[1..], r2[1..];
    assert r1 == [a1] + t1 && r2 == [a2] + t2;
    FilterCons(a1, t1, DateIs(d));
    FilterCons(a2, t2, DateIs(d));
    var u1, u2 := Filter(t1, DateIs(d)), Filter(t2, DateIs(d));
    assert ([a1] + u1)[0] == a1 && ([a2] + u2)[0] == a2;
    assert ([a1] + u1)[1..] == u1 && ([a2] + u2)[1..] == u2;
    if e != d {
      FilterCons(a1, t1, DateIs(e));
      FilterCons(a2, t2, DateIs(e));
      assert [] + Filter(t1, DateIs(e)) == Filter(t1, DateIs(e));
      assert [] + Filter(t2, DateIs(e)) == Filter(t2, DateIs(e));
    }
  }

  /** Two lists in descending date order that agree day by day are equal: a
      stable sort has only one possible result. */
  lemma {:induction false} SortedUnique(r1: seq<Transaction>, r2: seq<Transaction>)
    requires SortedByDateDesc(r1) && SortedByDateDesc(r2)
    requires forall d :: Filter(r1, DateIs(d)) == Filter(r2, DateIs(d))
    ensures r1 == r2
    decreases |r1|
  {
    if r1 != [] {
      FirstDayBound(r1, r2);
    }
    if r2 != [] {
      FirstDayBound(r2, r1);
    }
    if r1 != [] && r2 != [] {
      forall e ensures Filter(r1[1..], DateIs(e)) == Filter(r2[1..], DateIs(e)) {
        DropFirst(r1, r2, e);
      }
      DropFirst(r1, r2, r1[0].date);
      SortedUnique(r1[1..], r2[1..]);
      assert r1 == [r1[0]] + r1[1..] && r2 == [r2[0]] + r2[1..];
    }
  }

  /** `SortByDateDesc` is the stable descending sort: any list in descending
      date order that keeps each day's records in their order is it. */
  lemma SortIsStableSort(s: seq<Transaction>, r: seq<Transaction>)
    requires SortedByDateDesc(r)
    requires forall d :: Filter(r, DateIs(d)) == Filter(s, DateIs(d))
    ensures r == SortByDateDesc(s)
  {
    forall d ensures Filter(r, DateIs(d)) == Filter(SortByDateDesc(s), DateIs(d)) {
      SortStable(s, d);
    }
    SortCorrect(s);
    SortedUnique(r, SortByDateDesc(s));
  }

  /** `filteredTransactions`: the whole ledger under the filter "all",
      otherwise the records whose category is exactly the filter value. */
  function Visible(s: seq<Transaction>, filter: string): seq<Transaction>
  {
    if filter == All then s else Filter(s, CategoryIs(filter))
  }

  /** The rendered list: in descending date order, stable, holding every
      record of the ledger under "all" and, under any other filter, exactly
      the records of that category, each as often as in the ledger. */
  lemma RenderedList(s: seq<Transaction>, filter: string)
    ensures SortedByDateDesc(SortByDateDesc(Visible(s, filter)))
    ensures filter == All ==> multiset(SortByDateDesc(Visible(s, filter))) == multiset(s)
    ensures filter != All ==>
              forall t :: multiset(SortByDateDesc(Visible(s, filter)))[t]
                            == if t.category == filter then multiset(s)[t] else 0
    ensures forall d ::
              Filter(SortByDateDesc(Visible(s, filter)), DateIs(d)) == Filter(Visible(s, filter), DateIs(d))
  {
    SortCorrect(Visible(s, filter));
    FilterCount(s, CategoryIs(filter));
    forall d ensures Filter(SortByDateDesc(Visible(s, filter)), DateIs(d))
      == Filter(Visible(s, filter), DateIs(d)) {
      SortStable(Visible(s, filter), d);
    }
  }
}
