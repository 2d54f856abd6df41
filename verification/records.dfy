/** The ledger's record type and the two array operations every view is built
    from: `filter` (keep the elements a predicate accepts, in order) and the
    amount-summing `reduce`. */
module Records {

  datatype Option<T> = None | Some(value: T)

  /** One ledger entry as the submit handler builds it (script.js:184-191).
      `id` stands for the `Date.now()` timestamp, `amount` for the parsed
      number, `date` for the calendar day of the form's date field as a day
      number, so that later days are larger numbers. `kind` is the record's
      `type` field, kept as the text the form supplied. */
  datatype Transaction = Transaction(
    id: int,
    description: string,
    amount: real,
    kind: string,
    category: string,
    date: int)

  const Income: string := "income"
  const Expense: string := "expense"
  /** The filter value that selects every record. */
  const All: string := "all"

  /** The predicates the source passes to `filter`. */
  function KindIs(k: string): Transaction -> bool { (t: Transaction) => t.kind == k }
  function CategoryIs(c: string): Transaction -> bool { (t: Transaction) => t.category == c }
  function IdIsNot(id: int): Transaction -> bool { (t: Transaction) => t.id != id }
  function DateIs(d: int): Transaction -> bool { (t: Transaction) => t.date == d }

  /** `Array.prototype.filter`: the elements of `s` that `p` accepts, in
      their original order. Each element keeps every copy it had in `s`
      when `p` accepts it and loses all of them otherwise. */
  function Filter(s: seq<Transaction>, p: Transaction -> bool): (r: seq<Transaction>)
    ensures |r| <= |s|
  {
    if s == [] then [] else (if p(s[0]) then [s[0]] else []) + Filter(s[1..], p)
  }

  /** Each record keeps every copy it had when `p` accepts it, and loses all
      of them otherwise. */
  lemma {:induction false} FilterCount(s: seq<Transaction>, p: Transaction -> bool)
    ensures forall x :: multiset(Filter(s, p))[x] == if p(x) then multiset(s)[x] else 0
  {
    if s != [] {
      assert s == [s[0]] + s[1..];
      FilterCount(s[1..], p);
    }
  }

  /** A record is in the result exactly when it is in `s` and `p` accepts it. */
  lemma FilterMembers(s: seq<Transaction>, p: Transaction -> bool)
    ensures forall x :: x in Filter(s, p) <==> x in s && p(x)
  {
    FilterCount(s, p);
    forall x ensures x in Filter(s, p) <==> x in s && p(x) {
      assert x in Filter(s, p) <==> multiset(Filter(s, p))[x] > 0;
      assert x in s <==> multiset(s)[x] > 0;
    }
  }

  /** Filtering a sequence with one record in front. */
  lemma FilterCons(x: Transaction, s: seq<Transaction>, p: Transaction -> bool)
    ensures Filter([x] + s, p) == (if p(x) then [x] else []) + Filter(s, p)
  {
    assert ([x] + s)[0] == x && ([x] + s)[1..] == s;
  }

  /** Filtering works piece by piece, so what it keeps stays in its order. */
  lemma {:induction false} FilterConcat(a: seq<Transaction>, b: seq<Transaction>, p: Transaction -> bool)
    ensures Filter(a + b, p) == Filter(a, p) + Filter(b, p)
  {
    if a == [] {
      assert a + b == b;
    } else {
      var head := if p(a[0]) then [a[0]] else [];
      assert (a + b)[0] == a[0] && (a + b)[1..] == a[1..] + b;
      assert Filter(a + b, p) == head + Filter(a[1..] + b, p);
      FilterConcat(a[1..], b, p);
      assert head + (Filter(a[1..], p) + Filter(b, p)) == (head + Filter(a[1..], p)) + Filter(b, p);
    }
  }

  /** A filter that accepts every element returns the sequence itself. */
  lemma {:induction false} FilterKeepsAll(s: seq<Transaction>, p: Transaction -> bool)
    requires forall i :: 0 <= i < |s| ==> p(s[i])
    ensures Filter(s, p) == s
  {
    if s != [] {
      FilterKeepsAll(s[1..], p);
    }
  }

  /** Filtering twice by the same predicate is filtering once. */
  lemma FilterIdempotent(s: seq<Transaction>, p: Transaction -> bool)
    ensures Filter(Filter(s, p), p) == Filter(s, p)
  {
    var r := Filter(s, p);
    FilterMembers(s, p);
    forall i | 0 <= i < |r| ensures p(r[i]) {
      assert r[i] in r;
    }
    FilterKeepsAll(r, p);
  }

  /** Filtering two permutations of each other gives permutations of each other. */
  lemma FilterPermutation(a: seq<Transaction>, b: seq<Transaction>, p: Transaction -> bool)
    requires multiset(a) == multiset(b)
    ensures multiset(Filter(a, p)) == multiset(Filter(b, p))
  {
    FilterCount(a, p);
    FilterCount(b, p);
  }

  /** `reduce((sum, t) => sum + t.amount, 0)`: a left fold from 0. */
  function Sum(s: seq<Transaction>): real
  {
    if s == [] then 0.0 else Sum(s[..|s| - 1]) + s[|s| - 1].amount
  }

  /** The sum over two pieces is the sum of their sums. */
  lemma {:induction false} SumConcat(a: seq<Transaction>, b: seq<Transaction>)
    ensures Sum(a + b) == Sum(a) + Sum(b)
  {
    if b == [] {
      assert a + b == a;
    } else {
      assert (a + b)[..|a + b| - 1] == a + b[..|b| - 1];
      SumConcat(a, b[..|b| - 1]);
    }
  }

  /** Summing the accepted records of a longer ledger: the new record's
      amount counts exactly when the predicate accepts it. */
  lemma FilterSumAppend(s: seq<Transaction>, t: Transaction, p: Transaction -> bool)
    ensures Sum(Filter(s + [t], p)) == Sum(Filter(s, p)) + (if p(t) then t.amount else 0.0)
  {
    FilterConcat(s, [t], p);
    var last := Filter([t], p);
    assert last == if p(t) then [t] else [] by {
      assert [t][1..] == [];
    }
    SumConcat(Filter(s, p), last);
    assert Sum([t]) == t.amount by {
      assert [t][..0] == [];
    }
  }

  /** Taking one record out of a sequence takes its amount off the sum. */
  lemma SumRemove(b: seq<Transaction>, k: int)
    requires 0 <= k < |b|
    ensures Sum(b) == Sum(b[..k] + b[k + 1..]) + b[k].amount
  {
    var front, x, back := b[..k], b[k], b[k + 1..];
    assert b == (front + [x]) + back;
    SumConcat(front + [x], back);
    SumConcat(front, [x]);
    SumConcat(front, back);
    assert Sum([x]) == x.amount by {
      assert [x][..0] == [];
    }
  }

  /** The sum does not depend on the order of the records. */
  lemma {:induction false} SumPermutation(a: seq<Transaction>, b: seq<Transaction>)
    requires multiset(a) == multiset(b)
    ensures Sum(a) == Sum(b)
    decreases |a|
  {
    if a == [] {
      assert |b| == |multiset(b)| == 0;
    } else {
      var x, rest := a[|a| - 1], a[..|a| - 1];
      assert multiset(a) == multiset(rest) + multiset{x} by {
        assert a == rest + [x];
      }
      assert x in multiset(b);
      var k :| 0 <= k < |b| && b[k] == x;
      var others := b[..k] + b[k + 1..];
      assert multiset(b) == multiset(others) + multiset{x} by {
        assert b == b[..k] + [x] + b[k + 1..];
      }
      assert multiset(rest) == multiset(a) - multiset{x} == multiset(b) - multiset{x} == multiset(others);
      SumPermutation(rest, others);
      SumRemove(b, k);
    }
  }

  predicate AllPositive(s: seq<Transaction>)
  {
    forall i :: 0 <= i < |s| ==> s[i].amount > 0.0
  }

  /** Records whose amounts are all positive sum to zero when there are none
      and to a positive amount otherwise. */
  lemma {:induction false} SumPositive(s: seq<Transaction>)
    requires AllPositive(s)
    ensures s == [] <==> Sum(s) == 0.0
    ensures Sum(s) >= 0.0
  {
    if s != [] {
      SumPositive(s[..|s| - 1]);
    }
  }

  /** Over positive amounts, the accepted records sum to a non-negative
      amount, which is zero exactly when no record is accepted. */
  lemma {:induction false} FilterSumPositive(s: seq<Transaction>, p: Transaction -> bool)
    requires AllPositive(s)
    ensures Sum(Filter(s, p)) >= 0.0
    ensures Sum(Filter(s, p)) == 0.0 <==> forall i :: 0 <= i < |s| ==> !p(s[i])
  {
    if s != [] {
      var init, t := s[..|s| - 1], s[|s| - 1];
      assert s == init + [t];
      FilterSumPositive(init, p);
      FilterSumAppend(init, t, p);
      assert forall i :: 0 <= i < |init| ==> init[i] == s[i];
    }
  }
}
