/** The expense chart's series (script.js:91-109): the expense records are
    folded into an object keyed by category, whose keys become the chart's
    labels and whose values become its data. An object's keys keep the order
    in which they were first added, so a label's place is the place of its
    category's first expense. */
module Chart {
  import opened Records

  /** One key of the accumulating object, with the total it holds. */
  datatype Slice = Slice(key: string, value: real)

  /** What the chart area shows: the "no data" message, or a doughnut with
      one label and one value per category. */
  datatype View = NoData | Doughnut(labels: seq<string>, values: seq<real>)

  /** `Object.keys`. */
  function Labels(acc: seq<Slice>): (r: seq<string>)
    ensures |r| == |acc| && forall i :: 0 <= i < |acc| ==> r[i] == acc[i].key
  {
    if acc == [] then [] else [acc[0].key] + Labels(acc[1..])
  }

  /** `Object.values`. */
  function Values(acc: seq<Slice>): (r: seq<real>)
    ensures |r| == |acc| && forall i :: 0 <= i < |acc| ==> r[i] == acc[i].value
  {
    if acc == [] then [] else [acc[0].value] + Values(acc[1..])
  }

  /** `acc[c] || 0`: the total held under key `c`, or 0 when there is none.
      Keys are plain names here; the model does not give a category named
      after an `Object.prototype` property (`toString`, `__proto__`, ...) the
      inherited value it would read in JavaScript. */
  function Lookup(acc: seq<Slice>, c: string): real
  {
    if acc == [] then 0.0
    else if acc[0].key == c then acc[0].value
    else Lookup(acc[1..], c)
  }

  predicate Distinct(labels: seq<string>)
  {
    forall i, j :: 0 <= i < j < |labels| ==> labels[i] != labels[j]
  }

  lemma DistinctAppend(labels: seq<string>, c: string)
    requires Distinct(labels)
    ensures c !in labels ==> Distinct(labels + [c])
  {
    if c !in labels {
      var more := labels + [c];
      forall i, j | 0 <= i < j < |more| ensures more[i] != more[j] {
        assert more[i] == labels[i];
      }
    }
  }

  /** `acc[c] = (acc[c] || 0) + a`: an existing key keeps its place and grows
      by `a`; a new key is added after all the others, holding `a`. */
  function Bump(acc: seq<Slice>, c: string, a: real): (r: seq<Slice>)
    ensures Labels(r) == if c in Labels(acc) then Labels(acc) else Labels(acc) + [c]
    ensures forall l :: Lookup(r, l) == Lookup(acc, l) + (if l == c then a else 0.0)
  {
    if acc == [] then [Slice(c, a)]
    else if acc[0].key == c then
      assert Labels([Slice(c, acc[0].value + a)] + acc[1..]) == Labels(acc);
      [Slice(c, acc[0].value + a)] + acc[1..]
    else
      var rest := Bump(acc[1..], c, a);
      assert Labels([acc[0]] + rest) == [acc[0].key] + Labels(rest) by {
        assert ([acc[0]] + rest)[1..] == rest;
      }
      assert Labels(acc) == [acc[0].key] + Labels(acc[1..]);
      [acc[0]] + rest
  }

  /** Some record of `xs` has category `c`. */
  predicate HasCategory(xs: seq<Transaction>, c: string)
  {
    exists i :: 0 <= i < |xs| && xs[i].category == c
  }

  lemma HasCategoryAppend(init: seq<Transaction>, t: Transaction, c: string)
    ensures HasCategory(init + [t], c) <==> HasCategory(init, c) || t.category == c
  {
    var xs := init + [t];
    assert forall i :: 0 <= i < |init| ==> xs[i] == init[i];
    assert xs[|init|] == t;
  }

  /** The `reduce` that builds the object, a left fold over `xs`. */
  function Tally(xs: seq<Transaction>): seq<Slice>
  {
    if xs == [] then []
    else
      var init, t := xs[..|xs| - 1], xs[|xs| - 1];
      Bump(Tally(init), t.category, t.amount)
  }

  /** The keys of the folded object are distinct and are exactly the
      categories that occur in `xs`. */
  lemma {:induction false} TallyKeys(xs: seq<Transaction>)
    ensures Distinct(Labels(Tally(xs)))
    ensures forall c :: c in Labels(Tally(xs)) <==> HasCategory(xs, c)
  {
    if xs != [] {
      var init, t := xs[..|xs| - 1], xs[|xs| - 1];
      assert xs == init + [t];
      TallyKeys(init);
      TallyStep(Tally(init), init, t);
    }
  }

  /** One step of the fold keeps the keys distinct and adds the new record's
      category to them. */
  lemma TallyStep(prev: seq<Slice>, init: seq<Transaction>, t: Transaction)
    requires Distinct(Labels(prev))
    requires forall c :: c in Labels(prev) <==> HasCategory(init, c)
    ensures Distinct(Labels(Bump(prev, t.category, t.amount)))
    ensures forall c ::
              c in Labels(Bump(prev, t.category, t.amount)) <==> HasCategory(init + [t], c)
  {
    forall c ensures HasCategory(init + [t], c) <==> HasCategory(init, c) || c == t.category {
      HasCategoryAppend(init, t, c);
    }
    DistinctAppend(Labels(prev), t.category);
  }

  /** Each key holds the sum of the amounts of the records of its category. */
  lemma {:induction false} TallyTotals(xs: seq<Transaction>, c: string)
    ensures Lookup(Tally(xs), c) == Sum(Filter(xs, CategoryIs(c)))
  {
    if xs != [] {
      var init, t := xs[..|xs| - 1], xs[|xs| - 1];
      assert xs == init + [t];
      TallyTotals(init, c);
      FilterSumAppend(init, t, CategoryIs(c));
    }
  }

  /** With distinct keys, the value at a position is what the key looks up. */
  lemma {:induction false} LookupAt(acc: seq<Slice>, i: int)
    requires Distinct(Labels(acc)) && 0 <= i < |acc|
    ensures Lookup(acc, acc[i].key) == acc[i].value
  {
    if i > 0 {
      assert Labels(acc)[0] != Labels(acc)[i];
      assert Distinct(Labels(acc[1..])) by {
        forall j, k | 0 <= j < k < |acc| - 1
          ensures Labels(acc[1..])[j] != Labels(acc[1..])[k]
        {
          assert Labels(acc)[j + 1] != Labels(acc)[k + 1];
        }
      }
      LookupAt(acc[1..], i - 1);
    }
  }

  /** The position of the first record of `xs` whose category is `c`. */
  function FirstIndex(xs: seq<Transaction>, c: string): (k: nat)
    requires HasCategory(xs, c)
    ensures k < |xs| && xs[k].category == c
    ensures forall i :: 0 <= i < k ==> xs[i].category != c
  {
    if xs[0].category == c then 0
    else
      assert HasCategory(xs[1..], c) by {
        var i :| 0 <= i < |xs| && xs[i].category == c;
        assert xs[1..][i - 1] == xs[i];
      }
      1 + FirstIndex(xs[1..], c)
  }

  /** Adding a record at the end does not move a category's first record;
      a category seen for the first time has its first record at the end. */
  lemma FirstIndexAppend(init: seq<Transaction>, t: Transaction, c: string)
    requires HasCategory(init, c) || t.category == c
    ensures HasCategory(init + [t], c)
    ensures HasCategory(init, c) ==> FirstIndex(init + [t], c) == FirstIndex(init, c)
    ensures !HasCategory(init, c) ==> FirstIndex(init + [t], c) == |init|
  {
    var xs := init + [t];
    if HasCategory(init, c) {
      var i :| 0 <= i < |init| && init[i].category == c;
      assert xs[i] == init[i];
    } else {
      assert xs[|init|] == t;
    }
    assert forall i :: 0 <= i < |init| ==> xs[i] == init[i];
  }

  /** One step of the fold keeps the keys in order of first occurrence. */
  lemma TallyOrderStep(init: seq<Transaction>, t: Transaction)
    requires forall i :: 0 <= i < |Tally(init)| ==> HasCategory(init, Labels(Tally(init))[i])
    requires forall i, j :: 0 <= i < j < |Tally(init)| ==>
               FirstIndex(init, Labels(Tally(init))[i]) < FirstIndex(init, Labels(Tally(init))[j])
    ensures forall i :: 0 <= i < |Tally(init + [t])| ==>
              HasCategory(init + [t], Labels(Tally(init + [t]))[i])
    ensures forall i, j :: 0 <= i < j < |Tally(init + [t])| ==>
              FirstIndex(init + [t], Labels(Tally(init + [t]))[i])
                < FirstIndex(init + [t], Labels(Tally(init + [t]))[j])
  {
    var xs := init + [t];
    assert xs[..|xs| - 1] == init && xs[|xs| - 1] == t;
    TallyKeys(init);
    TallyKeys(xs);
    var before, after := Labels(Tally(init)), Labels(Tally(xs));
    forall i | 0 <= i < |after| ensures HasCategory(xs, after[i]) {
      assert after[i] in after;
    }
    assert after == if t.category in before then before else before + [t.category];
    forall i | 0 <= i < |before|
      ensures FirstIndex(xs, before[i]) == FirstIndex(init, before[i]) < |init|
    {
      FirstIndexAppend(init, t, before[i]);
    }
    forall i, j | 0 <= i < j < |after|
      ensures FirstIndex(xs, after[i]) < FirstIndex(xs, after[j])
    {
      assert after[i] == before[i];
      if j < |before| {
        assert after[j] == before[j];
      } else {
        assert after[j] == t.category && !HasCategory(init, t.category);
        FirstIndexAppend(init, t, t.category);
      }
    }
  }

  /** The keys come in the order in which their categories first occur. */
  lemma {:induction false} TallyOrder(xs: seq<Transaction>)
    ensures forall i :: 0 <= i < |Tally(xs)| ==> HasCategory(xs, Labels(Tally(xs))[i])
    ensures forall i, j :: 0 <= i < j < |Tally(xs)| ==>
              FirstIndex(xs, Labels(Tally(xs))[i]) < FirstIndex(xs, Labels(Tally(xs))[j])
  {
    if xs != [] {
      var init, t := xs[..|xs| - 1], xs[|xs| - 1];
      assert xs == init + [t];
      TallyOrder(init);
      TallyOrderStep(init, t);
    }
  }

  /** `expenseData`: the expense records folded by category. */
  function ExpenseData(s: seq<Transaction>): seq<Slice>
  {
    Tally(Filter(s, KindIs(Expense)))
  }

  /** The total of the expense records of category `c`. */
  function CategoryTotal(s: seq<Transaction>, c: string): real
  {
    Sum(Filter(Filter(s, KindIs(Expense)), CategoryIs(c)))
  }

  /** What `updateChart` shows: "no data" when the object has no keys,
      otherwise its keys as labels and its values as data. */
  function ChartFor(s: seq<Transaction>): View
  {
    var data := ExpenseData(s);
    if |data| == 0 then NoData else Doughnut(Labels(data), Values(data))
  }

  /** Some expense record of `s` has category `c`. */
  predicate HasExpense(s: seq<Transaction>, c: string)
  {
    exists i :: 0 <= i < |s| && s[i].kind == Expense && s[i].category == c
  }

  /** A category is a label exactly when some expense record has it. */
  lemma ExpenseCategories(s: seq<Transaction>)
    ensures forall c :: c in Labels(ExpenseData(s)) <==> HasExpense(s, c)
  {
    var xs := Filter(s, KindIs(Expense));
    TallyKeys(xs);
    FilterMembers(s, KindIs(Expense));
    forall c ensures HasCategory(xs, c) <==> HasExpense(s, c)
    {
      if HasCategory(xs, c) {
        var k :| 0 <= k < |xs| && xs[k].category == c;
        assert xs[k] in s;
      }
      if i :| 0 <= i < |s| && s[i].kind == Expense && s[i].category == c {
        assert s[i] in xs;
      }
    }
  }

  /** The chart shows "no data" exactly when the ledger has no expense record. */
  lemma ChartNoData(s: seq<Transaction>)
    ensures ChartFor(s) == NoData <==> forall i :: 0 <= i < |s| ==> s[i].kind != Expense
  {
    ExpenseCategories(s);
    var data := ExpenseData(s);
    if i :| 0 <= i < |s| && s[i].kind == Expense {
      assert s[i].category in Labels(data);
    }
    if |data| > 0 {
      assert Labels(data)[0] in Labels(data);
    }
  }

  /** Otherwise the chart has as many values as labels, one label per
      category that has expenses and no other, each label once and in order
      of first occurrence among the expense records, and each value the
      total of its category's expenses. */
  lemma ChartSeries(s: seq<Transaction>)
    requires ChartFor(s).Doughnut?
    ensures var v := ChartFor(s);
      && |v.labels| == |v.values|
      && Distinct(v.labels)
      && (forall c :: c in v.labels <==> HasCategory(Filter(s, KindIs(Expense)), c))
      && (forall i :: 0 <= i < |v.values| ==> v.values[i] == CategoryTotal(s, v.labels[i]))
      && (forall i, j :: 0 <= i < j < |v.labels| ==>
            FirstIndex(Filter(s, KindIs(Expense)), v.labels[i])
              < FirstIndex(Filter(s, KindIs(Expense)), v.labels[j]))
  {
    var xs := Filter(s, KindIs(Expense));
    var data := Tally(xs);
    TallyKeys(xs);
    TallyOrder(xs);
    forall i | 0 <= i < |data| ensures Values(data)[i] == CategoryTotal(s, Labels(data)[i]) {
      LookupAt(data, i);
      TallyTotals(xs, data[i].key);
    }
  }

  /** Whether a category has expenses does not depend on the order of the records. */
  lemma HasExpensePermutation(a: seq<Transaction>, b: seq<Transaction>, c: string)
    requires multiset(a) == multiset(b)
    ensures HasExpense(a, c) ==> HasExpense(b, c)
  {
    if HasExpense(a, c) {
      var i :| 0 <= i < |a| && a[i].kind == Expense && a[i].category == c;
      assert a[i] in multiset(b);
      var k :| 0 <= k < |b| && b[k] == a[i];
    }
  }

  /** Reordering the ledger keeps the same labels, each with the same value;
      only the order of the labels can change. */
  lemma ChartPermutation(a: seq<Transaction>, b: seq<Transaction>)
    requires multiset(a) == multiset(b)
    ensures ChartFor(a).NoData? <==> ChartFor(b).NoData?
    ensures forall c :: c in Labels(ExpenseData(a)) <==> c in Labels(ExpenseData(b))
    ensures forall c :: Lookup(ExpenseData(a), c) == Lookup(ExpenseData(b), c)
  {
    var da, db := ExpenseData(a), ExpenseData(b);
    forall c ensures c in Labels(da) <==> c in Labels(db) {
      ExpenseCategories(a);
      ExpenseCategories(b);
      HasExpensePermutation(a, b, c);
      HasExpensePermutation(b, a, c);
    }
    if |da| > 0 {
      assert Labels(da)[0] in Labels(db);
    }
    if |db| > 0 {
      assert Labels(db)[0] in Labels(da);
    }
    var xa, xb := Filter(a, KindIs(Expense)), Filter(b, KindIs(Expense));
    FilterPermutation(a, b, KindIs(Expense));
    forall c ensures Lookup(da, c) == Lookup(db, c) {
      TallyTotals(xa, c);
      TallyTotals(xb, c);
      FilterPermutation(xa, xb, CategoryIs(c));
      SumPermutation(Filter(xa, CategoryIs(c)), Filter(xb, CategoryIs(c)));
    }
  }
}
