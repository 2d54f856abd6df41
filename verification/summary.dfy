/** The three figures of the summary cards (script.js:30-39): total income,
    total expense and the balance between them, always over the whole ledger
    whatever the list filter is. */
module Summary {
  import opened Records

  datatype Totals = Totals(income: real, expense: real, balance: real)

  /** `calculateSummary` without the currency formatting: income sums the
      records whose type is exactly "income", expense those whose type is
      exactly "expense", and the balance is the first minus the second. */
  function Summarize(s: seq<Transaction>): Totals
  {
    var income := Sum(Filter(s, KindIs(Income)));
    var expense := Sum(Filter(s, KindIs(Expense)));
    Totals(income, expense, income - expense)
  }

  /** What a record adds to the balance: its amount for income, minus its
      amount for expense, nothing for a record of any other type. */
  function Signed(t: Transaction): real
  {
    if t.kind == Income then t.amount
    else if t.kind == Expense then -t.amount
    else 0.0
  }

  /** The balance read record by record, as a running total of signed amounts. */
  function SignedSum(s: seq<Transaction>): real
  {
    if s == [] then 0.0 else SignedSum(s[..|s| - 1]) + Signed(s[|s| - 1])
  }

  /** Appending one record moves the income total by its amount exactly when
      it is an income record and the expense total exactly when it is an
      expense record; the balance stays income minus expense. */
  lemma SummarizeAppend(s: seq<Transaction>, t: Transaction)
    ensures Summarize(s + [t]).income
      == Summarize(s).income + (if t.kind == Income then t.amount else 0.0)
    ensures Summarize(s + [t]).expense
      == Summarize(s).expense + (if t.kind == Expense then t.amount else 0.0)
    ensures Summarize(s + [t]).balance
      == Summarize(s + [t]).income - Summarize(s + [t]).expense
  {
    FilterSumAppend(s, t, KindIs(Income));
    FilterSumAppend(s, t, KindIs(Expense));
  }

  /** The empty ledger has all three figures zero, and the balance is the sum
      of the signed amounts of the records. */
  lemma {:induction false} BalanceIsSignedSum(s: seq<Transaction>)
    ensures s == [] ==> Summarize(s) == Totals(0.0, 0.0, 0.0)
    ensures Summarize(s).balance == SignedSum(s)
  {
    if s != [] {
      var init := s[..|s| - 1];
      assert s == init + [s[|s| - 1]];
      BalanceIsSignedSum(init);
      SummarizeAppend(init, s[|s| - 1]);
    }
  }

  /** Reordering the ledger does not change any of the three figures. */
  lemma SummarizePermutation(a: seq<Transaction>, b: seq<Transaction>)
    requires multiset(a) == multiset(b)
    ensures Summarize(a) == Summarize(b)
  {
    FilterPermutation(a, b, KindIs(Income));
    FilterPermutation(a, b, KindIs(Expense));
    SumPermutation(Filter(a, KindIs(Income)), Filter(b, KindIs(Income)));
    SumPermutation(Filter(a, KindIs(Expense)), Filter(b, KindIs(Expense)));
  }

  /** With only positive amounts, income and expense are never negative, and
      each is zero exactly when there is no record of its type. */
  lemma SummarizeNonNegative(s: seq<Transaction>)
    requires AllPositive(s)
    ensures Summarize(s).income >= 0.0 && Summarize(s).expense >= 0.0
    ensures Summarize(s).income == 0.0 <==> forall i :: 0 <= i < |s| ==> s[i].kind != Income
    ensures Summarize(s).expense == 0.0 <==> forall i :: 0 <= i < |s| ==> s[i].kind != Expense
  {
    FilterSumPositive(s, KindIs(Income));
    FilterSumPositive(s, KindIs(Expense));
  }
}
