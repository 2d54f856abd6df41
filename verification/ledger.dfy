/** The page's state and its three event paths (script.js:1-3, 26-28,
    170-218): the `transactions` array, its copy in local storage, the
    category filter, and what the summary cards, the list and the chart show.
    Adding and deleting write the whole array to storage and then redraw all
    three views; changing the filter redraws only the list. */
module Tracker {
  import opened Records
  import opened Text
  import opened Summary
  import opened Listing
  import opened Chart

  /** The form as the submit handler reads it (script.js:173-177): the raw
      description, the amount after `parseFloat` (`None` for NaN), the type
      and category select values, and the date field (`None` when empty). */
  datatype Form = Form(
    description: string,
    amount: Option<real>,
    kind: string,
    category: string,
    date: Option<int>)

  /** A notification passed to `showToast`: its message and its kind. */
  datatype Toast = Toast(message: string, kind: string)

  const InvalidForm := Toast("Please fill in all fields correctly", "error")
  const Added := Toast("Transaction added successfully!", "success")
  const Deleted := Toast("Transaction deleted", "success")

  /** The submit handler's check and the record it builds (script.js:173-191):
      the form is refused exactly when the description is nothing but white
      space, the amount is not a number or not above zero, or the date is
      empty; otherwise the record carries the given id, the trimmed
      description and the form's other fields unchanged. */
  function Validate(f: Form, id: int): (r: Option<Transaction>)
    ensures r.None? <==>
      AllSpace(f.description) || f.amount.None? || f.amount.value <= 0.0 || f.date.None?
    ensures r.Some? ==>
      && r.value.id == id
      && r.value.description == Trim(f.description)
      && r.value.amount == f.amount.value
      && r.value.kind == f.kind
      && r.value.category == f.category
      && r.value.date == f.date.value
    ensures r.Some? ==> r.value.amount > 0.0 && r.value.description != []
  {
    var description := Trim(f.description);
    if description == [] || f.amount.None? || f.amount.value <= 0.0 || f.date.None? then None
    else Some(Transaction(id, description, f.amount.value, f.kind, f.category, f.date.value))
  }

  /** `transactions.filter(t => t.id !== id)` (script.js:208). */
  function Without(s: seq<Transaction>, id: int): seq<Transaction>
  {
    Filter(s, IdIsNot(id))
  }

  /** Deleting keeps every record whose id differs, each as often as before
      and in its order, and drops every record with that id. */
  lemma DeleteKeepsOthers(s: seq<Transaction>, id: int)
    ensures forall t :: multiset(Without(s, id))[t] == if t.id == id then 0 else multiset(s)[t]
    ensures forall i :: 0 <= i < |Without(s, id)| ==> Without(s, id)[i].id != id
  {
    FilterCount(s, IdIsNot(id));
    FilterMembers(s, IdIsNot(id));
    forall i | 0 <= i < |Without(s, id)| ensures Without(s, id)[i].id != id {
      assert Without(s, id)[i] in Without(s, id);
    }
  }

  /** Deleting leaves the ledger as it was exactly when no record has the id. */
  lemma DeleteAbsent(s: seq<Transaction>, id: int)
    ensures Without(s, id) == s <==> forall i :: 0 <= i < |s| ==> s[i].id != id
  {
    if forall i :: 0 <= i < |s| ==> s[i].id != id {
      FilterKeepsAll(s, IdIsNot(id));
    } else {
      var i :| 0 <= i < |s| && s[i].id == id;
      FilterCount(s, IdIsNot(id));
      assert multiset(Without(s, id))[s[i]] == 0 < multiset(s)[s[i]];
    }
  }

  /** Deleting the same id twice is deleting it once. */
  lemma DeleteIdempotent(s: seq<Transaction>, id: int)
    ensures Without(Without(s, id), id) == Without(s, id)
  {
    FilterIdempotent(s, IdIsNot(id));
  }

  /** A valid form keeps a ledger of positive amounts positive. */
  lemma AddKeepsPositive(s: seq<Transaction>, f: Form, id: int)
    requires AllPositive(s) && Validate(f, id).Some?
    ensures AllPositive(s + [Validate(f, id).value])
  {
    assert forall i :: 0 <= i < |s| ==> (s + [Validate(f, id).value])[i] == s[i];
  }

  /** Deleting keeps every amount positive: it only drops records. */
  lemma DeleteKeepsPositive(s: seq<Transaction>, id: int)
    requires AllPositive(s)
    ensures AllPositive(Without(s, id))
  {
    var r := Without(s, id);
    FilterMembers(s, IdIsNot(id));
    forall i | 0 <= i < |r| ensures r[i].amount > 0.0 {
      assert r[i] in r;
    }
  }

  /** The ledger as the list drawing leaves it: sorted under "all", as it
      was under any other filter. */
  function Arranged(ledger: seq<Transaction>, filter: string): seq<Transaction>
  {
    if filter == All then SortByDateDesc(ledger) else ledger
  }

  /** What the page shows agrees with storage: the ledger is the stored
      array, sorted by date whenever the filter is "all" (the list drawing
      sorts it after it was stored) and possibly also under another filter;
      the summary and the list are those of the ledger; and the chart was
      drawn from the stored array in one of those two orders. */
  ghost predicate Consistent(
    ledger: seq<Transaction>, stored: seq<Transaction>, filter: string,
    summary: Totals, rows: seq<Transaction>, chart: View)
  {
    && (ledger == SortByDateDesc(stored) || (filter != All && ledger == stored))
    && summary == Summarize(ledger)
    && rows == SortByDateDesc(Visible(ledger, filter))
    && (chart == ChartFor(stored) || chart == ChartFor(SortByDateDesc(stored)))
  }

  /** Storing a ledger and then drawing the summary, the list and the chart
      from it, in that order, leaves every view consistent with storage. */
  lemma Redrawn(ledger: seq<Transaction>, filter: string)
    ensures Consistent(Arranged(ledger, filter), ledger, filter, Summarize(ledger),
                       SortByDateDesc(Visible(ledger, filter)), ChartFor(Arranged(ledger, filter)))
  {
    SortCorrect(ledger);
    SummarizePermutation(ledger, Arranged(ledger, filter));
    if filter == All {
      SortKeepsSorted(SortByDateDesc(ledger));
    }
  }

  /** Drawing only the list under a new filter keeps every view consistent
      with storage. */
  lemma FilterRedrawn(
    ledger: seq<Transaction>, stored: seq<Transaction>, filter: string,
    summary: Totals, rows: seq<Transaction>, chart: View, value: string)
    requires Consistent(ledger, stored, filter, summary, rows, chart)
    ensures Consistent(Arranged(ledger, value), stored, value, summary,
                       SortByDateDesc(Visible(ledger, value)), chart)
  {
    SortCorrect(ledger);
    SortCorrect(stored);
    SummarizePermutation(ledger, Arranged(ledger, value));
    if value == All {
      SortKeepsSorted(SortByDateDesc(ledger));
      SortKeepsSorted(SortByDateDesc(stored));
    }
  }

  /** The stored copy holds the ledger's records, each as often, and gives the
      same totals; under "all" the ledger is exactly the stored copy sorted,
      which is what a reload would draw. */
  lemma StoredCopy(
    ledger: seq<Transaction>, stored: seq<Transaction>, filter: string,
    summary: Totals, rows: seq<Transaction>, chart: View)
    requires Consistent(ledger, stored, filter, summary, rows, chart)
    ensures multiset(stored) == multiset(ledger)
    ensures Summarize(stored) == summary
    ensures filter == All ==> ledger == SortByDateDesc(stored)
  {
    SortCorrect(stored);
    SummarizePermutation(stored, ledger);
  }

  class Ledger {
    /** The in-memory `transactions` array. */
    var transactions: seq<Transaction>
    /** The array last written under the `transactions` storage key. */
    var stored: seq<Transaction>
    /** The value of the category filter select. */
    var filter: string
    /** The three summary figures on display. */
    var summary: Totals
    /** The rows of the transaction table; none means "No transactions found". */
    var rows: seq<Transaction>
    /** The chart area. */
    var chart: View

    ghost predicate Valid()
      reads this
    {
      Consistent(transactions, stored, filter, summary, rows, chart)
    }

    /** Start-up (script.js:2, 222-228): the stored array, or an empty one
        when the key is absent, becomes the ledger; `init` then draws all
        three views, the list with the filter "all", which sorts the ledger. */
    constructor (saved: Option<seq<Transaction>>)
      ensures Valid()
      ensures filter == All
      ensures stored == if saved.Some? then saved.value else []
      ensures transactions == SortByDateDesc(stored)
      ensures chart == ChartFor(transactions)
      ensures AllPositive(stored) ==> AllPositive(transactions)
    {
      var loaded := if saved.Some? then saved.value else [];
      transactions := loaded;
      stored := loaded;
      filter := All;
      summary := Totals(0.0, 0.0, 0.0);
      rows := [];
      chart := NoData;
      if AllPositive(loaded) {
        SortKeepsPositive(loaded);
      }
      new;
      CalculateSummary();
      RenderTransactions(All);
      assert transactions == SortByDateDesc(loaded);
      UpdateChart();
      Redrawn(loaded, All);
    }

    /** `updateLocalStorage` (script.js:26-28). */
    method UpdateLocalStorage()
      modifies this`stored
      ensures stored == transactions
    {
      stored := transactions;
    }

    /** `calculateSummary` (script.js:30-44). */
    method CalculateSummary()
      modifies this`summary
      ensures summary == Summarize(transactions)
    {
      summary := Summarize(transactions);
    }

    /** `renderTransactions` (script.js:53-89). Under "all" the list is the
        ledger itself, so sorting it reorders the ledger in place; under any
        other filter the ledger is left alone. */
    method RenderTransactions(f: string)
      modifies this`transactions, this`rows
      ensures transactions == Arranged(old(transactions), f)
      ensures rows == SortByDateDesc(Visible(old(transactions), f))
    {
      var list := SortByDateDesc(Visible(transactions, f));
      if f == All {
        transactions := list;
      }
      rows := list;
    }

    /** `updateChart` (script.js:91-147). */
    method UpdateChart()
      modifies this`chart
      ensures chart == ChartFor(transactions)
    {
      chart := ChartFor(transactions);
    }

    /** After a change of the ledger, storage and all three views are redone. */
    method Refresh()
      modifies this
      ensures Valid()
      ensures filter == old(filter) && stored == old(transactions)
      ensures transactions == if filter == All then SortByDateDesc(stored) else stored
      ensures chart == ChartFor(transactions)
      ensures AllPositive(stored) ==> AllPositive(transactions)
    {
      ghost var ledger := transactions;
      if AllPositive(ledger) {
        SortKeepsPositive(ledger);
      }
      UpdateLocalStorage();
      CalculateSummary();
      RenderTransactions(filter);
      assert transactions == Arranged(ledger, filter);
      UpdateChart();
      Redrawn(ledger, filter);
    }

    /** The form's submit handler (script.js:170-205), with `now` standing for
        `Date.now()`. A refused form changes nothing; an accepted one appends
        its record to the ledger, stores the ledger, then redraws. */
    method Submit(form: Form, now: int) returns (toast: Toast)
      requires Valid()
      modifies this
      ensures Valid()
      ensures filter == old(filter)
      ensures Validate(form, now).None? ==>
        && toast == InvalidForm
        && transactions == old(transactions) && stored == old(stored)
        && summary == old(summary) && rows == old(rows) && chart == old(chart)
      ensures Validate(form, now).Some? ==>
        && toast == Added
        && stored == old(transactions) + [Validate(form, now).value]
        && transactions == (if filter == All then SortByDateDesc(stored) else stored)
        && chart == ChartFor(transactions)
        && (AllPositive(old(transactions)) ==> AllPositive(stored) && AllPositive(transactions))
    {
      var record := Validate(form, now);
      if record.None? {
        return InvalidForm;
      }
      ghost var before := transactions;
      transactions := transactions + [record.value];
      Refresh();
      if AllPositive(before) {
        AddKeepsPositive(before, form, now);
      }
      toast := Added;
    }

    /** `deleteTransaction` (script.js:207-214): keeps the records with other
        ids, stores the ledger, then redraws. */
    method Delete(id: int) returns (toast: Toast)
      requires Valid()
      modifies this
      ensures Valid()
      ensures filter == old(filter)
      ensures stored == Without(old(transactions), id)
      ensures transactions == if filter == All then SortByDateDesc(stored) else stored
      ensures chart == ChartFor(transactions)
      ensures AllPositive(old(transactions)) ==> AllPositive(stored) && AllPositive(transactions)
      ensures toast == Deleted
    {
      if AllPositive(transactions) {
        DeleteKeepsPositive(transactions, id);
      }
      transactions := Without(transactions, id);
      Refresh();
      toast := Deleted;
    }

    /** The filter's change handler (script.js:216-218): only the list is
        redrawn, which under "all" reorders the ledger; storage, summary and
        chart stay as they were. */
    method ChangeFilter(value: string)
      requires Valid()
      modifies this
      ensures Valid()
      ensures filter == value
      ensures transactions == if value == All then SortByDateDesc(old(transactions)) else old(transactions)
      ensures stored == old(stored) && summary == old(summary) && chart == old(chart)
      ensures AllPositive(old(transactions)) ==> AllPositive(transactions)
    {
      ghost var ledger, before := transactions, filter;
      filter := value;
      RenderTransactions(value);
      FilterRedrawn(ledger, stored, before, summary, old(rows), chart, value);
      if AllPositive(ledger) {
        SortKeepsPositive(ledger);
      }
    }
  }
}
