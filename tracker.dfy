/**
 * The ledger object: an append-only list of expenses and the counter that
 * hands out expense ids.
 */
module Tracker {
  import opened Wrappers
  import opened Text
  import opened Dates
  import opened Expenses

  /** The summary the tracker reports: the total and the breakdown by exact category. */
  datatype Summary = Summary(total: real, categoryTotals: map<string, real>)

  class ExpenseTracker {
    /** The recorded expenses, in the order they were added. */
    var expenses: seq<Expense>
    /** The id the next constructed expense receives. */
    var nextId: int

    /**
     * The state every menu iteration keeps: every constructed expense was
     * added at once, so the ids are 1, 2, 3, ... in ledger order, and only
     * admissible entries were let in.
     */
    ghost predicate Valid()
      reads this
    {
      nextId == |expenses| + 1
      && forall i :: 0 <= i < |expenses| ==> expenses[i].id == i + 1 && Admissible(expenses[i])
    }

    /** An empty ledger, with the counter at 1. */
    constructor ()
      ensures expenses == [] && nextId == 1
      ensures Valid()
    {
      expenses := [];
      nextId := 1;
    }

    /**
     * The Expense constructor: takes the next id and resolves the date,
     * falling back to today (with a warning) when the text does not parse.
     */
    method NewExpense(amount: real, category: string, dateStr: string, description: string, today: Date)
      returns (e: Expense, dateWarning: bool)
      modifies this`nextId
      ensures nextId == old(nextId) + 1
      ensures e.id == old(nextId)
      ensures e.amount == amount && e.category == category && e.description == description
      ensures e.date == ResolveDate(dateStr, today)
      ensures dateWarning <==> ParseIsoDate(dateStr).None?
    {
      e := Expense(nextId, amount, category, ResolveDate(dateStr, today), description);
      dateWarning := ParseIsoDate(dateStr).None?;
      nextId := nextId + 1;
    }

    /** Records an expense at the end of the ledger. */
    method AddExpense(e: Expense)
      modifies this`expenses
      ensures expenses == old(expenses) + [e]
    {
      expenses := expenses + [e];
    }

    /** All recorded expenses in insertion order; empty when nothing was recorded yet. */
    method ViewAllExpenses() returns (all: seq<Expense>)
      ensures all == expenses
    {
      all := expenses;
    }

    /**
     * The expenses whose category equals the query ignoring case, collected
     * by one pass over the ledger; empty when none matches.
     */
    method ViewExpensesByCategory(category: string) returns (filtered: seq<Expense>)
      ensures filtered == FilterByCategory(expenses, category)
      ensures IsSubsequence(filtered, expenses)
      ensures forall e :: e in filtered <==> e in expenses && MatchesCategory(e, category)
    {
      filtered := [];
      for i := 0 to |expenses|
        invariant filtered == FilterByCategory(expenses[..i], category)
      {
        FilterStep(expenses, category, i);
        if EqualsIgnoreCase(expenses[i].category, category) {
          filtered := filtered + [expenses[i]];
        }
      }
      assert expenses[..|expenses|] == expenses;
      FilterIsSubsequence(expenses, category);
      forall e ensures e in filtered <==> e in expenses && MatchesCategory(e, category) {
        FilterMembership(expenses, category, e);
      }
    }

    /**
     * The total and the per-category totals, or None ("No expenses to
     * summarize.") when the ledger is empty.
     */
    method SummarizeExpenses() returns (summary: Option<Summary>)
      ensures summary.None? <==> expenses == []
      ensures summary.Some? ==> summary.value.total == TotalAmount(expenses)
      ensures summary.Some? ==> summary.value.categoryTotals == CategoryTotals(expenses)
      ensures summary.Some? ==> summary.value.categoryTotals.Keys == Categories(expenses)
      ensures summary.Some? ==> SumValues(summary.value.categoryTotals) == summary.value.total
    {
      if expenses == [] {
        return None;
      }
      var totalAmount := 0.0;
      for i := 0 to |expenses|
        invariant totalAmount == TotalAmount(expenses[..i])
      {
        TotalAmountStep(expenses, i);
        totalAmount := totalAmount + expenses[i].amount;
      }
      var categoryTotals: map<string, real> := map[];
      for i := 0 to |expenses|
        invariant categoryTotals == CategoryTotals(expenses[..i])
      {
        CategoryTotalsStep(expenses, i);
        var cat := expenses[i].category;
        categoryTotals := categoryTotals[cat := (if cat in categoryTotals then categoryTotals[cat] else 0.0) + expenses[i].amount];
      }
      assert expenses[..|expenses|] == expenses;
      CategoryTotalsAddUp(expenses);
      summary := Some(Summary(totalAmount, categoryTotals));
    }
  }
}
