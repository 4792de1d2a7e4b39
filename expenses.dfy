/**
 * Expense records and the meaning of the ledger's read-side queries:
 * the case-insensitive category filter, the total and the per-category
 * totals.
 */
module Expenses {
  import opened Text
  import opened Dates

  /** An expense entry. Its fields never change after construction. */
  datatype Expense = Expense(id: int, amount: real, category: string, date: Date, description: string)

  /** What the add flow lets into the ledger: a positive amount and a trimmed, non-empty category. */
  predicate Admissible(e: Expense) {
    e.amount > 0.0 && e.category != [] && IsTrimmed(e.category)
  }

  // ---------------------------------------------------------------------
  // Category filter

  predicate MatchesCategory(e: Expense, query: string) {
    EqualsIgnoreCase(e.category, query)
  }

  /** The entries whose category equals the query ignoring case, in ledger order. */
  function FilterByCategory(s: seq<Expense>, query: string): (r: seq<Expense>)
    ensures |r| <= |s|
    ensures forall e :: e in r ==> e in s && MatchesCategory(e, query)
  {
    if s == [] then []
    else
      var e := s[|s| - 1];
      FilterByCategory(s[..|s| - 1], query) + if MatchesCategory(e, query) then [e] else []
  }

  /** a is b with some entries left out, the rest kept in order. */
  predicate IsSubsequence<T(==)>(a: seq<T>, b: seq<T>) {
    if a == [] then true
    else if b == [] then false
    else if a[|a| - 1] == b[|b| - 1] then IsSubsequence(a[..|a| - 1], b[..|b| - 1])
    else IsSubsequence(a, b[..|b| - 1])
  }

  /** The filter keeps the ledger's order. */
  lemma {:induction false} FilterIsSubsequence(s: seq<Expense>, query: string)
    ensures IsSubsequence(FilterByCategory(s, query), s)
  {
    if s != [] {
      var p := s[..|s| - 1];
      var e := s[|s| - 1];
      FilterIsSubsequence(p, query);
      if MatchesCategory(e, query) {
        assert FilterByCategory(s, query)[..|FilterByCategory(s, query)| - 1] == FilterByCategory(p, query);
      } else {
        assert FilterByCategory(s, query) == FilterByCategory(p, query);
        SubsequenceOfPrefix(FilterByCategory(p, query), s);
      }
    }
  }

  /** A subsequence of the prefix b[..|b|-1] is a subsequence of b. */
  lemma {:induction false} SubsequenceOfPrefix<T>(a: seq<T>, b: seq<T>)
    requires b != [] && IsSubsequence(a, b[..|b| - 1])
    ensures IsSubsequence(a, b)
    decreases |b|, 0
  {
    if a != [] && a[|a| - 1] == b[|b| - 1] {
      SubsequenceDropLast(a, b[..|b| - 1]);
    }
  }

  /** Leaving out the last entry of a subsequence keeps it a subsequence. */
  lemma {:induction false} SubsequenceDropLast<T>(a: seq<T>, b: seq<T>)
    requires a != [] && IsSubsequence(a, b)
    ensures IsSubsequence(a[..|a| - 1], b)
    decreases |b|, 1
  {
    if a[|a| - 1] == b[|b| - 1] {
      SubsequenceOfPrefix(a[..|a| - 1], b);
    } else {
      SubsequenceDropLast(a, b[..|b| - 1]);
      SubsequenceOfPrefix(a[..|a| - 1], b);
    }
  }

  /** An entry is in the filtered list exactly when it is in the ledger and matches. */
  lemma {:induction false} FilterMembership(s: seq<Expense>, query: string, e: Expense)
    ensures e in FilterByCategory(s, query) <==> e in s && MatchesCategory(e, query)
  {
    if s != [] {
      var p := s[..|s| - 1];
      assert s == p + [s[|s| - 1]];
      FilterMembership(p, query, e);
    }
  }

  /** Filtering distributes over concatenation: the filter is decided entry by entry. */
  lemma {:induction false} FilterAppend(a: seq<Expense>, b: seq<Expense>, query: string)
    ensures FilterByCategory(a + b, query) == FilterByCategory(a, query) + FilterByCategory(b, query)
  {
    if b == [] {
      assert a + b == a;
    } else {
      var p := b[..|b| - 1];
      var e := b[|b| - 1];
      assert (a + b)[..|a + b| - 1] == a + p;
      assert (a + b)[|a + b| - 1] == e;
      FilterAppend(a, p, query);
    }
  }

  /** One more entry of the ledger is kept exactly when it matches. */
  lemma FilterStep(s: seq<Expense>, query: string, i: nat)
    requires i < |s|
    ensures FilterByCategory(s[..i + 1], query)
         == FilterByCategory(s[..i], query) + if MatchesCategory(s[i], query) then [s[i]] else []
  {
    assert s[..i + 1][..i] == s[..i];
  }

  /** A single entry is kept exactly when its category matches. */
  lemma FilterSingle(e: Expense, query: string)
    ensures FilterByCategory([e], query) == if MatchesCategory(e, query) then [e] else []
  {
    assert [e][..0] == [];
  }

  lemma EqualsIgnoreCaseTransitive(a: string, b: string, c: string)
    requires EqualsIgnoreCase(a, b) && EqualsIgnoreCase(b, c)
    ensures EqualsIgnoreCase(a, c)
  {
  }

  /** Queries that differ only in letter case select the same entries. */
  lemma {:induction false} FilterCaseInsensitive(s: seq<Expense>, q1: string, q2: string)
    requires EqualsIgnoreCase(q1, q2)
    ensures FilterByCategory(s, q1) == FilterByCategory(s, q2)
  {
    if s != [] {
      var e := s[|s| - 1];
      FilterCaseInsensitive(s[..|s| - 1], q1, q2);
      if MatchesCategory(e, q1) {
        EqualsIgnoreCaseTransitive(e.category, q1, q2);
      }
      if MatchesCategory(e, q2) {
        EqualsIgnoreCaseTransitive(e.category, q2, q1);
      }
    }
  }

  /** "food" and "FOOD" pick out the same entries, among them those stored as "Food". */
  lemma FoodQueryExample(s: seq<Expense>, e: Expense)
    requires e in s && e.category == "Food"
    ensures FilterByCategory(s, "food") == FilterByCategory(s, "FOOD")
    ensures e in FilterByCategory(s, "food")
  {
    assert EqualsIgnoreCase("food", "FOOD");
    FilterCaseInsensitive(s, "food", "FOOD");
    assert EqualsIgnoreCase("Food", "food");
    FilterMembership(s, "food", e);
  }

  // ---------------------------------------------------------------------
  // Summary

  /** The sum of all amounts, added in ledger order. */
  function TotalAmount(s: seq<Expense>): (total: real)
  {
    if s == [] then 0.0 else TotalAmount(s[..|s| - 1]) + s[|s| - 1].amount
  }

  lemma {:induction false} TotalAppend(a: seq<Expense>, b: seq<Expense>)
    ensures TotalAmount(a + b) == TotalAmount(a) + TotalAmount(b)
  {
    if b == [] {
      assert a + b == a;
    } else {
      assert (a + b)[..|a + b| - 1] == a + b[..|b| - 1];
      TotalAppend(a, b[..|b| - 1]);
    }
  }

  /** One more entry of the ledger adds its amount to the running total. */
  lemma TotalAmountStep(s: seq<Expense>, i: nat)
    requires i < |s|
    ensures TotalAmount(s[..i + 1]) == TotalAmount(s[..i]) + s[i].amount
  {
    assert s[..i + 1][..i] == s[..i];
  }

  /** A non-empty ledger of admissible entries has a positive total. */
  lemma {:induction false} TotalPositive(s: seq<Expense>)
    requires s != [] && forall i :: 0 <= i < |s| ==> Admissible(s[i])
    ensures TotalAmount(s) > 0.0
  {
    if |s| > 1 {
      TotalPositive(s[..|s| - 1]);
    }
  }

  /** The distinct category strings in the ledger, compared exactly. */
  function Categories(s: seq<Expense>): (cs: set<string>)
  {
    set e | e in s :: e.category
  }

  /** Sum of the amounts of the entries whose category is exactly c. */
  function CategorySum(s: seq<Expense>, c: string): (sum: real)
  {
    if s == [] then 0.0
    else CategorySum(s[..|s| - 1], c) + if s[|s| - 1].category == c then s[|s| - 1].amount else 0.0
  }

  /**
   * The breakdown by category: each entry adds its amount to the running
   * sum under its exact category string, starting from 0.
   */
  function CategoryTotals(s: seq<Expense>): (m: map<string, real>)
    ensures m.Keys == Categories(s)
  {
    if s == [] then map[]
    else
      var p := s[..|s| - 1];
      var e := s[|s| - 1];
      var m := CategoryTotals(p);
      assert Categories(s) == Categories(p) + {e.category} by {
        assert s == p + [e];
      }
      m[e.category := (if e.category in m then m[e.category] else 0.0) + e.amount]
  }

  /** One more entry of the ledger adds its amount under its category. */
  lemma CategoryTotalsStep(s: seq<Expense>, i: nat)
    requires i < |s|
    ensures var m := CategoryTotals(s[..i]); var c := s[i].category;
      CategoryTotals(s[..i + 1]) == m[c := (if c in m then m[c] else 0.0) + s[i].amount]
  {
    assert s[..i + 1][..i] == s[..i];
  }

  /** Each category's running sum is the sum of that category's amounts. */
  lemma {:induction false} CategoryTotalsAreSums(s: seq<Expense>, c: string)
    ensures c in CategoryTotals(s) ==> CategoryTotals(s)[c] == CategorySum(s, c)
    ensures c !in CategoryTotals(s) ==> CategorySum(s, c) == 0.0
  {
    if s != [] {
      CategoryTotalsAreSums(s[..|s| - 1], c);
    }
  }

  // ---------------------------------------------------------------------
  // Sums of map values

  /** The sum of m's values over the given keys. */
  ghost function SumOver(m: map<string, real>, keys: set<string>): (sum: real)
    requires keys <= m.Keys
  {
    if keys == {} then 0.0
    else
      var k :| k in keys;
      m[k] + SumOver(m, keys - {k})
  }

  ghost function SumValues(m: map<string, real>): (sum: real)
  {
    SumOver(m, m.Keys)
  }

  /** Any key may be taken out first. */
  lemma {:induction false} SumOverRemove(m: map<string, real>, keys: set<string>, k: string)
    requires keys <= m.Keys && k in keys
    ensures SumOver(m, keys) == m[k] + SumOver(m, keys - {k})
    decreases keys
  {
    var k' :| k' in keys && SumOver(m, keys) == m[k'] + SumOver(m, keys - {k'});
    if k' != k {
      SumOverRemove(m, keys - {k'}, k);
      SumOverRemove(m, keys - {k}, k');
      assert keys - {k'} - {k} == keys - {k} - {k'};
    }
  }

  /** The sum only looks at the values under the given keys. */
  lemma {:induction false} SumOverFrame(m: map<string, real>, m': map<string, real>, keys: set<string>)
    requires keys <= m.Keys && keys <= m'.Keys
    requires forall k :: k in keys ==> m[k] == m'[k]
    ensures SumOver(m, keys) == SumOver(m', keys)
    decreases keys
  {
    if keys != {} {
      var k :| k in keys && SumOver(m, keys) == m[k] + SumOver(m, keys - {k});
      SumOverRemove(m', keys, k);
      SumOverFrame(m, m', keys - {k});
    }
  }

  /** Adding v under key c raises the sum of the values by v. */
  lemma AddToKey(m: map<string, real>, c: string, v: real)
    ensures SumValues(m[c := (if c in m then m[c] else 0.0) + v]) == SumValues(m) + v
  {
    var m' := m[c := (if c in m then m[c] else 0.0) + v];
    if c in m {
      assert m'.Keys == m.Keys;
      SumOverRemove(m', m.Keys, c);
      SumOverRemove(m, m.Keys, c);
      SumOverFrame(m, m', m.Keys - {c});
    } else {
      assert m'.Keys - {c} == m.Keys;
      SumOverRemove(m', m'.Keys, c);
      SumOverFrame(m, m', m.Keys);
    }
  }

  /** The per-category totals add up to the overall total. */
  lemma {:induction false} CategoryTotalsAddUp(s: seq<Expense>)
    ensures SumValues(CategoryTotals(s)) == TotalAmount(s)
  {
    if s != [] {
      var e := s[|s| - 1];
      CategoryTotalsAddUp(s[..|s| - 1]);
      AddToKey(CategoryTotals(s[..|s| - 1]), e.category, e.amount);
    }
  }

  /** Two expenses, "Food" 12.50 and "Transport" 7.00, sum to 19.50 with one total per category. */
  lemma SummaryScenario(d1: Date, d2: Date)
    ensures var s := [Expense(1, 12.5, "Food", d1, "Lunch"), Expense(2, 7.0, "Transport", d2, "Bus")];
      TotalAmount(s) == 19.5 && CategoryTotals(s) == map["Food" := 12.5, "Transport" := 7.0]
  {
    var s := [Expense(1, 12.5, "Food", d1, "Lunch"), Expense(2, 7.0, "Transport", d2, "Bus")];
    assert s[..1] == [s[0]] && s[..1][..0] == [];
    assert TotalAmount(s[..1]) == 12.5;
    assert CategoryTotals(s[..1]) == map["Food" := 12.5];
    assert "Food" != "Transport";
  }
}
