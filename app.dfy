/**
 * The console session: the menu loop of the application's entry point,
 * reading one line at a time. The scanner is a sequence of input lines;
 * console output becomes a sequence of events.
 */
module App {
  import opened Wrappers
  import opened Text
  import opened Dates
  import opened Amounts
  import opened Expenses
  import opened Tracker
  import opened Menu

  datatype AddError =
    | AmountRejected(reason: AmountError)  // the amount line does not give a positive number
    | CategoryRequired                     // "Category is required!"

  /** What the add flow has read once every check passed. */
  datatype Draft = Draft(amount: real, category: string, dateStr: string, description: string)

  /** The add flow's reading of its lines: complete, refused at a check, or cut short by the end of input. */
  datatype Form = Filled(draft: Draft, next: nat) | Refused(error: AddError, next: nat) | Truncated

  /**
   * The add flow's input lines from k on: amount, category, date and
   * description, each trimmed. A refused amount or an empty category ends
   * the iteration right there, so the lines after it are read as the next
   * menu choice. A blank date becomes today's date in "yyyy-MM-dd" form.
   */
  function ReadAddForm(input: seq<string>, k: nat, today: Date): (f: Form)
    requires IsFourDigitDate(today)
    ensures f.Filled? ==> f.draft.amount > 0.0 && f.draft.category != [] && IsTrimmed(f.draft.category)
    ensures f.Filled? ==> f.next == k + 4 <= |input|
    ensures f.Refused? ==> k < f.next <= k + 2 && f.next <= |input|
    ensures f.Truncated? ==> k + 4 > |input|
  {
    if k >= |input| then Truncated
    else match AmountGate(ParseDouble(Trim(input[k])))
      case Failure(reason) => Refused(AmountRejected(reason), k + 1)
      case Success(amount) =>
        if k + 1 >= |input| then Truncated
        else
          var category := Trim(input[k + 1]);
          if category == [] then Refused(CategoryRequired, k + 2)
          else if k + 3 >= |input| then Truncated
          else
            var dateStr := Trim(input[k + 2]);
            Filled(Draft(amount, category, if dateStr == [] then FormatIsoDate(today) else dateStr, Trim(input[k + 3])), k + 4)
  }

  /** The amount line is refused exactly when the amount check fails, and then nothing else is read. */
  lemma AddFormAmountRefusal(input: seq<string>, k: nat, today: Date, reason: AmountError)
    requires IsFourDigitDate(today) && k < |input|
    ensures ReadAddForm(input, k, today) == Refused(AmountRejected(reason), k + 1)
        <==> AmountGate(ParseDouble(Trim(input[k]))) == Failure(reason)
  {
  }

  /** The category is refused exactly when the amount passed and the trimmed category line is empty. */
  lemma AddFormCategoryRefusal(input: seq<string>, k: nat, today: Date)
    requires IsFourDigitDate(today) && k + 1 < |input|
    ensures ReadAddForm(input, k, today).Refused? && ReadAddForm(input, k, today).error == CategoryRequired
        <==> AmountGate(ParseDouble(Trim(input[k]))).Success? && Trim(input[k + 1]) == []
  {
  }

  /**
   * The date a filled form gives its expense: today for a blank date line,
   * otherwise the parsed date line, or today again when it does not parse.
   */
  lemma AddFormDate(input: seq<string>, k: nat, today: Date)
    requires IsFourDigitDate(today) && k + 3 < |input|
    requires AmountGate(ParseDouble(Trim(input[k]))).Success? && Trim(input[k + 1]) != []
    ensures ReadAddForm(input, k, today).Filled?
    ensures var d := ReadAddForm(input, k, today).draft;
      ResolveDate(d.dateStr, today) == if Trim(input[k + 2]) == [] then today else ResolveDate(Trim(input[k + 2]), today)
  {
    if Trim(input[k + 2]) == [] {
      BlankDateResolvesToToday(today);
    }
  }

  /** What one menu iteration shows or does. */
  datatype Event =
    | Added(expense: Expense, dateWarning: bool)   // "Expense added successfully!"
    | AddRefused(error: AddError)
    | Listed(all: seq<Expense>)                    // view all; empty: "No expenses recorded yet."
    | Filtered(category: string, found: seq<Expense>)  // empty: "No expenses found for category: ..."
    | CategoryMissing                              // "Please enter a category."
    | Summarized(summary: Option<Summary>)         // None: "No expenses to summarize."
    | Invalid                                      // "Invalid choice! Please enter 1-5."
    | Goodbye                                      // choice 5 ends the loop
    | InputEnded                                   // nextLine found no more input

  /** The events after which the loop does not continue. */
  predicate IsFinal(e: Event) {
    e.Goodbye? || e.InputEnded?
  }

  /** The summary a ledger gives, None when it is empty. */
  function SummaryOf(s: seq<Expense>): (summary: Option<Summary>)
  {
    if s == [] then None else Some(Summary(TotalAmount(s), CategoryTotals(s)))
  }

  /** The expenses a run of events recorded, in order. */
  function AddedExpenses(events: seq<Event>): (added: seq<Expense>)
  {
    if events == [] then []
    else AddedExpenses(events[..|events| - 1]) + match events[|events| - 1]
      case Added(e, _) => [e]
      case _ => []
  }

  /** What the add flow does from line k on, for a tracker whose counter stands at nextId. */
  ghost predicate AddOutcome(input: seq<string>, k: nat, today: Date, nextId: int, event: Event, next: nat)
    requires IsFourDigitDate(today)
  {
    match ReadAddForm(input, k, today)
    case Filled(d, n) =>
      event == Added(Expense(nextId, d.amount, d.category, ResolveDate(d.dateStr, today), d.description),
                     ParseIsoDate(d.dateStr).None?)
      && next == n
    case Refused(error, n) => event == AddRefused(error) && next == n
    case Truncated => event == InputEnded && next == |input|
  }

  /**
   * What one menu iteration starting at the choice line input[pos] shows,
   * for a tracker holding ledger with its counter at nextId.
   */
  ghost predicate StepOutcome(input: seq<string>, pos: nat, today: Date, ledger: seq<Expense>, nextId: int,
                              event: Event, next: nat)
    requires pos < |input| && IsFourDigitDate(today)
  {
    match DecodeChoice(input[pos])
    case AddCommand => AddOutcome(input, pos + 1, today, nextId, event, next)
    case ViewAll => event == Listed(ledger) && next == pos + 1
    case ViewByCategory =>
      if pos + 1 == |input| then event == InputEnded && next == |input|
      else if Trim(input[pos + 1]) == [] then event == CategoryMissing && next == pos + 2
      else event == Filtered(Trim(input[pos + 1]), FilterByCategory(ledger, Trim(input[pos + 1]))) && next == pos + 2
    case Summarize => event == Summarized(SummaryOf(ledger)) && next == pos + 1
    case Exit => event == Goodbye && next == pos + 1
    case InvalidChoice => event == Invalid && next == pos + 1
  }

  /**
   * The add flow: reads the form and, when every check passes, constructs
   * the next expense and appends it to the ledger.
   */
  method AddFlow(tracker: ExpenseTracker, input: seq<string>, k: nat, today: Date) returns (event: Event, next: nat)
    requires k <= |input| && tracker.Valid() && IsFourDigitDate(today)
    modifies tracker
    ensures tracker.Valid()
    ensures k < next <= |input| || (next == |input| && event == InputEnded)
    ensures AddOutcome(input, k, today, old(tracker.nextId), event, next)
    ensures event.Added? ==> tracker.expenses == old(tracker.expenses) + [event.expense]
    ensures !event.Added? ==> tracker.expenses == old(tracker.expenses) && tracker.nextId == old(tracker.nextId)
  {
    var form := ReadAddForm(input, k, today);
    match form {
      case Filled(d, n) =>
        var e, dateWarning := tracker.NewExpense(d.amount, d.category, d.dateStr, d.description, today);
        tracker.AddExpense(e);
        event, next := Added(e, dateWarning), n;
      case Refused(error, n) =>
        event, next := AddRefused(error), n;
      case Truncated =>
        event, next := InputEnded, |input|;
    }
  }

  lemma ConcatAssoc<T>(a: seq<T>, b: seq<T>, c: seq<T>)
    ensures a + b + c == a + (b + c)
  {
  }

  lemma AddedExpensesSnoc(events: seq<Event>, e: Event)
    ensures AddedExpenses(events + [e]) == AddedExpenses(events) + if e.Added? then [e.expense] else []
  {
    assert (events + [e])[..|events|] == events;
  }

  /**
   * One iteration of the menu loop, starting at the choice line input[pos].
   * Only a filled add form changes the tracker: it constructs the next
   * expense and appends it. Every other outcome leaves ledger and counter as
   * they were.
   */
  method Step(tracker: ExpenseTracker, input: seq<string>, pos: nat, today: Date) returns (event: Event, next: nat)
    requires pos < |input| && tracker.Valid() && IsFourDigitDate(today)
    modifies tracker
    ensures tracker.Valid()
    ensures pos < next <= |input|
    ensures StepOutcome(input, pos, today, old(tracker.expenses), old(tracker.nextId), event, next)
    ensures event.Added? ==> tracker.expenses == old(tracker.expenses) + [event.expense]
    ensures !event.Added? ==> tracker.expenses == old(tracker.expenses) && tracker.nextId == old(tracker.nextId)
  {
    var choice := DecodeChoice(input[pos]);
    match choice {
      case AddCommand =>
        event, next := AddFlow(tracker, input, pos + 1, today);
      case ViewAll =>
        var all := tracker.ViewAllExpenses();
        event, next := Listed(all), pos + 1;
      case ViewByCategory =>
        if pos + 1 == |input| {
          event, next := InputEnded, |input|;
        } else {
          var category := Trim(input[pos + 1]);
          if category != [] {
            var found := tracker.ViewExpensesByCategory(category);
            event := Filtered(category, found);
          } else {
            event := CategoryMissing;
          }
          next := pos + 2;
        }
      case Summarize =>
        var summary := tracker.SummarizeExpenses();
        event, next := Summarized(summary), pos + 1;
      case Exit =>
        event, next := Goodbye, pos + 1;
      case InvalidChoice =>
        event, next := Invalid, pos + 1;
    }
  }

  /**
   * One iteration beginning at line pos for a tracker holding ledger (its
   * counter one past it): the menu step of that line, or the end of input
   * when pos is past the last line.
   */
  ghost predicate IterationOutcome(input: seq<string>, pos: nat, today: Date, ledger: seq<Expense>,
                                   event: Event, next: nat)
    requires IsFourDigitDate(today)
  {
    if pos < |input| then StepOutcome(input, pos, today, ledger, |ledger| + 1, event, next)
    else event == InputEnded
  }

  /**
   * The session read from input, starting from a tracker holding start:
   * iteration i begins at line poss[i] and ends at poss[i + 1], against the
   * start plus what the earlier iterations added.
   */
  ghost predicate Trace(input: seq<string>, today: Date, start: seq<Expense>, events: seq<Event>, poss: seq<nat>)
    requires IsFourDigitDate(today)
  {
    |poss| == |events| + 1 && poss[0] == 0 &&
    forall i :: 0 <= i < |events| ==>
      IterationOutcome(input, poss[i], today, start + AddedExpenses(events[..i]), events[i], poss[i + 1])
  }

  lemma TraceSnoc(input: seq<string>, today: Date, start: seq<Expense>, events: seq<Event>, poss: seq<nat>,
                  event: Event, next: nat)
    requires IsFourDigitDate(today) && Trace(input, today, start, events, poss)
    requires IterationOutcome(input, poss[|events|], today, start + AddedExpenses(events), event, next)
    ensures Trace(input, today, start, events + [event], poss + [next])
  {
    var events', poss' := events + [event], poss + [next];
    forall i | 0 <= i < |events'|
      ensures IterationOutcome(input, poss'[i], today, start + AddedExpenses(events'[..i]), events'[i], poss'[i + 1])
    {
      if i < |events| {
        assert events'[..i] == events[..i];
        assert poss'[i] == poss[i] && poss'[i + 1] == poss[i + 1] && events'[i] == events[i];
      } else {
        assert events'[..i] == events;
      }
    }
  }

  /**
   * An iteration says goodbye exactly when it begins at a line trimming to
   * "5"; past the last line it reports the end of input instead.
   */
  lemma GoodbyeOnlyOnExit(input: seq<string>, pos: nat, today: Date, ledger: seq<Expense>, event: Event, next: nat)
    requires IsFourDigitDate(today) && IterationOutcome(input, pos, today, ledger, event, next)
    ensures event == Goodbye <==> pos < |input| && Trim(input[pos]) == "5"
  {
    if pos < |input| {
      ExitOnlyOnFive(input[pos]);
    }
  }

  /**
   * A session that ran to its end said goodbye exactly when its last
   * iteration began at a line trimming to "5", and no earlier iteration
   * began at such a line.
   */
  lemma SessionStopsAtFirstFive(input: seq<string>, today: Date, start: seq<Expense>, events: seq<Event>,
                                poss: seq<nat>)
    requires IsFourDigitDate(today) && Trace(input, today, start, events, poss)
    requires events != [] && IsFinal(events[|events| - 1])
    requires forall i :: 0 <= i < |events| - 1 ==> !IsFinal(events[i])
    ensures var n := |events| - 1;
      events[n] == Goodbye <==> poss[n] < |input| && Trim(input[poss[n]]) == "5"
    ensures forall i :: 0 <= i < |events| - 1 && poss[i] < |input| ==> Trim(input[poss[i]]) != "5"
  {
    forall i | 0 <= i < |events| - 1 && poss[i] < |input|
      ensures Trim(input[poss[i]]) != "5"
    {
      GoodbyeOnlyOnExit(input, poss[i], today, start + AddedExpenses(events[..i]), events[i], poss[i + 1]);
    }
    var n := |events| - 1;
    GoodbyeOnlyOnExit(input, poss[n], today, start + AddedExpenses(events[..n]), events[n], poss[n + 1]);
  }

  /**
   * The menu loop: runs iterations until choice 5 or the end of input.
   * The ledger only grows, by exactly the expenses the Added events report.
   */
  method RunSession(tracker: ExpenseTracker, input: seq<string>, today: Date)
    returns (events: seq<Event>, ghost poss: seq<nat>)
    requires tracker.Valid() && IsFourDigitDate(today)
    modifies tracker
    ensures tracker.Valid()
    ensures Trace(input, today, old(tracker.expenses), events, poss)
    ensures tracker.expenses == old(tracker.expenses) + AddedExpenses(events)
    ensures events != [] && IsFinal(events[|events| - 1])
    ensures forall i :: 0 <= i < |events| - 1 ==> !IsFinal(events[i])
  {
    var pos := 0;
    events := [];
    poss := [0];
    ghost var added: seq<Expense> := [];
    while true
      invariant pos <= |input|
      invariant Trace(input, today, old(tracker.expenses), events, poss) && poss[|events|] == pos
      invariant tracker.Valid()
      invariant added == AddedExpenses(events)
      invariant tracker.expenses == old(tracker.expenses) + added
      invariant forall i :: 0 <= i < |events| ==> !IsFinal(events[i])
      decreases |input| - pos
    {
      var event, next;
      if pos == |input| {
        event, next := InputEnded, pos;
      } else {
        event, next := Step(tracker, input, pos, today);
      }
      ghost var extra := if event.Added? then [event.expense] else [];
      assert tracker.expenses == old(tracker.expenses) + added + extra;
      ConcatAssoc(old(tracker.expenses), added, extra);
      AddedExpensesSnoc(events, event);
      TraceSnoc(input, today, old(tracker.expenses), events, poss, event, next);
      events := events + [event];
      poss := poss + [next];
      added := added + extra;
      assert tracker.expenses == old(tracker.expenses) + added;
      if IsFinal(event) {
        return;
      }
      pos := next;
    }
  }

  /**
   * The application's entry point on a fresh tracker: the recorded
   * expenses are exactly those the Added events report, with ids 1, 2,
   * 3, ... in ledger order, each with a positive amount and a trimmed,
   * non-empty category.
   */
  method RunExpenseTracker(input: seq<string>, today: Date)
    returns (events: seq<Event>, ledger: seq<Expense>, ghost poss: seq<nat>)
    requires IsFourDigitDate(today)
    ensures Trace(input, today, [], events, poss)
    ensures ledger == AddedExpenses(events)
    ensures forall i :: 0 <= i < |ledger| ==> ledger[i].id == i + 1 && Admissible(ledger[i])
    ensures events != [] && IsFinal(events[|events| - 1])
    ensures forall i :: 0 <= i < |events| - 1 ==> !IsFinal(events[i])
  {
    var tracker := new ExpenseTracker();
    events, poss := RunSession(tracker, input, today);
    ledger := tracker.expenses;
  }
}
