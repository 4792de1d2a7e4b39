# Expense ledger of the console Expense Tracker, in Dafny

This project models the expense ledger of `ExpenseTrackerApp.java`: the
`Expense` record and its id counter, the `ExpenseTracker` list with its
append, its case-insensitive category filter and its summary (total plus
per-category totals), and the menu loop of `ExpenseTrackerApp.main` that
validates the add form and dispatches the five menu choices.

Modules, one per concern:

- `Text` (text.dfy): Java's `String.trim`, `equalsIgnoreCase` on ASCII
  letters, and fixed-width decimal digits.
- `Dates` (dates.dfy): `LocalDate.parse`/`format` with the pattern
  `yyyy-MM-dd`, and the constructor's fallback to today's date.
- `Amounts` (amounts.dfy): `Double.parseDouble` on the amount line and the
  add flow's positivity check (see Findings).
- `Expenses` (expenses.dfy): the `Expense` record and the meaning of the
  queries as functions: `FilterByCategory`, `TotalAmount`, `CategoryTotals`,
  with an independent per-category sum `CategorySum` and the sum of a map's
  values.
- `Tracker` (tracker.dfy): class `ExpenseTracker` with the fields
  `expenses: seq<Expense>` and `nextId: int`; its methods are proved
  against the functions of `Expenses`.
- `Menu` (menu.dfy): decoding of the choice line into a `Choice`.
- `App` (app.dfy): the add form, one menu iteration (`Step`), the loop
  (`RunSession`) and the entry point on a fresh tracker (`RunExpenseTracker`).

The scanner is a sequence of input lines, `LocalDate.now()` is the
parameter `today`, and each iteration's console output is an `Event`
(`Added`, `AddRefused`, `Listed`, `Filtered`, `CategoryMissing`,
`Summarized`, `Invalid`, `Goodbye`, `InputEnded`). Amounts are exact
`real`s. The static counter `Expense.nextId` is a field of the tracker:
the program creates one tracker, so the ids are the same.

The central invariant, `ExpenseTracker.Valid()`, says that the ids in the
ledger are 1, 2, 3, ... in ledger order, that the counter is one past the
last id, and that every entry has a positive amount and a trimmed, non-empty
category. Every menu iteration keeps it, and an iteration changes ledger or
counter only when it adds an expense.

The whole session is tied to its input by `App.Trace`: iteration i starts
at the line where iteration i - 1 ended and is the menu step of that line
against the ledger built so far, so the events, and with them the ledger,
are those of the input read line by line.

Where the code and its description differ, the model follows the code:

- The date pattern is read with Java's default SMART resolver, so a day
  past the end of the month (`2023-02-30`) is lowered to the month's last
  day rather than rejected; only day numbers outside 1..31, months outside
  1..12, year 0 and malformed text fall back to today.
- A blank date line is replaced by today's date formatted as `yyyy-MM-dd`,
  which the constructor parses again; `Dates.BlankDateResolvesToToday`
  proves that this gives today.
- A refused amount or an empty category ends the iteration at once, so the
  following input lines are read as the next menu choice.

## Model

| member | source | states |
|---|---|---|
| Text.Trim | ExpenseTrackerApp.java:138 | the trimmed choice line neither starts nor ends with a character at most U+0020 |
| Text.TrimBounds | ExpenseTrackerApp.java:138 | trim returns an infix of its input whose dropped prefix and suffix are all characters at most U+0020 |
| Text.TrimIgnoresPadding | ExpenseTrackerApp.java:138 | surrounding a line with characters at most U+0020 does not change its trimmed text |
| Text.TrimIdempotent | ExpenseTrackerApp.java:155 | trimming an already trimmed category changes nothing |
| Text.PadDigitsRoundTrip | ExpenseTrackerApp.java:164 | reading back a zero-padded number of the pattern's width gives the number |
| Text.DigitsRoundTrip | ExpenseTrackerApp.java:26 | printing a field's digits back at the field's width reproduces the text |
| Text.EqualsIgnoreCase | ExpenseTrackerApp.java:77 | by definition: same length and equal characters position by position once ASCII upper-case letters are folded to lower case |
| Dates.DaysInMonth | ExpenseTrackerApp.java:26 | months have 28 to 31 days, 29 exactly for February of a Gregorian leap year |
| Dates.ResolveDate | ExpenseTrackerApp.java:25-30 | by definition: the parsed date when the text parses, today (the exception's fallback) when it does not |
| Dates.ParseIsoDate | ExpenseTrackerApp.java:26 | a parsed date comes from text shaped dddd-dd-dd, is a valid date with a four-digit year, takes year and month from the text and a day at most the written one |
| Dates.FormatIsoDate | ExpenseTrackerApp.java:164 | a date with a four-digit year formats as text shaped dddd-dd-dd |
| Dates.ParseFormatRoundTrip | ExpenseTrackerApp.java:164 | parsing the formatted form of a date gives that date back |
| Dates.FormatParsed | ExpenseTrackerApp.java:26 | formatting a parsed date reproduces the text except the day, and reproduces it entirely exactly when the day was not clamped |
| Dates.ResolveDateValid | ExpenseTrackerApp.java:25-30 | the constructor's date is always valid: the parsed date whenever the text parses, and today whenever it does not |
| Dates.BlankDateResolvesToToday | ExpenseTrackerApp.java:163-165 | a blank date line, replaced by today's formatted date, resolves to today |
| Dates.ParseWellFormedExample | ExpenseTrackerApp.java:26 | "2024-01-15" reads as 15 January 2024 |
| Dates.ParseClampedExample | ExpenseTrackerApp.java:26 | "2023-02-30" reads as 28 February 2023 |
| Dates.ParseRejectedExample | ExpenseTrackerApp.java:25-30 | "2024-13-45" does not parse and the expense is dated today |
| Amounts.ParseDouble | ExpenseTrackerApp.java:144 | a blank or empty line never parses (NumberFormatException), and a negative number is read only from text starting with a minus sign after trimming |
| Amounts.ParseLiteral | ExpenseTrackerApp.java:144 | on text without surrounding whitespace: the empty text never parses, and a negative number is read only from text starting with a minus sign |
| Amounts.ParseDigits | ExpenseTrackerApp.java:144 | a run of digits parses as the number it denotes |
| Amounts.LiteralNegated | ExpenseTrackerApp.java:144 | on text without surrounding whitespace whose first character is no sign: a leading minus negates a finite number, makes Infinity negative, keeps NaN, and leaves unparsable text unparsable |
| Amounts.ParseNegated | ExpenseTrackerApp.java:144 | the same for parseDouble on a non-empty trimmed line whose first character is no sign |
| Amounts.ParseScenarioAmounts | ExpenseTrackerApp.java:144 | "12.50" and "7.00" parse as 12.5 and 7 |
| Amounts.ParseRejectedAmounts | ExpenseTrackerApp.java:144-152 | "-3" parses and is refused as not positive; "abc" is refused as not a number |
| Amounts.AmountGateAsWritten | ExpenseTrackerApp.java:144-152 | as written, an amount passes exactly when it parses and does not compare at most zero |
| Amounts.AsWrittenAdmitsNaN | ExpenseTrackerApp.java:144-148 | as written, "NaN" and "Infinity" parse and pass the check |
| Amounts.AmountGate | ExpenseTrackerApp.java:144-152 | an amount passes exactly when it parses to a finite number greater than zero, and the value passed is that number |
| Amounts.AmountGateAgreesElsewhere | ExpenseTrackerApp.java:144-152 | the intended check and the written one agree on every input except NaN and +Infinity, with the same error |
| Amounts.AmountGateRejectsNaN | ExpenseTrackerApp.java:144-152 | the intended check refuses NaN and +Infinity as not a number |
| Expenses.FilterByCategory | ExpenseTrackerApp.java:74-80 | every filtered entry is a ledger entry whose category equals the query ignoring case, and there are at most as many as in the ledger |
| Expenses.FilterMembership | ExpenseTrackerApp.java:74-80 | an entry is in the filtered list if and only if it is in the ledger and its category equals the query ignoring case |
| Expenses.FilterIsSubsequence | ExpenseTrackerApp.java:74-80 | the filtered list is a subsequence of the ledger, in ledger order |
| Expenses.FilterAppend | ExpenseTrackerApp.java:76-79 | filtering a concatenation concatenates the filtered parts |
| Expenses.FilterSingle | ExpenseTrackerApp.java:77-78 | a single entry is kept exactly when its category matches |
| Expenses.FilterCaseInsensitive | ExpenseTrackerApp.java:77 | queries equal ignoring case give identical results |
| Expenses.FoodQueryExample | ExpenseTrackerApp.java:77 | "food" and "FOOD" give the same list, containing the entries stored as "Food" |
| Expenses.TotalAmount | ExpenseTrackerApp.java:97-100 | by definition: the amounts added one by one in ledger order, starting from 0 |
| Expenses.TotalAppend | ExpenseTrackerApp.java:97-100 | the total of a concatenation is the sum of the totals |
| Expenses.TotalPositive | ExpenseTrackerApp.java:97-100 | a non-empty ledger of admissible entries has a positive total |
| Expenses.CategoryTotals | ExpenseTrackerApp.java:107-111 | the keys of the breakdown are exactly the category strings stored in the ledger, compared case-sensitively |
| Expenses.CategoryTotalsAreSums | ExpenseTrackerApp.java:107-111 | each category's value is the sum of the amounts stored under exactly that category; an absent category sums to zero |
| Expenses.AddToKey | ExpenseTrackerApp.java:110 | adding an amount to a key's value (0 when absent) raises the sum of the map's values by that amount |
| Expenses.CategoryTotalsAddUp | ExpenseTrackerApp.java:97-111 | the values of the breakdown sum to the total |
| Expenses.SummaryScenario | ExpenseTrackerApp.java:91-111 | Food 12.50 and Transport 7.00 give total 19.50 and the breakdown Food 12.50, Transport 7.00 |
| Tracker.ExpenseTracker.constructor | ExpenseTrackerApp.java:54-56 | a new tracker has an empty ledger and the counter at 1 |
| Tracker.ExpenseTracker.NewExpense | ExpenseTrackerApp.java:19-32 | the new expense takes the counter's value as id, the counter grows by one, the fields are as given, the date resolves with fallback to today, and a warning is shown exactly when the date does not parse |
| Tracker.ExpenseTracker.AddExpense | ExpenseTrackerApp.java:58-61 | the ledger becomes the old ledger with the expense appended |
| Tracker.ExpenseTracker.ViewAllExpenses | ExpenseTrackerApp.java:63-72 | returns the whole ledger in insertion order and changes nothing |
| Tracker.ExpenseTracker.ViewExpensesByCategory | ExpenseTrackerApp.java:74-89 | the loop collects the case-insensitive filter of the ledger: an in-order subsequence holding exactly the matching entries; changes nothing |
| Tracker.ExpenseTracker.SummarizeExpenses | ExpenseTrackerApp.java:91-116 | none exactly for an empty ledger; otherwise the total of all amounts and the per-category map, whose keys are the stored categories and whose values sum to the total; changes nothing |
| Menu.DecodeChoice | ExpenseTrackerApp.java:138-194 | a line is invalid exactly when its trimmed text is not "1" to "5", and a valid choice's menu number is the trimmed text |
| Menu.DecodeChoiceKey | ExpenseTrackerApp.java:140-188 | typing a command's menu number selects that command |
| Menu.DecodeChoicePadded | ExpenseTrackerApp.java:138 | whitespace around the choice does not change it |
| Menu.ExitOnlyOnFive | ExpenseTrackerApp.java:188-191 | the loop's exit is chosen exactly by a line trimming to "5" |
| Menu.UnpaddedNonKeyIsInvalid | ExpenseTrackerApp.java:192-194 | any other trimmed text is an invalid choice |
| Menu.SixIsInvalid | ExpenseTrackerApp.java:192-194 | "6" is an invalid choice |
| Menu.TwoNumbersAreInvalid | ExpenseTrackerApp.java:192-194 | "1 2" is an invalid choice |
| Menu.BlankIsInvalid | ExpenseTrackerApp.java:192-194 | an empty line is an invalid choice |
| Menu.PaddedChoiceExample | ExpenseTrackerApp.java:138 | " 5 " ends the loop |
| App.ReadAddForm | ExpenseTrackerApp.java:141-168 | a filled form has a positive amount and a trimmed non-empty category and used four lines; a refusal used one or two lines; a cut-short form ran out of lines |
| App.AddFormAmountRefusal | ExpenseTrackerApp.java:143-152 | the form is refused at the amount line, with the check's error, exactly when the amount check fails |
| App.AddFormCategoryRefusal | ExpenseTrackerApp.java:154-159 | the form is refused for its category exactly when the amount passed and the trimmed category line is empty |
| App.AddFormDate | ExpenseTrackerApp.java:143-165 | once the amount passes and the category line is non-empty, four lines fill the form; its expense is dated today for a blank date line and by the trimmed date line otherwise |
| App.AddOutcome | ExpenseTrackerApp.java:140-171 | by definition: a filled form records Expense(counter, amount, category, resolved date, description) with a warning exactly when the date text does not parse; a refusal reports its error; a cut-short form is the end of input |
| App.AddFlow | ExpenseTrackerApp.java:140-171 | a filled form constructs the next expense and appends it; a refused or cut-short form changes neither ledger nor counter; the ledger invariant is kept |
| App.Step | ExpenseTrackerApp.java:129-194 | one iteration: the decoded choice determines the event and the next line; only an added expense changes the tracker, by appending it; view, filter, summarize, invalid and exit change nothing |
| App.StepOutcome | ExpenseTrackerApp.java:129-194 | by definition: for each decoded choice, the event shown and the line the next iteration starts at; a category query reads one more line and an empty one is refused |
| App.IterationOutcome | ExpenseTrackerApp.java:129-138 | by definition: the menu step of the line an iteration starts at, or the end of input when no line is left |
| App.Trace | ExpenseTrackerApp.java:129-195 | by definition: iteration i starts where iteration i - 1 ended, at line 0 first, and is the iteration outcome against the starting ledger plus what the earlier iterations added |
| App.TraceSnoc | ExpenseTrackerApp.java:129-195 | a trace extended by one iteration that starts where the trace ended is again a trace |
| App.GoodbyeOnlyOnExit | ExpenseTrackerApp.java:188-191 | an iteration says goodbye exactly when it starts at a line trimming to "5" |
| App.SessionStopsAtFirstFive | ExpenseTrackerApp.java:129-195 | in a finished session no iteration before the last starts at a line trimming to "5", and the last says goodbye exactly when it does |
| App.RunSession | ExpenseTrackerApp.java:129-195 | the events are the trace of the input from the tracker's ledger, so each iteration is the menu step of its own line; the loop keeps the ledger invariant, grows the ledger by exactly the added expenses in order, and stops at the first goodbye or end of input |
| App.RunExpenseTracker | ExpenseTrackerApp.java:123-198 | from a fresh tracker, the events are the trace of the input from an empty ledger, and the ledger is exactly the expenses they added, with ids 1 to n in ledger order, each with a positive amount and a trimmed non-empty category |

## Findings

| source | as written | input that shows it | evidently intended | confidence | as-written member | corrected member |
|---|---|---|---|---|---|---|
| ExpenseTrackerApp.java:144-148 | the amount is refused only when `amount <= 0`, which is false for NaN and +Infinity, both of which `Double.parseDouble` returns | amount line `NaN` (or `Infinity`) | only a positive, finite amount is recorded | high; not executed | Amounts.AsWrittenAdmitsNaN | Amounts.AmountGate |

The rest of the model (`App.ReadAddForm`) uses the corrected check, so
every recorded amount is a positive real.

## Left out

- Calculator.java: a separate program (four double operations behind console input), not part of the ledger.
- Console output: prompts, messages, `Expense.toString` and the `%.2f` formatting are replaced by events.
- `LocalDate.now()`: today's date is the parameter `today`, required to have a four-digit year.
- Date parsing: years with more than four digits or a sign, which the pattern `yyyy` also accepts, are not modelled.
- `Double.parseDouble`: exponents, `f`/`d` suffixes, hexadecimal literals, rounding to the nearest double and overflow to infinity are not modelled; amounts and sums are exact reals, without double rounding.
- `equalsIgnoreCase`: case folding is modelled for ASCII letters only.
- The id counter is an unbounded integer: the wrap-around of Java's `int` after 2^31 - 1 expenses is not modelled.
- `HashMap` iteration order when printing the breakdown: the breakdown is a map.
- `Scanner` end of input: `nextLine` throwing `NoSuchElementException` is the event `InputEnded`, after which the loop stops; `scanner.close()` is not modelled.
