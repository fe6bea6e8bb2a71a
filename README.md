# Expense tracker and student marks calculator, modelled in Dafny

This project models two small Python programs.

The first is the `ExpenseTracker` class of the command-line expense tracker. It
keeps a list of expense records in memory (each record has an id, an amount, a
category, a date and a note). It adds, finds, edits and deletes records by id,
lists them newest first, filters them by category and date range, totals them,
summarises them per category, searches their text, and imports records from a
JSON array.

The second is the student marks calculator. It totals five marks, turns the
total into a percentage and maps the percentage to a grade label.

Layout:

- `wrappers.dfy`, module `Wrappers`: the `Option` type.
- `text.dfy`, module `Text`: the string operations the tracker uses. These are
  `str.lower()` (ASCII only), `str.strip()` with Python's white-space set, and
  the substring test `t in s`.
- `dates.dfy`, module `Dates`: calendar dates, their order, and `parse_date`
  with its ordered trial of formats.
- `expenses.dfy`, module `Expenses`:
  - the record type;
  - every read-only query as a function of the record list, in store order;
  - the store transitions that the mutators perform;
  - the lemmas about all of these.
- `tracker.dfy`, module `Tracker`: the class `ExpenseTracker`. It holds the
  record list as a field, and its methods change that field in place:
  - `add_expense`, `delete_expense` and `edit_expense`;
  - the loops of `filter_expenses`, `summary_by_category` and
    `import_from_json`.

  The tracker's other queries are the functions of module `Expenses`
  applied to the field. `list_expenses`, `total` and `search` have no loop
  of their own. The read-only scan of `find_by_id` (a loop with an early
  return) is modelled by the recursive `IndexOf` and `FindById`.
- `grades.dfy`, module `Grades`: `calc_total`, `calc_percentage` and
  `calc_grade`.

Representation choices:

- Ids are natural numbers. Python stores them as decimal strings.
- Amounts are whole numbers of cents. Marks and percentages are `real`.
- A date is a (year, month, day) triple. It is ordered by its components,
  which is the order of the `YYYY-MM-DD` texts the tracker compares.
- The summary dictionary is a list of (category, amount) entries in insertion
  order, the same order a Python `dict` keeps.
- `strptime` and `fromisoformat` are a function parameter, `parse`. It says,
  for each format and text, which date that format reads, if any.
  `parse_date` is modelled as the fixed order in which it tries the formats,
  and the shortcut for empty text, `today` and `t`.
- `datetime.today()` is the parameter `today`.

Behaviour of the code worth knowing:

- Ids can be reused. The next id is one more than the current maximum, so
  deleting the record with the largest id gives that id to the next record
  (`Expenses.DeletedMaximumIdIsReused`). Deleting any other record leaves the next id
  unchanged (`Expenses.NextIdAfterDelete`, `Expenses.DeletedLowerIdIsNotReused`);
  its id is issued again once every larger id has been deleted.
- Records with the same date keep their store order in every sorted result,
  because Python's `sorted` is stable (`Expenses.SortStable`,
  `Expenses.FilterStable`).
- `add_expense` does not check that the amount is non-negative, so the model
  does not either.
- A negative `limit` in `list_expenses` is a Python slice bound, so it drops
  records from the end.

## Model

| member | source | states |
|---|---|---|
| Text.Lower | Expense_Tracker.py:120 | lower-casing keeps the length, leaves no upper-case letter, and changes exactly the upper-case letters into their lower-case forms |
| Text.LowerIdempotent | Expense_Tracker.py:120 | lower-casing twice is the same as lower-casing once |
| Text.Strip | Expense_Tracker.py:72-74 | the result is a middle slice of the text that neither starts nor ends with white space, and everything cut off is white space |
| Text.StripIdempotent | Expense_Tracker.py:23 | stripping twice is the same as stripping once |
| Text.Contains | Expense_Tracker.py:143 | the substring test holds exactly when the term occurs at some position of the text |
| Dates.Less | Expense_Tracker.py:122-124 | a strictly earlier date is a different date whose year is not later |
| Dates.LessIsStrictTotalOrder | Expense_Tracker.py:81 | the date order used as the sort key and in the bound tests is irreflexive, asymmetric, transitive and total on different dates |
| Dates.ParseDateOfStripped | Expense_Tracker.py:201-202 | parsing a date text the menu has already stripped gives the same result as parsing the raw text |
| Dates.FirstParse | Expense_Tracker.py:26-35 | the result is `None` exactly when every format rejects the text; otherwise it is the date read by the first format that accepts it, every earlier format having failed |
| Dates.ParseDate | Expense_Tracker.py:22-35 | after stripping, an empty text, `today` or `t` in any case gives today; any other text gives the first format's date in the order `%Y-%m-%d`, `%d-%m-%Y`, `%d/%m/%Y`, ISO, or the error when all four fail |
| Expenses.MaxId | Expense_Tracker.py:66 | the result is an id of the store, and no id of the store is larger |
| Expenses.NextId | Expense_Tracker.py:63-66 | 1 on an empty store; otherwise one more than some id present, and above every id present |
| Expenses.IndexOf | Expense_Tracker.py:84-88 | the position of the first record with the id, or `None` exactly when no record has it |
| Expenses.FindById | Expense_Tracker.py:84-88 | `None` exactly when no record has the id; otherwise the first record in store order with that id |
| Expenses.Add | Expense_Tracker.py:68-78 | the store is extended by one record and the earlier records are kept; the new record has the next id (above every id present), the given amount and date, and the category and note stripped |
| Expenses.Delete | Expense_Tracker.py:90-96 | no change when no record has the id; otherwise the first record with that id is removed, the others keep their order, and the multiset of records loses exactly that record |
| Expenses.Edit | Expense_Tracker.py:98-113 | no change when no record has the id; otherwise only the first record with that id changes: each supplied field takes the given value, unstripped, and the id and the fields not supplied are kept |
| Expenses.AddKeepsIdsUnique | Expense_Tracker.py:63-78 | adding to a store with unique ids keeps the ids unique |
| Expenses.DeleteRemovesId | Expense_Tracker.py:90-96 | deleting from a store with unique ids keeps them unique, and afterwards no record has the deleted id |
| Expenses.EditKeepsIdsUnique | Expense_Tracker.py:98-113 | editing keeps unique ids unique, because an edit never changes an id |
| Expenses.DeleteKeepsOthers | Expense_Tracker.py:90-96 | every record left after a delete was in the store, and every record with a different id is still there |
| Expenses.NextIdAfterDelete | Expense_Tracker.py:63-66 | a delete never raises the next id; it leaves the next id unchanged unless the deleted id is the current maximum |
| Expenses.DeletedMaximumIdIsReused | Expense_Tracker.py:63-66 | with records 1 and 2, deleting 2 makes the next id 2 again |
| Expenses.DeletedLowerIdIsNotReused | Expense_Tracker.py:63-78 | after two adds to an empty store and deleting id 1, the next id is 3 |
| Expenses.Matches | Expense_Tracker.py:120-125 | with no condition given every record passes; with an end bound before the start bound no record passes |
| Expenses.MatchesIgnoresCase | Expense_Tracker.py:120 | lower-casing the stored category or the requested one does not change which records pass |
| Expenses.Matching | Expense_Tracker.py:117-126 | the `res` list is no longer than the store, and every record in it passes all three conditions |
| Expenses.MatchingCount | Expense_Tracker.py:117-126 | the records the filter loop collects are exactly the records that pass all three conditions, each as many times as the store holds it |
| Expenses.MatchingSnoc | Expense_Tracker.py:118-126 | one more loop step appends the record when it passes all three conditions and otherwise leaves the collected list as it was |
| Expenses.MatchingEverything | Expense_Tracker.py:115-127 | with no category and no date bounds, every record passes |
| Expenses.InsertPermutes | Expense_Tracker.py:127 | inserting adds exactly that record to the multiset of records |
| Expenses.InsertSorted | Expense_Tracker.py:127 | inserting into a newest-first list keeps it newest first |
| Expenses.InsertStable | Expense_Tracker.py:127 | inserting a record at the head of the list of records of a given date keeps their relative order |
| Expenses.SortByDate | Expense_Tracker.py:81 | sorting by date in reverse gives a newest-first permutation of the records |
| Expenses.SortStable | Expense_Tracker.py:81 | for every date, the sorted list holds that date's records in their store order |
| Expenses.FilterStable | Expense_Tracker.py:127 | for every date, the filtered records of that date are in the order the filter loop collected them, which is store order |
| Expenses.Filter | Expense_Tracker.py:115-127 | the result is newest first; it holds exactly the stored records that pass the category (case-insensitive, when non-empty), start and end conditions (inclusive bounds); each appears as many times as in the store |
| Expenses.ListExpenses | Expense_Tracker.py:80-82 | the result is the front of the newest-first order: all of it when the limit is absent or 0, `min(limit, n)` records for a positive limit, `n + limit` (at least 0) for a negative limit; every kept record is no older than every record left out |
| Expenses.SumInsert | Expense_Tracker.py:132 | inserting a record adds its amount to the sum |
| Expenses.SumSort | Expense_Tracker.py:132 | sorting does not change the sum of the amounts |
| Expenses.Total | Expense_Tracker.py:129-132 | the total of the filtered (sorted) records equals the sum of the amounts of the matching records in store order |
| Expenses.TotalOfEverything | Expense_Tracker.py:129-132 | with no condition, the total is the sum of the whole store |
| Expenses.LookupFinds | Expense_Tracker.py:138 | a category is a key of the summary exactly when some entry carries it |
| Expenses.Upsert | Expense_Tracker.py:138 | after `summary[c] = summary.get(c, 0) + a`, key `c` holds its old value (0 when absent) plus `a`, every other key is unchanged, and the values add up to `a` more |
| Expenses.UpsertShape | Expense_Tracker.py:138 | updating an existing key keeps every key in its place; a new key is appended at the end |
| Expenses.UpsertDistinct | Expense_Tracker.py:138 | updating keeps the keys distinct |
| Expenses.SummarizeFrom | Expense_Tracker.py:136-138 | the loop adds at most one key per record, and every key it starts with is still a key afterwards |
| Expenses.Summary | Expense_Tracker.py:136-139 | the summary has at most one key per selected record |
| Expenses.SummarizeFromLookup | Expense_Tracker.py:136-138 | after the loop, each category holds its starting value plus the sum of that category's amounts; a category is a key exactly when it was a key before or occurs among the records |
| Expenses.SummarizeFromSum | Expense_Tracker.py:136-138 | after the loop, the values add up to the starting values plus the sum of the records |
| Expenses.SummarizeFromDistinct | Expense_Tracker.py:136-138 | the loop keeps the keys distinct |
| Expenses.SummaryCorrect | Expense_Tracker.py:136-139 | the summary has each category of the records as exactly one key, case preserved, holding that category's sum, and its values add up to the sum of the records |
| Expenses.CategorySumInsert | Expense_Tracker.py:138 | inserting a record adds its amount to its own category's sum and nothing to any other |
| Expenses.CategorySumSort | Expense_Tracker.py:138 | sorting does not change any category's sum |
| Expenses.FilterHasCategory | Expense_Tracker.py:135 | a category occurs among the filtered records exactly when some stored record with that category passes the conditions |
| Expenses.FilterSummary | Expense_Tracker.py:134-139 | the summary of a date range has one key per category present in the range, holding that category's sum in the range, and its values add up to `total(None, start, end)` |
| Expenses.Hit | Expense_Tracker.py:143 | an empty term hits every record, since the empty string is in every string |
| Expenses.Search | Expense_Tracker.py:141-143 | the result holds exactly the stored records whose lower-cased note or lower-cased category contains the lower-cased term |
| Expenses.SearchCount | Expense_Tracker.py:143 | each hit appears as many times as in the store, and nothing else appears |
| Expenses.SearchInStoreOrder | Expense_Tracker.py:143 | the search result keeps the store order |
| Expenses.Accepted | Expense_Tracker.py:161-166 | an element that is not an object or has no convertible amount is skipped; one with an amount and a missing, empty, `today` or `t` date is accepted |
| Expenses.ImportOne | Expense_Tracker.py:161-166 | an accepted element appends one record and keeps the earlier records; the new record has the next id, the amount, the stripped category (`uncategorized` when missing), the parsed date (today when missing) and the stripped note (empty when missing); any other element leaves the store unchanged |
| Expenses.ImportAll | Expense_Tracker.py:161-166 | the loop keeps the records already present, in place, and adds at most one record per element |
| Expenses.ImportAllGrows | Expense_Tracker.py:154-166 | the import keeps every record already present, in place, and adds one record per accepted element, so at most one per element; unique ids stay unique |
| Tracker.ExpenseTracker.constructor | Expense_Tracker.py:39-42 | a new tracker holds the records it was loaded with |
| Tracker.ExpenseTracker.AddExpense | Expense_Tracker.py:68-78 | appends the new record and returns it; it has the next id (above every earlier id), the given amount and date, and the stripped category and note; unique ids stay unique |
| Tracker.ExpenseTracker.DeleteExpense | Expense_Tracker.py:90-96 | returns true exactly when some record has the id; the store becomes `Delete` of the old store, unchanged on false; with unique ids, no record has the id afterwards |
| Tracker.ExpenseTracker.EditExpense | Expense_Tracker.py:98-113 | returns true exactly when some record has the id; the store becomes `Edit` of the old store, unchanged on false; unique ids stay unique |
| Tracker.ExpenseTracker.FilterExpenses | Expense_Tracker.py:115-127 | the loop with its three skips, followed by the sort, returns `Filter` of the store |
| Tracker.ExpenseTracker.SummaryByCategory | Expense_Tracker.py:134-139 | returns the summary of the filtered records, with distinct keys, values adding up to the range's total, and each category present in the range holding its sum there |
| Tracker.ExpenseTracker.ImportFromJson | Expense_Tracker.py:161-166 | the store becomes `ImportAll` of the old store: the old records stay in place, one record is added per accepted element, and unique ids stay unique |
| Grades.CalcTotal | Student_Marks_Calculator.py:11-12 | marks between 0 and 100 give a total between 0 and 100 times the number of marks |
| Grades.CalcTotalAppend | Student_Marks_Calculator.py:11-12 | the total of two lists joined is the sum of their totals |
| Grades.CalcPercentage | Student_Marks_Calculator.py:13-14 | the percentage times five is the total |
| Grades.PercentageInRange | Student_Marks_Calculator.py:6-14 | five marks between 0 and 100 give a percentage between 0 and 100 |
| Grades.CalcGrade | Student_Marks_Calculator.py:17-27 | each percentage gets exactly one of `A+`, `A`, `B`, `c`, `Fail`, in the bands 90 and up, 80 to 90, 70 to 80, 60 to 70, and below 60 |
| Grades.GradeMonotone | Student_Marks_Calculator.py:17-27 | a higher percentage never gets a lower grade |

## Left out

- Files: `_load`, `_save`, the JSON reading in `import_from_json` and `export_csv` do file I/O, so they are not modelled. The constructor takes the loaded records as a parameter. The model does not capture the file being rewritten after each change. It does not capture a failing `_save` inside the import loop, which still leaves its record appended.
- The interactive menu, `pretty_print_list` and the input loop of the marks calculator are console I/O. So is the printed report. `MARK_COUNT` records that the script reads five marks.
- Contact_Book.py is not part of this model.
- `strptime` and `fromisoformat` are not modelled. `parse` is a parameter, so the model states only the order of trial and the shortcuts, not which texts each format accepts.
- Dates carry no time of day. `datetime.today()` and an ISO text with a time make `start`/`end` bounds that the model reduces to a date. So a start of `today` or `t`, which in the program carries the current time, skips every record dated today there (their midnight is before it), while the model keeps them.
- Stored dates are always well formed. A malformed stored date, which makes `strptime` raise in `filter_expenses`, is not modelled.
- The date order is the order of `YYYY-MM-DD` strings only for four-digit years. Years below 1000 are not modelled.
- Amounts are whole cents and marks are exact reals, so float values are not modelled: not rounding, not NaN, not the infinities. `float(input())` accepts `nan` and `inf`, for which `calc_grade` returns "Fail" and "A+" outside the bands that `CalcGrade` states.
- Lower-casing is ASCII only. Python's `str.lower()` also folds non-ASCII letters.
- Ids are numbers. Looking up `"01"` (a string that is not a canonical id) and non-numeric ids in a loaded file cannot be expressed.
- Import elements enter as `RawRecord`, after the conversions: the amount is already converted by `float()` or marked missing. A non-string category, date or note (JSON `null` included), which makes `strip` raise, is not modelled. `NotAnObject` covers an element that is not a dictionary.
- The tracker's dictionaries are values. The aliasing between a record returned by `find_by_id` and the store is not modelled.
