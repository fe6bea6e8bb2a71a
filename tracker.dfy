/**
 * `ExpenseTracker`: the object that owns the list of expense records and
 * changes it in place. Its read-only queries are the functions of module
 * Expenses applied to `expenses`; its mutators and its two loops are here.
 */
module Tracker {
  import opened Wrappers
  import opened Text
  import opened Dates
  import opened Expenses

  class ExpenseTracker {
    /** The records in store order (`self.expenses`). */
    var expenses: seq<Expense>

    /** A tracker holding the records read from its file (none when there is no file). */
    constructor (loaded: seq<Expense>)
      ensures expenses == loaded
    {
      expenses := loaded;
    }

    /**
     * `add_expense`: appends one record with the next id and the text fields
     * stripped, and returns it; every earlier record stays as it was.
     */
    method AddExpense(amount: int, category: string, date: Date, note: string) returns (e: Expense)
      modifies this
      ensures expenses == old(expenses) + [e]
      ensures expenses == Add(old(expenses), amount, category, date, note)
      ensures e.id == NextId(old(expenses)) && forall x :: x in old(expenses) ==> x.id < e.id
      ensures e.amount == amount && e.category == Strip(category) && e.date == date && e.note == Strip(note)
      ensures old(UniqueIds(expenses)) ==> UniqueIds(expenses)
    {
      e := NewExpense(expenses, amount, category, date, note);
      ghost var before := expenses;
      expenses := expenses + [e];
      if UniqueIds(before) {
        AddKeepsIdsUnique(before, amount, category, date, note);
      }
    }

    /**
     * `delete_expense`: `false` and no change when no record has the id;
     * otherwise `true`, and the first record with that id is removed, the
     * others keeping their order.
     */
    method DeleteExpense(id: nat) returns (ok: bool)
      modifies this
      ensures ok <==> FindById(old(expenses), id).Some?
      ensures !ok ==> expenses == old(expenses)
      ensures expenses == Delete(old(expenses), id)
      ensures old(UniqueIds(expenses)) ==> UniqueIds(expenses) && FindById(expenses, id).None?
    {
      ghost var before := expenses;
      if UniqueIds(before) {
        DeleteRemovesId(before, id);
      }
      match IndexOf(expenses, id)
      case None =>
        ok := false;
      case Some(i) =>
        expenses := expenses[..i] + expenses[i + 1..];
        ok := true;
    }

    /**
     * `edit_expense`: `false` and no change when no record has the id;
     * otherwise `true`, and the first record with that id gets each field
     * that is supplied, as given; all else is unchanged.
     */
    method EditExpense(id: nat, amount: Option<int>, category: Option<string>,
                       date: Option<Date>, note: Option<string>) returns (ok: bool)
      modifies this
      ensures ok <==> FindById(old(expenses), id).Some?
      ensures !ok ==> expenses == old(expenses)
      ensures expenses == Edit(old(expenses), id, amount, category, date, note)
      ensures old(UniqueIds(expenses)) ==> UniqueIds(expenses)
    {
      ghost var before := expenses;
      if UniqueIds(before) {
        EditKeepsIdsUnique(before, id, amount, category, date, note);
      }
      match IndexOf(expenses, id)
      case None =>
        ok := false;
      case Some(i) =>
        var e := expenses[i];
        if amount.Some? {
          e := e.(amount := amount.value);
        }
        if category.Some? {
          e := e.(category := category.value);
        }
        if date.Some? {
          e := e.(date := date.value);
        }
        if note.Some? {
          e := e.(note := note.value);
        }
        expenses := expenses[i := e];
        ok := true;
    }

    /**
     * `filter_expenses`: collects the records that pass all given conditions,
     * in store order, and returns them sorted newest first.
     */
    method FilterExpenses(category: Option<string>, start: Option<Date>, end: Option<Date>) returns (r: seq<Expense>)
      ensures r == Filter(expenses, category, start, end)
    {
      var res: seq<Expense> := [];
      var i := 0;
      while i < |expenses|
        invariant 0 <= i <= |expenses|
        invariant res == Matching(expenses[..i], category, start, end)
      {
        var e := expenses[i];
        MatchingSnoc(expenses[..i], e, category, start, end);
        assert expenses[..i + 1] == expenses[..i] + [e];
        i := i + 1;
        if category.Some? && category.value != "" && Lower(e.category) != Lower(category.value) {
          continue;
        }
        if start.Some? && Less(e.date, start.value) {
          continue;
        }
        if end.Some? && Less(end.value, e.date) {
          continue;
        }
        res := res + [e];
      }
      assert expenses[..i] == expenses;
      r := SortByDate(res);
    }

    /**
     * `summary_by_category`: folds the records in the date range (newest
     * first) into an insertion-ordered map from category to summed amount.
     * Each category present in the range is one key, case preserved; its
     * value is that category's sum; the values add up to `total(None, start, end)`.
     */
    method SummaryByCategory(start: Option<Date>, end: Option<Date>) returns (summary: seq<Entry>)
      ensures summary == Summary(Filter(expenses, None, start, end))
      ensures DistinctCategories(summary)
      ensures SumEntries(summary) == Total(expenses, None, start, end)
      ensures forall c :: Lookup(summary, c)
                       == if exists e :: e in expenses && e.category == c && Matches(e, None, start, end)
                          then Some(CategorySum(Matching(expenses, None, start, end), c))
                          else None
    {
      var selected := FilterExpenses(None, start, end);
      summary := [];
      var i := 0;
      while i < |selected|
        invariant 0 <= i <= |selected|
        invariant SummarizeFrom(summary, selected[i..]) == Summary(selected)
      {
        var e := selected[i];
        assert selected[i..][1..] == selected[i + 1..];
        summary := Upsert(summary, e.category, e.amount);
        i := i + 1;
      }
      FilterSummary(expenses, start, end);
    }

    /**
     * The per-record loop of `import_from_json`: each element is added (with
     * its defaults and the parsed date) or silently skipped.
     */
    method ImportFromJson(data: seq<RawRecord>, today: Date, parse: (Format, string) -> Option<Date>)
      modifies this
      ensures expenses == ImportAll(old(expenses), data, today, parse)
      ensures |expenses| == |old(expenses)| + AcceptedCount(data, today, parse) <= |old(expenses)| + |data|
      ensures expenses[..|old(expenses)|] == old(expenses)
      ensures old(UniqueIds(expenses)) ==> UniqueIds(expenses)
    {
      var i := 0;
      while i < |data|
        invariant 0 <= i <= |data|
        invariant ImportAll(expenses, data[i..], today, parse) == ImportAll(old(expenses), data, today, parse)
      {
        var raw := data[i];
        assert data[i..][1..] == data[i + 1..];
        if raw.Object? && raw.amount.Some? {
          var d := ParseDate(raw.date.GetOr(""), today, parse);
          if d.Some? {
            var _ := AddExpense(raw.amount.value, raw.category.GetOr("uncategorized"), d.value, raw.note.GetOr(""));
          }
        }
        i := i + 1;
      }
      ImportAllGrows(old(expenses), data, today, parse);
    }
  }
}
