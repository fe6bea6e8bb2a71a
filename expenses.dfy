/**
 * The expense records and every read-only query of the expense tracker, as
 * functions of the sequence of records the tracker holds (in store order),
 * together with the store transitions that the tracker's mutators perform.
 */
module Expenses {
  import opened Wrappers
  import opened Text
  import opened Dates

  /** One expense record; `amount` is in cents. */
  datatype Expense = Expense(id: nat, amount: int, category: string, date: Date, note: string)

  /** No two records of `s` share an id. */
  predicate UniqueIds(s: seq<Expense>) {
    forall i, j :: 0 <= i < j < |s| ==> s[i].id != s[j].id
  }

  // ---------------------------------------------------------------- ids

  /** The largest id in a non-empty store. */
  function MaxId(s: seq<Expense>): (m: nat)
    requires s != []
    ensures forall e :: e in s ==> e.id <= m
    ensures exists e :: e in s && e.id == m
  {
    if |s| == 1 then s[0].id
    else
      var rest := MaxId(s[1..]);
      assert forall e :: e in s ==> e == s[0] || e in s[1..];
      if s[0].id >= rest then s[0].id else rest
  }

  /**
   * `_next_id`: 1 on an empty store, otherwise one more than the largest id,
   * so strictly above every id present.
   */
  function NextId(s: seq<Expense>): (r: nat)
    ensures s == [] ==> r == 1
    ensures forall e :: e in s ==> e.id < r
    ensures s != [] ==> exists e :: e in s && r == e.id + 1
  {
    if s == [] then 1 else MaxId(s) + 1
  }

  // ------------------------------------------------------------- lookup

  /** The position of the first record with id `id`, if any. */
  function IndexOf(s: seq<Expense>, id: nat): (r: Option<nat>)
    ensures r.Some? ==> r.value < |s| && s[r.value].id == id
                        && forall j :: 0 <= j < r.value ==> s[j].id != id
    ensures r.None? ==> forall j :: 0 <= j < |s| ==> s[j].id != id
  {
    if s == [] then None
    else if s[0].id == id then Some(0)
    else
      match IndexOf(s[1..], id)
      case None => None
      case Some(k) => Some(k + 1)
  }

  /** `find_by_id`: the first record with id `id`, or `None` when no record has it. */
  function FindById(s: seq<Expense>, id: nat): (r: Option<Expense>)
    ensures r.None? <==> forall e :: e in s ==> e.id != id
    ensures r.Some? ==> exists i :: 0 <= i < |s| && s[i] == r.value && r.value.id == id
                                 && forall j :: 0 <= j < i ==> s[j].id != id
  {
    match IndexOf(s, id)
    case None => None
    case Some(i) => Some(s[i])
  }

  // ---------------------------------------------------------- mutators

  /** The record `add_expense` creates: the next id and stripped text fields. */
  function NewExpense(s: seq<Expense>, amount: int, category: string, date: Date, note: string): Expense {
    Expense(NextId(s), amount, Strip(category), date, Strip(note))
  }

  /** The store after `add_expense`: one record appended, all earlier ones kept. */
  function Add(s: seq<Expense>, amount: int, category: string, date: Date, note: string): (r: seq<Expense>)
    ensures |r| == |s| + 1 && r[..|s|] == s
    ensures r[|s|].id == NextId(s) && forall e :: e in s ==> e.id < r[|s|].id
    ensures r[|s|].amount == amount && r[|s|].date == date
    ensures r[|s|].category == Strip(category) && r[|s|].note == Strip(note)
  {
    s + [NewExpense(s, amount, category, date, note)]
  }

  /**
   * The store after `delete_expense`: unchanged when no record has the id,
   * otherwise the first record with that id is removed and the others keep
   * their order.
   */
  function Delete(s: seq<Expense>, id: nat): (r: seq<Expense>)
    ensures FindById(s, id).None? ==> r == s
    ensures FindById(s, id).Some? ==>
              exists i :: 0 <= i < |s| && s[i].id == id && (forall j :: 0 <= j < i ==> s[j].id != id)
                        && r == s[..i] + s[i + 1..]
    ensures FindById(s, id).Some? ==> |r| == |s| - 1 && multiset(r) + multiset{FindById(s, id).value} == multiset(s)
  {
    match IndexOf(s, id)
    case None => s
    case Some(i) =>
      assert s == s[..i] + [s[i]] + s[i + 1..];
      s[..i] + s[i + 1..]
  }

  /** A record with the supplied (non-`None`) fields overwritten. */
  function Overwrite(e: Expense, amount: Option<int>, category: Option<string>, date: Option<Date>, note: Option<string>): Expense {
    Expense(e.id, amount.GetOr(e.amount), category.GetOr(e.category), date.GetOr(e.date), note.GetOr(e.note))
  }

  /**
   * The store after `edit_expense`: unchanged when no record has the id;
   * otherwise the first record with that id gets the supplied fields (text
   * taken as given, not stripped) and keeps its id and every field not
   * supplied, and every other record is unchanged.
   */
  function Edit(s: seq<Expense>, id: nat, amount: Option<int>, category: Option<string>,
                date: Option<Date>, note: Option<string>): (r: seq<Expense>)
    ensures FindById(s, id).None? ==> r == s
    ensures |r| == |s|
    ensures FindById(s, id).Some? ==>
              exists i :: 0 <= i < |s| && s[i].id == id && (forall j :: 0 <= j < i ==> s[j].id != id)
                        && (forall j :: 0 <= j < |s| && j != i ==> r[j] == s[j])
                        && r[i].id == id
                        && r[i].amount == (if amount.Some? then amount.value else s[i].amount)
                        && r[i].category == (if category.Some? then category.value else s[i].category)
                        && r[i].date == (if date.Some? then date.value else s[i].date)
                        && r[i].note == (if note.Some? then note.value else s[i].note)
  {
    match IndexOf(s, id)
    case None => s
    case Some(i) => s[i := Overwrite(s[i], amount, category, date, note)]
  }

  /** Adding keeps ids unique: the new id is above every id present. */
  lemma AddKeepsIdsUnique(s: seq<Expense>, amount: int, category: string, date: Date, note: string)
    requires UniqueIds(s)
    ensures UniqueIds(Add(s, amount, category, date, note))
  {
    var r := Add(s, amount, category, date, note);
    forall i, j | 0 <= i < j < |r| ensures r[i].id != r[j].id {
      if j == |s| {
        assert r[i] == s[i];
      } else {
        assert r[i] == s[i] && r[j] == s[j];
      }
    }
  }

  /** Deleting keeps ids unique, and afterwards no record carries the deleted id. */
  lemma DeleteRemovesId(s: seq<Expense>, id: nat)
    requires UniqueIds(s)
    ensures UniqueIds(Delete(s, id))
    ensures FindById(Delete(s, id), id).None?
  {
    match IndexOf(s, id)
    case None =>
    case Some(i) =>
      var r := s[..i] + s[i + 1..];
      assert Delete(s, id) == r;
      assert forall j :: 0 <= j < i ==> r[j] == s[j];
      assert forall j :: i <= j < |r| ==> r[j] == s[j + 1];
      assert forall j :: 0 <= j < |r| ==> r[j].id != id;
  }

  /** Editing keeps ids unique, since it never changes an id. */
  lemma EditKeepsIdsUnique(s: seq<Expense>, id: nat, amount: Option<int>, category: Option<string>,
                           date: Option<Date>, note: Option<string>)
    requires UniqueIds(s)
    ensures UniqueIds(Edit(s, id, amount, category, date, note))
  {
    var r := Edit(s, id, amount, category, date, note);
    assert forall j :: 0 <= j < |s| ==> r[j].id == s[j].id;
  }

  /** Deleting keeps only records of the store, and every record with another id. */
  lemma DeleteKeepsOthers(s: seq<Expense>, id: nat)
    ensures forall e :: e in Delete(s, id) ==> e in s
    ensures forall e :: e in s && e.id != id ==> e in Delete(s, id)
  {
    match IndexOf(s, id)
    case None =>
    case Some(i) =>
      assert s == s[..i] + [s[i]] + s[i + 1..];
  }

  /**
   * The next id follows the current maximum, not a count: deleting any record
   * but one holding the largest id leaves the next id as it was, and no
   * deletion raises it.
   */
  lemma NextIdAfterDelete(s: seq<Expense>, id: nat)
    ensures NextId(Delete(s, id)) <= NextId(s)
    ensures id + 1 != NextId(s) ==> NextId(Delete(s, id)) == NextId(s)
  {
    DeleteKeepsOthers(s, id);
    var r := Delete(s, id);
    if r != [] {
      var e :| e in r && NextId(r) == e.id + 1;
      assert e in s;
    }
    if id + 1 != NextId(s) && s != [] {
      var top :| top in s && NextId(s) == top.id + 1;
      assert top in r;
    }
  }

  /**
   * Ids can be reused: with records 1 and 2, deleting 2 makes the next
   * record get id 2 again.
   */
  lemma DeletedMaximumIdIsReused(a: Expense, b: Expense)
    requires a.id == 1 && b.id == 2
    ensures NextId(Delete([a, b], 2)) == 2
  {
    assert IndexOf([a, b], 2) == Some(1);
    assert Delete([a, b], 2) == [a];
  }

  /**
   * Deleting a record below the maximum does not free its id: with records
   * 1 and 2, deleting 1 makes the next record get id 3.
   */
  lemma DeletedLowerIdIsNotReused(amount: int, category: string, date: Date, note: string)
    ensures NextId(Delete(Add(Add([], amount, category, date, note), amount, category, date, note), 1)) == 3
  {
    var s := Add(Add([], amount, category, date, note), amount, category, date, note);
    assert s[0].id == 1 && s[1].id == 2;
    assert IndexOf(s, 1) == Some(0);
    assert Delete(s, 1) == [s[1]];
  }

  // ------------------------------------------------------------ filters

  /**
   * The three conditions of `filter_expenses`, each applied only when given:
   * the category equals `category` ignoring case (when non-empty), the date
   * is not before `start` and not after `end`.
   */
  predicate Matches(e: Expense, category: Option<string>, start: Option<Date>, end: Option<Date>)
    ensures category.None? && start.None? && end.None? ==> Matches(e, category, start, end)
    ensures start.Some? && end.Some? && Less(end.value, start.value) ==> !Matches(e, category, start, end)
  {
    && (category.Some? && category.value != "" ==> Lower(e.category) == Lower(category.value))
    && (start.Some? ==> !Less(e.date, start.value))
    && (end.Some? ==> !Less(end.value, e.date))
  }

  /**
   * The category test ignores case on both sides: lower-casing the stored
   * category or the requested one does not change which records pass.
   */
  lemma MatchesIgnoresCase(e: Expense, c: string, start: Option<Date>, end: Option<Date>)
    ensures Matches(e.(category := Lower(e.category)), Some(c), start, end) == Matches(e, Some(c), start, end)
    ensures Matches(e, Some(Lower(c)), start, end) == Matches(e, Some(c), start, end)
  {
    LowerIdempotent(e.category);
    LowerIdempotent(c);
  }

  /** The records that pass `Matches`, in store order (the `res` list). */
  function Matching(s: seq<Expense>, category: Option<string>, start: Option<Date>, end: Option<Date>): (r: seq<Expense>)
    ensures |r| <= |s|
    ensures forall i :: 0 <= i < |r| ==> Matches(r[i], category, start, end)
  {
    if s == [] then []
    else (if Matches(s[0], category, start, end) then [s[0]] else []) + Matching(s[1..], category, start, end)
  }

  /** `Matching` keeps every passing record as often as the store holds it, and drops the others. */
  lemma {:induction false} MatchingCount(s: seq<Expense>, category: Option<string>, start: Option<Date>, end: Option<Date>, e: Expense)
    ensures multiset(Matching(s, category, start, end))[e] == if Matches(e, category, start, end) then multiset(s)[e] else 0
  {
    if s != [] {
      MatchingCount(s[1..], category, start, end, e);
      assert s == [s[0]] + s[1..];
      if Matches(s[0], category, start, end) {
        assert Matching(s, category, start, end) == [s[0]] + Matching(s[1..], category, start, end);
      } else {
        assert Matching(s, category, start, end) == Matching(s[1..], category, start, end);
      }
    }
  }

  /** Extending the store by one record extends `Matching` by that record when it passes. */
  lemma {:induction false} MatchingSnoc(s: seq<Expense>, x: Expense, category: Option<string>, start: Option<Date>, end: Option<Date>)
    ensures Matching(s + [x], category, start, end)
         == Matching(s, category, start, end) + (if Matches(x, category, start, end) then [x] else [])
  {
    if s == [] {
      assert [x][1..] == [];
    } else {
      assert (s + [x])[0] == s[0];
      assert (s + [x])[1..] == s[1..] + [x];
      MatchingSnoc(s[1..], x, category, start, end);
    }
  }

  /** With no condition given, every record passes. */
  lemma {:induction false} MatchingEverything(s: seq<Expense>)
    ensures Matching(s, None, None, None) == s
  {
    if s != [] {
      MatchingEverything(s[1..]);
    }
  }

  // ------------------------------------------------------------ sorting

  /** Dates never increase along `s` (newest first). */
  predicate DateDescending(s: seq<Expense>) {
    forall i, j :: 0 <= i < j < |s| ==> !Less(s[i].date, s[j].date)
  }

  /** Inserts `x` before the first record of `s` that is not strictly newer. */
  function Insert(x: Expense, s: seq<Expense>): (r: seq<Expense>)
    ensures |r| == |s| + 1
  {
    if s == [] || !Less(x.date, s[0].date) then [x] + s else [s[0]] + Insert(x, s[1..])
  }

  /** Inserting adds exactly `x` to the records. */
  lemma {:induction false} InsertPermutes(x: Expense, s: seq<Expense>)
    ensures multiset(Insert(x, s)) == multiset(s) + multiset{x}
  {
    if s != [] && Less(x.date, s[0].date) {
      InsertPermutes(x, s[1..]);
      assert s == [s[0]] + s[1..];
    }
  }

  /** Inserting into a newest-first sequence keeps it newest first. */
  lemma {:induction false} InsertSorted(x: Expense, s: seq<Expense>)
    requires DateDescending(s)
    ensures DateDescending(Insert(x, s))
  {
    if s != [] && Less(x.date, s[0].date) {
      InsertSorted(x, s[1..]);
      InsertPermutes(x, s[1..]);
      var rest := Insert(x, s[1..]);
      forall j | 0 <= j < |rest| ensures !Less(s[0].date, rest[j].date) {
        assert rest[j] in multiset(rest);
        if rest[j] != x {
          assert rest[j] in s[1..];
          var k :| 0 <= k < |s[1..]| && s[1..][k] == rest[j];
          assert s[k + 1] == rest[j];
        }
      }
    }
  }

  /**
   * Python's `sorted(..., key=date, reverse=True)`: newest first, a
   * permutation of `s`.
   */
  function SortByDate(s: seq<Expense>): (r: seq<Expense>)
    ensures |r| == |s|
    ensures multiset(r) == multiset(s)
    ensures DateDescending(r)
  {
    if s == [] then []
    else
      assert s == [s[0]] + s[1..];
      InsertSorted(s[0], SortByDate(s[1..]));
      InsertPermutes(s[0], SortByDate(s[1..]));
      Insert(s[0], SortByDate(s[1..]))
  }

  /** The records of `s` dated `d`, in their order in `s`. */
  function OnDate(s: seq<Expense>, d: Date): seq<Expense> {
    if s == [] then [] else (if s[0].date == d then [s[0]] else []) + OnDate(s[1..], d)
  }

  lemma OnDateCons(y: Expense, t: seq<Expense>, d: Date)
    ensures OnDate([y] + t, d) == (if y.date == d then [y] else []) + OnDate(t, d)
  {
    assert ([y] + t)[1..] == t;
  }

  lemma {:induction false} InsertStable(x: Expense, s: seq<Expense>, d: Date)
    ensures OnDate(Insert(x, s), d) == OnDate([x] + s, d)
  {
    if s != [] && Less(x.date, s[0].date) {
      var rest := Insert(x, s[1..]);
      var t := OnDate(s[1..], d);
      assert Insert(x, s) == [s[0]] + rest;
      InsertStable(x, s[1..], d);
      assert OnDate(rest, d) == OnDate([x] + s[1..], d);
      OnDateCons(s[0], rest, d);
      assert OnDate(Insert(x, s), d) == (if s[0].date == d then [s[0]] else []) + OnDate(rest, d);
      OnDateCons(x, s[1..], d);
      assert OnDate(rest, d) == (if x.date == d then [x] else []) + t;
    }
  }

  /**
   * The sort is stable: for every date, the records of that date appear in
   * the result in the same order as in the store.
   */
  lemma {:induction false} SortStable(s: seq<Expense>, d: Date)
    ensures OnDate(SortByDate(s), d) == OnDate(s, d)
  {
    if s != [] {
      SortStable(s[1..], d);
      InsertStable(s[0], SortByDate(s[1..]), d);
      OnDateCons(s[0], SortByDate(s[1..]), d);
      OnDateCons(s[0], s[1..], d);
      assert s == [s[0]] + s[1..];
    }
  }

  /** Filtering is stable too: for every date, the filtered records of that date keep their store order. */
  lemma FilterStable(s: seq<Expense>, category: Option<string>, start: Option<Date>, end: Option<Date>, d: Date)
    ensures OnDate(Filter(s, category, start, end), d) == OnDate(Matching(s, category, start, end), d)
  {
    SortStable(Matching(s, category, start, end), d);
  }

  /**
   * `filter_expenses`: exactly the records satisfying the given conditions,
   * each as often as in the store, newest first.
   */
  function Filter(s: seq<Expense>, category: Option<string>, start: Option<Date>, end: Option<Date>): (r: seq<Expense>)
    ensures DateDescending(r)
    ensures forall e :: e in r <==> e in s && Matches(e, category, start, end)
    ensures forall e :: multiset(r)[e] == if Matches(e, category, start, end) then multiset(s)[e] else 0
  {
    var m := Matching(s, category, start, end);
    assert forall e :: e in SortByDate(m) <==> e in multiset(m);
    forall e ensures multiset(m)[e] == if Matches(e, category, start, end) then multiset(s)[e] else 0 {
      MatchingCount(s, category, start, end, e);
    }
    SortByDate(m)
  }

  /** How many elements Python's slice `s[:k]` keeps of `n`; a negative `k` counts from the end. */
  function SliceLength(n: nat, k: int): (m: nat)
    ensures m <= n
  {
    if k >= 0 then (if k < n then k else n)
    else (if n + k > 0 then n + k else 0)
  }

  /**
   * `list_expenses`: the store sorted newest first; a non-zero `limit`
   * keeps the front of that order (Python slicing, so a negative limit
   * drops records from the end), and no limit or zero keeps everything.
   */
  function ListExpenses(s: seq<Expense>, limit: Option<int>): (r: seq<Expense>)
    ensures |r| <= |s| && r == SortByDate(s)[..|r|]
    ensures DateDescending(r)
    ensures limit.None? || limit.value == 0 ==> multiset(r) == multiset(s)
    ensures limit.Some? && limit.value > 0 ==> |r| == (if limit.value < |s| then limit.value else |s|)
    ensures limit.Some? && limit.value < 0 ==> |r| == (if |s| + limit.value > 0 then |s| + limit.value else 0)
    ensures forall i, j :: 0 <= i < |r| <= j < |s| ==> !Less(r[i].date, SortByDate(s)[j].date)
  {
    var sorted := SortByDate(s);
    var n := if limit.Some? && limit.value != 0 then SliceLength(|s|, limit.value) else |s|;
    assert sorted[..|s|] == sorted;
    assert forall i :: 0 <= i < n ==> sorted[..n][i] == sorted[i];
    sorted[..n]
  }

  // ------------------------------------------------------------- totals

  /** The sum of the amounts of `s`. */
  function Sum(s: seq<Expense>): int {
    if s == [] then 0 else s[0].amount + Sum(s[1..])
  }

  lemma {:induction false} SumInsert(x: Expense, s: seq<Expense>)
    ensures Sum(Insert(x, s)) == x.amount + Sum(s)
  {
    if s != [] && Less(x.date, s[0].date) {
      SumInsert(x, s[1..]);
      assert ([s[0]] + Insert(x, s[1..]))[1..] == Insert(x, s[1..]);
    }
  }

  /** Sorting does not change the sum. */
  lemma {:induction false} SumSort(s: seq<Expense>)
    ensures Sum(SortByDate(s)) == Sum(s)
  {
    if s != [] {
      SumSort(s[1..]);
      SumInsert(s[0], SortByDate(s[1..]));
    }
  }

  /**
   * `total`: the sum of the amounts of the filtered records, which is the
   * sum over the matching records of the store in store order.
   */
  function Total(s: seq<Expense>, category: Option<string>, start: Option<Date>, end: Option<Date>): (r: int)
    ensures r == Sum(Matching(s, category, start, end))
  {
    SumSort(Matching(s, category, start, end));
    Sum(Filter(s, category, start, end))
  }

  /** With no condition, the total is the sum of the whole store. */
  lemma TotalOfEverything(s: seq<Expense>)
    ensures Total(s, None, None, None) == Sum(s)
  {
    MatchingEverything(s);
  }

  // ------------------------------------------------------------ summary

  /** One key of the per-category summary and its accumulated amount. */
  datatype Entry = Entry(category: string, amount: int)

  /** No two entries share a category. */
  predicate DistinctCategories(m: seq<Entry>) {
    forall i, j :: 0 <= i < j < |m| ==> m[i].category != m[j].category
  }

  /** The amount stored under `c`, if `c` is a key. */
  function Lookup(m: seq<Entry>, c: string): Option<int> {
    if m == [] then None else if m[0].category == c then Some(m[0].amount) else Lookup(m[1..], c)
  }

  /** The sum of all values of the summary. */
  function SumEntries(m: seq<Entry>): int {
    if m == [] then 0 else m[0].amount + SumEntries(m[1..])
  }

  /** A category is a key exactly when some entry carries it. */
  lemma {:induction false} LookupFinds(m: seq<Entry>, c: string)
    ensures Lookup(m, c).None? <==> forall i :: 0 <= i < |m| ==> m[i].category != c
  {
    if m != [] && m[0].category != c {
      LookupFinds(m[1..], c);
      assert forall i :: 1 <= i < |m| ==> m[i] == m[1..][i - 1];
    }
  }

  /**
   * `summary[c] = summary.get(c, 0) + a` on an insertion-ordered dict: an
   * existing key is updated in place, a new key goes at the end.
   */
  function Upsert(m: seq<Entry>, c: string, a: int): (r: seq<Entry>)
    ensures |m| <= |r| <= |m| + 1
    ensures Lookup(r, c) == Some(Lookup(m, c).GetOr(0) + a)
    ensures forall c' :: c' != c ==> Lookup(r, c') == Lookup(m, c')
    ensures SumEntries(r) == SumEntries(m) + a
  {
    if m == [] then [Entry(c, a)]
    else if m[0].category == c then
      assert ([Entry(c, m[0].amount + a)] + m[1..])[1..] == m[1..];
      [Entry(c, m[0].amount + a)] + m[1..]
    else
      var rest := Upsert(m[1..], c, a);
      assert ([m[0]] + rest)[1..] == rest;
      [m[0]] + rest
  }

  /** An existing key keeps every key in place; a new key is appended at the end. */
  lemma {:induction false} UpsertShape(m: seq<Entry>, c: string, a: int)
    ensures Lookup(m, c).Some? ==>
              |Upsert(m, c, a)| == |m| && forall k :: 0 <= k < |m| ==> Upsert(m, c, a)[k].category == m[k].category
    ensures Lookup(m, c).None? ==> Upsert(m, c, a) == m + [Entry(c, a)]
  {
    if m != [] && m[0].category != c {
      UpsertShape(m[1..], c, a);
      assert m == [m[0]] + m[1..];
    }
  }

  /** Upserting keeps the keys distinct. */
  lemma UpsertDistinct(m: seq<Entry>, c: string, a: int)
    requires DistinctCategories(m)
    ensures DistinctCategories(Upsert(m, c, a))
  {
    UpsertShape(m, c, a);
    LookupFinds(m, c);
  }

  /** The summary built by folding the records of `s` into `acc`, front to back. */
  function SummarizeFrom(acc: seq<Entry>, s: seq<Expense>): (r: seq<Entry>)
    decreases s
    ensures |acc| <= |r| <= |acc| + |s|
    ensures forall c :: Lookup(acc, c).Some? ==> Lookup(r, c).Some?
  {
    if s == [] then acc else SummarizeFrom(Upsert(acc, s[0].category, s[0].amount), s[1..])
  }

  /** The loop of `summary_by_category` over `s`, starting from the empty dict. */
  function Summary(s: seq<Expense>): (r: seq<Entry>)
    ensures |r| <= |s|
  {
    SummarizeFrom([], s)
  }

  /** Whether some record of `s` has exactly category `c`. */
  predicate HasCategory(s: seq<Expense>, c: string) {
    exists e :: e in s && e.category == c
  }

  /** The sum of the amounts of the records of `s` whose category is exactly `c`. */
  function CategorySum(s: seq<Expense>, c: string): int {
    if s == [] then 0 else (if s[0].category == c then s[0].amount else 0) + CategorySum(s[1..], c)
  }

  lemma {:induction false} SummarizeFromLookup(acc: seq<Entry>, s: seq<Expense>, c: string)
    decreases s
    ensures Lookup(SummarizeFrom(acc, s), c)
         == if Lookup(acc, c).None? && !HasCategory(s, c) then None
            else Some(Lookup(acc, c).GetOr(0) + CategorySum(s, c))
  {
    if s != [] {
      SummarizeFromLookup(Upsert(acc, s[0].category, s[0].amount), s[1..], c);
      assert HasCategory(s, c) <==> s[0].category == c || HasCategory(s[1..], c) by {
        assert s == [s[0]] + s[1..];
      }
    }
  }

  lemma {:induction false} SummarizeFromSum(acc: seq<Entry>, s: seq<Expense>)
    decreases s
    ensures SumEntries(SummarizeFrom(acc, s)) == SumEntries(acc) + Sum(s)
  {
    if s != [] {
      SummarizeFromSum(Upsert(acc, s[0].category, s[0].amount), s[1..]);
    }
  }

  lemma {:induction false} SummarizeFromDistinct(acc: seq<Entry>, s: seq<Expense>)
    decreases s
    requires DistinctCategories(acc)
    ensures DistinctCategories(SummarizeFrom(acc, s))
  {
    if s != [] {
      UpsertDistinct(acc, s[0].category, s[0].amount);
      SummarizeFromDistinct(Upsert(acc, s[0].category, s[0].amount), s[1..]);
    }
  }

  /**
   * The summary has each category of `s` (case preserved) as exactly one key,
   * holding the sum of that category's amounts, and its values add up to the
   * sum of `s`.
   */
  lemma SummaryCorrect(s: seq<Expense>)
    ensures DistinctCategories(Summary(s))
    ensures SumEntries(Summary(s)) == Sum(s)
    ensures forall c :: Lookup(Summary(s), c) == if HasCategory(s, c) then Some(CategorySum(s, c)) else None
  {
    SummarizeFromDistinct([], s);
    SummarizeFromSum([], s);
    forall c ensures Lookup(Summary(s), c) == if HasCategory(s, c) then Some(CategorySum(s, c)) else None {
      SummarizeFromLookup([], s, c);
    }
  }

  lemma {:induction false} CategorySumInsert(x: Expense, s: seq<Expense>, c: string)
    ensures CategorySum(Insert(x, s), c) == (if x.category == c then x.amount else 0) + CategorySum(s, c)
  {
    if s != [] && Less(x.date, s[0].date) {
      CategorySumInsert(x, s[1..], c);
      assert ([s[0]] + Insert(x, s[1..]))[1..] == Insert(x, s[1..]);
    }
  }

  /** Sorting does not change a category's sum. */
  lemma {:induction false} CategorySumSort(s: seq<Expense>, c: string)
    ensures CategorySum(SortByDate(s), c) == CategorySum(s, c)
  {
    if s != [] {
      CategorySumSort(s[1..], c);
      CategorySumInsert(s[0], SortByDate(s[1..]), c);
    }
  }

  /** A category occurs among the filtered records exactly when a matching record of the store has it. */
  lemma FilterHasCategory(s: seq<Expense>, category: Option<string>, start: Option<Date>, end: Option<Date>, c: string)
    ensures HasCategory(Filter(s, category, start, end), c)
        <==> exists e :: e in s && e.category == c && Matches(e, category, start, end)
  {
    var selected := Filter(s, category, start, end);
    if HasCategory(selected, c) {
      var e :| e in selected && e.category == c;
      assert e in s && Matches(e, category, start, end);
    }
  }

  /**
   * The summary of the records in a date range: one key per category present
   * in the range (case preserved), holding the sum of that category's amounts
   * in the range, and values that add up to the range's total.
   */
  lemma FilterSummary(s: seq<Expense>, start: Option<Date>, end: Option<Date>)
    ensures DistinctCategories(Summary(Filter(s, None, start, end)))
    ensures SumEntries(Summary(Filter(s, None, start, end))) == Total(s, None, start, end)
    ensures forall c :: Lookup(Summary(Filter(s, None, start, end)), c)
                     == if exists e :: e in s && e.category == c && Matches(e, None, start, end)
                        then Some(CategorySum(Matching(s, None, start, end), c))
                        else None
  {
    var matching := Matching(s, None, start, end);
    var selected := Filter(s, None, start, end);
    SummaryCorrect(selected);
    SumSort(matching);
    forall c
      ensures Lookup(Summary(selected), c)
           == if exists e :: e in s && e.category == c && Matches(e, None, start, end)
              then Some(CategorySum(matching, c))
              else None
    {
      FilterHasCategory(s, None, start, end, c);
      CategorySumSort(matching, c);
    }
  }

  // ------------------------------------------------------------- search

  /** The record's lower-cased note or category contains the (already lower-cased) term. */
  predicate Hit(e: Expense, t: string)
    ensures t == [] ==> Hit(e, t)
  {
    Contains(Lower(e.note), t) || Contains(Lower(e.category), t)
  }

  /**
   * `search`: the records whose lower-cased note or lower-cased category
   * contains the lower-cased term, each as often as in the store.
   */
  function Search(s: seq<Expense>, term: string): (r: seq<Expense>)
    ensures forall e :: e in r <==> e in s && Hit(e, Lower(term))
  {
    if s == [] then []
    else
      assert s == [s[0]] + s[1..];
      (if Hit(s[0], Lower(term)) then [s[0]] else []) + Search(s[1..], term)
  }

  /** The search keeps every hit as often as the store holds it, and drops the others. */
  lemma {:induction false} SearchCount(s: seq<Expense>, term: string, e: Expense)
    ensures multiset(Search(s, term))[e] == if Hit(e, Lower(term)) then multiset(s)[e] else 0
  {
    if s != [] {
      SearchCount(s[1..], term, e);
      assert s == [s[0]] + s[1..];
    }
  }

  /** `r` is `s` with some elements left out and the rest in their order. */
  predicate IsSubsequence<T(==)>(r: seq<T>, s: seq<T>)
    decreases |s|
  {
    if r == [] then true
    else if s == [] then false
    else if r[0] == s[0] then IsSubsequence(r[1..], s[1..])
    else IsSubsequence(r, s[1..])
  }

  /** The search result keeps the store order. */
  lemma {:induction false} SearchInStoreOrder(s: seq<Expense>, term: string)
    ensures IsSubsequence(Search(s, term), s)
  {
    if s != [] {
      SearchInStoreOrder(s[1..], term);
      var r := Search(s, term);
      if Hit(s[0], Lower(term)) {
        assert r[0] == s[0] && r[1..] == Search(s[1..], term);
      } else {
        assert r == Search(s[1..], term);
        if r != [] {
          assert r[0] in r;
          assert r[0] != s[0];
        }
      }
    }
  }

  // ------------------------------------------------------------- import

  /**
   * One element of an imported JSON array, with the conversions already
   * applied: `amount` is `None` when the key is missing or `float()` rejects
   * it; `category`, `date` and `note` are `None` when the key is absent.
   * `NotAnObject` stands for an element whose fields cannot be read.
   */
  datatype RawRecord =
    | Object(amount: Option<int>, category: Option<string>, date: Option<string>, note: Option<string>)
    | NotAnObject

  /** Whether `import_from_json` adds this element instead of skipping it. */
  predicate Accepted(raw: RawRecord, today: Date, parse: (Format, string) -> Option<Date>)
    ensures !raw.Object? || raw.amount.None? ==> !Accepted(raw, today, parse)
    ensures raw.Object? && raw.amount.Some? && Lower(Strip(raw.date.GetOr(""))) in {"", "today", "t"}
            ==> Accepted(raw, today, parse)
  {
    raw.Object? && raw.amount.Some? && ParseDate(raw.date.GetOr(""), today, parse).Some?
  }

  /** One step of the import loop: add the element with its defaults, or skip it. */
  function ImportOne(s: seq<Expense>, raw: RawRecord, today: Date, parse: (Format, string) -> Option<Date>): (r: seq<Expense>)
    ensures Accepted(raw, today, parse) ==> |r| == |s| + 1 && r[..|s|] == s
    ensures Accepted(raw, today, parse) ==>
              && r[|s|].id == NextId(s)
              && r[|s|].amount == raw.amount.value
              && r[|s|].category == Strip(raw.category.GetOr("uncategorized"))
              && r[|s|].date == ParseDate(raw.date.GetOr(""), today, parse).value
              && r[|s|].note == Strip(raw.note.GetOr(""))
    ensures !Accepted(raw, today, parse) ==> r == s
  {
    if Accepted(raw, today, parse) then
      Add(s, raw.amount.value, raw.category.GetOr("uncategorized"),
          ParseDate(raw.date.GetOr(""), today, parse).value, raw.note.GetOr(""))
    else s
  }

  /** The store after importing the elements of `data` in order. */
  function ImportAll(s: seq<Expense>, data: seq<RawRecord>, today: Date, parse: (Format, string) -> Option<Date>): (r: seq<Expense>)
    decreases data
    ensures |s| <= |r| <= |s| + |data|
    ensures r[..|s|] == s
  {
    if data == [] then s
    else
      var next := ImportOne(s, data[0], today, parse);
      var r := ImportAll(next, data[1..], today, parse);
      assert r[..|s|] == r[..|next|][..|s|];
      r
  }

  /** How many elements of `data` the import accepts. */
  function AcceptedCount(data: seq<RawRecord>, today: Date, parse: (Format, string) -> Option<Date>): nat {
    if data == [] then 0
    else (if Accepted(data[0], today, parse) then 1 else 0) + AcceptedCount(data[1..], today, parse)
  }

  /**
   * Import keeps every record already present, in place, and adds exactly
   * one record per accepted element, so at most `|data|`; ids stay unique.
   */
  lemma {:induction false} ImportAllGrows(s: seq<Expense>, data: seq<RawRecord>, today: Date, parse: (Format, string) -> Option<Date>)
    decreases data
    ensures |ImportAll(s, data, today, parse)| == |s| + AcceptedCount(data, today, parse)
    ensures AcceptedCount(data, today, parse) <= |data|
    ensures ImportAll(s, data, today, parse)[..|s|] == s
    ensures UniqueIds(s) ==> UniqueIds(ImportAll(s, data, today, parse))
  {
    if data != [] {
      var next := ImportOne(s, data[0], today, parse);
      ImportAllGrows(next, data[1..], today, parse);
      assert ImportAll(s, data, today, parse)[..|s|] == ImportAll(next, data[1..], today, parse)[..|next|][..|s|];
      if UniqueIds(s) && Accepted(data[0], today, parse) {
        AddKeepsIdsUnique(s, data[0].amount.value, data[0].category.GetOr("uncategorized"),
                          ParseDate(data[0].date.GetOr(""), today, parse).value, data[0].note.GetOr(""));
      }
    }
  }
}
