/** `filter_and_sort` (scripts/utils/alphav_functions.py, "Function 4.0"): keep the entries of
    a series that are newer than the watermark (or all of them on a full load) and order
    them by date string, as Python's stable `sorted(rows, key=lambda x: x[0])` does. */
module Incremental {
  import opened Wrappers
  import opened Faults
  import opened Dates
  import opened Json

  /** A `(date, values)` pair: a dict entry, or `(item["date"], item)` for a list item. */
  type Pair = (string, Value)

  /** `full_load or date > max_data_date`, with Python's short-circuit: the comparison is only
      made on an incremental load, and comparing a str with None raises TypeError. */
  function Keep(date: string, maxDataDate: Option<string>, fullLoad: bool): Result<bool, Fault> {
    if fullLoad then Success(true)
    else if maxDataDate.None? then Failure(TypeError)
    else Success(Lt(maxDataDate.value, date))
  }

  /** `item["date"]` for an item of a list-shaped series. */
  function ItemDate(item: Value): Result<string, Fault> {
    match item
    case Obj(fields) =>
      if !HasKey(fields, "date") then Failure(KeyError("date"))
      else if GetOr(fields, "date", Null).Str? then Success(GetOr(fields, "date", Null).s)
      else Failure(TypeError)
    case _ => Failure(TypeError)
  }

  /** The comprehension over `series.items()` for a dict-shaped series. */
  function SelectEntries(entries: seq<Pair>, maxDataDate: Option<string>, fullLoad: bool): Result<seq<Pair>, Fault> {
    if |entries| == 0 then Success([])
    else
      var keep :- Keep(entries[0].0, maxDataDate, fullLoad);
      var rest :- SelectEntries(entries[1..], maxDataDate, fullLoad);
      Success(if keep then [entries[0]] + rest else rest)
  }

  /** The comprehension over the items of a list-shaped series. */
  function SelectItems(items: seq<Value>, maxDataDate: Option<string>, fullLoad: bool): Result<seq<Pair>, Fault> {
    if |items| == 0 then Success([])
    else
      var date :- ItemDate(items[0]);
      var keep :- Keep(date, maxDataDate, fullLoad);
      var rest :- SelectItems(items[1..], maxDataDate, fullLoad);
      Success(if keep then [(date, items[0])] + rest else rest)
  }

  /** The filtering half of `filter_and_sort`. A dict takes the first branch; anything else is
      iterated as a list: a str yields its characters, which cannot be subscripted with "date",
      and None, a number or a bool cannot be iterated at all. */
  function SelectRows(series: Value, maxDataDate: Option<string>, fullLoad: bool): Result<seq<Pair>, Fault> {
    match series
    case Obj(entries) => SelectEntries(entries, maxDataDate, fullLoad)
    case Arr(items) => SelectItems(items, maxDataDate, fullLoad)
    case Str(s) => if |s| == 0 then Success([]) else Failure(TypeError)
    case _ => Failure(TypeError)
  }

  /** Place `x` before the first element whose date is not smaller, so that equal dates keep
      their input order. */
  function Insert(x: Pair, ps: seq<Pair>): seq<Pair> {
    if |ps| == 0 then [x]
    else if Lt(ps[0].0, x.0) then [ps[0]] + Insert(x, ps[1..])
    else [x] + ps
  }

  /** The stable sort by date string that `sorted(rows, key=lambda x: x[0])` performs. */
  function SortByDate(ps: seq<Pair>): seq<Pair> {
    if |ps| == 0 then [] else Insert(ps[0], SortByDate(ps[1..]))
  }

  /** `filter_and_sort(series, max_data_date, full_load)`. */
  function FilterAndSort(series: Value, maxDataDate: Option<string>, fullLoad: bool): Result<seq<Pair>, Fault> {
    var rows :- SelectRows(series, maxDataDate, fullLoad);
    Success(SortByDate(rows))
  }

  // ------------------------------------------------------------------------------------
  // Reference definitions the lemmas below compare the implementation with.

  /** Ascending by date string. */
  predicate Sorted(ps: seq<Pair>) {
    forall i, j | 0 <= i < j < |ps| :: Le(ps[i].0, ps[j].0)
  }

  /** The pairs whose date is exactly `d`, in their order. */
  function WithDate(ps: seq<Pair>, d: string): seq<Pair> {
    if |ps| == 0 then []
    else if ps[0].0 == d then [ps[0]] + WithDate(ps[1..], d)
    else WithDate(ps[1..], d)
  }

  /** The pairs dated strictly after `w`, in their order. */
  function After(ps: seq<Pair>, w: string): seq<Pair> {
    if |ps| == 0 then []
    else if Lt(w, ps[0].0) then [ps[0]] + After(ps[1..], w)
    else After(ps[1..], w)
  }

  /** `(item["date"], item)` for the items whose "date" is a str. */
  function ItemPairs(items: seq<Value>): seq<Pair> {
    if |items| == 0 then []
    else if ItemDate(items[0]).Success? then [(ItemDate(items[0]).value, items[0])] + ItemPairs(items[1..])
    else ItemPairs(items[1..])
  }

  /** The entries of a series as `filter_and_sort` pairs them up, before any filtering. */
  function PairsOf(series: Value): seq<Pair> {
    match series
    case Obj(entries) => entries
    case Arr(items) => ItemPairs(items)
    case _ => []
  }

  /** A series `filter_and_sort` can walk without raising: a dict, a list of dicts that each
      carry a str "date", or the empty str. */
  predicate Iterable(series: Value) {
    match series
    case Obj(_) => true
    case Arr(items) => forall i | 0 <= i < |items| :: ItemDate(items[i]).Success?
    case Str(s) => |s| == 0
    case _ => false
  }

  // ------------------------------------------------------------------------------------
  // Sorting: SortByDate is a stable sort by date string.

  lemma {:induction false} InsertPermutes(x: Pair, ps: seq<Pair>)
    ensures multiset(Insert(x, ps)) == multiset(ps) + multiset{x}
  {
    if |ps| > 0 {
      assert ps == [ps[0]] + ps[1..];
      if Lt(ps[0].0, x.0) {
        InsertPermutes(x, ps[1..]);
      }
    }
  }

  lemma {:induction false} SortByDatePermutes(ps: seq<Pair>)
    ensures multiset(SortByDate(ps)) == multiset(ps)
  {
    if |ps| > 0 {
      assert ps == [ps[0]] + ps[1..];
      SortByDatePermutes(ps[1..]);
      InsertPermutes(ps[0], SortByDate(ps[1..]));
    }
  }

  lemma {:induction false} InsertSorted(x: Pair, ps: seq<Pair>)
    requires Sorted(ps)
    ensures Sorted(Insert(x, ps))
  {
    if |ps| == 0 {
    } else if Lt(ps[0].0, x.0) {
      var rest := Insert(x, ps[1..]);
      InsertSorted(x, ps[1..]);
      InsertPermutes(x, ps[1..]);
      forall k | 0 <= k < |rest| ensures Le(ps[0].0, rest[k].0) {
        assert rest[k] in multiset(rest);
        if rest[k] == x {
          LtImpliesLe(ps[0].0, x.0);
        } else {
          assert rest[k] in multiset(ps[1..]);
          var j :| 0 <= j < |ps[1..]| && ps[1..][j] == rest[k];
          assert ps[j + 1] == rest[k];
        }
      }
      assert Insert(x, ps) == [ps[0]] + rest;
    } else {
      forall k | 0 <= k < |ps| ensures Le(x.0, ps[k].0) {
        if k > 0 {
          LeTransitive(x.0, ps[0].0, ps[k].0);
        }
      }
    }
  }

  lemma {:induction false} SortByDateSorted(ps: seq<Pair>)
    ensures Sorted(SortByDate(ps))
  {
    if |ps| > 0 {
      SortByDateSorted(ps[1..]);
      InsertSorted(ps[0], SortByDate(ps[1..]));
    }
  }

  lemma {:induction false} InsertKeepsOrderOfEqualDates(x: Pair, ps: seq<Pair>, d: string)
    ensures WithDate(Insert(x, ps), d) == (if x.0 == d then [x] else []) + WithDate(ps, d)
  {
    if |ps| > 0 {
      if Lt(ps[0].0, x.0) {
        InsertKeepsOrderOfEqualDates(x, ps[1..], d);
        if x.0 == d {
          LtImpliesLe(ps[0].0, x.0);
        }
      } else {
        assert Insert(x, ps) == [x] + ps;
        assert ([x] + ps)[1..] == ps;
      }
    }
  }

  lemma {:induction false} SortByDateStable(ps: seq<Pair>, d: string)
    ensures WithDate(SortByDate(ps), d) == WithDate(ps, d)
  {
    if |ps| > 0 {
      SortByDateStable(ps[1..], d);
      InsertKeepsOrderOfEqualDates(ps[0], SortByDate(ps[1..]), d);
    }
  }

  // ------------------------------------------------------------------------------------
  // Filtering: which entries the comprehension keeps, and when it raises.

  lemma {:induction false} SelectEntriesFull(entries: seq<Pair>, maxDataDate: Option<string>)
    ensures SelectEntries(entries, maxDataDate, true) == Success(entries)
  {
    if |entries| > 0 {
      SelectEntriesFull(entries[1..], maxDataDate);
      assert entries == [entries[0]] + entries[1..];
    }
  }

  lemma {:induction false} SelectEntriesIncremental(entries: seq<Pair>, w: string)
    ensures SelectEntries(entries, Some(w), false) == Success(After(entries, w))
  {
    if |entries| > 0 {
      SelectEntriesIncremental(entries[1..], w);
    }
  }

  lemma SelectEntriesWithoutWatermark(entries: seq<Pair>)
    ensures SelectEntries(entries, None, false).Success? <==> |entries| == 0
  {
  }

  lemma {:induction false} SelectItemsOutcome(items: seq<Value>, maxDataDate: Option<string>, fullLoad: bool)
    ensures SelectItems(items, maxDataDate, fullLoad).Success? <==>
              (forall i | 0 <= i < |items| :: ItemDate(items[i]).Success?)
              && (fullLoad || maxDataDate.Some? || |items| == 0)
  {
    if |items| > 0 {
      SelectItemsOutcome(items[1..], maxDataDate, fullLoad);
      if forall i | 0 <= i < |items| :: ItemDate(items[i]).Success? {
        assert forall i | 0 <= i < |items[1..]| :: ItemDate(items[1..][i]).Success? by {
          forall i | 0 <= i < |items[1..]| ensures ItemDate(items[1..][i]).Success? {
            assert items[1..][i] == items[i + 1];
          }
        }
      } else {
        var i :| 0 <= i < |items| && ItemDate(items[i]).Failure?;
        if i > 0 {
          assert items[1..][i - 1] == items[i];
        }
      }
    }
  }

  lemma {:induction false} SelectItemsFull(items: seq<Value>, maxDataDate: Option<string>)
    requires forall i | 0 <= i < |items| :: ItemDate(items[i]).Success?
    ensures SelectItems(items, maxDataDate, true) == Success(ItemPairs(items))
  {
    if |items| > 0 {
      assert forall i | 0 <= i < |items[1..]| :: items[1..][i] == items[i + 1];
      SelectItemsFull(items[1..], maxDataDate);
    }
  }

  lemma {:induction false} SelectItemsIncremental(items: seq<Value>, w: string)
    requires forall i | 0 <= i < |items| :: ItemDate(items[i]).Success?
    ensures SelectItems(items, Some(w), false) == Success(After(ItemPairs(items), w))
  {
    if |items| > 0 {
      assert forall i | 0 <= i < |items[1..]| :: items[1..][i] == items[i + 1];
      SelectItemsIncremental(items[1..], w);
    }
  }

  lemma {:induction false} ItemPairsOfWellFormed(items: seq<Value>)
    requires forall i | 0 <= i < |items| :: ItemDate(items[i]).Success?
    ensures |ItemPairs(items)| == |items|
  {
    if |items| > 0 {
      assert forall i | 0 <= i < |items[1..]| :: items[1..][i] == items[i + 1];
      ItemPairsOfWellFormed(items[1..]);
    }
  }

  lemma {:induction false} AfterCounts(ps: seq<Pair>, w: string)
    ensures forall p :: multiset(After(ps, w))[p] == if Lt(w, p.0) then multiset(ps)[p] else 0
  {
    if |ps| > 0 {
      AfterCounts(ps[1..], w);
      assert ps == [ps[0]] + ps[1..];
    }
  }

  lemma {:induction false} AfterWithDate(ps: seq<Pair>, w: string, d: string)
    ensures WithDate(After(ps, w), d) == if Lt(w, d) then WithDate(ps, d) else []
  {
    if |ps| > 0 {
      AfterWithDate(ps[1..], w, d);
    }
  }

  lemma SelectRowsFull(series: Value, maxDataDate: Option<string>)
    requires Iterable(series)
    ensures SelectRows(series, maxDataDate, true) == Success(PairsOf(series))
  {
    match series
    case Obj(entries) => SelectEntriesFull(entries, maxDataDate);
    case Arr(items) => SelectItemsFull(items, maxDataDate);
    case Str(_) =>
  }

  lemma SelectRowsIncremental(series: Value, w: string)
    requires Iterable(series)
    ensures SelectRows(series, Some(w), false) == Success(After(PairsOf(series), w))
  {
    match series
    case Obj(entries) => SelectEntriesIncremental(entries, w);
    case Arr(items) => SelectItemsIncremental(items, w);
    case Str(_) =>
  }

  // ------------------------------------------------------------------------------------
  // What filter_and_sort promises.

  /** `filter_and_sort` raises exactly when the series cannot be walked, or when an incremental
      load would compare a date with a missing watermark. */
  lemma FilterAndSortOutcome(series: Value, maxDataDate: Option<string>, fullLoad: bool)
    ensures FilterAndSort(series, maxDataDate, fullLoad).Success? <==>
              Iterable(series) && (fullLoad || maxDataDate.Some? || |PairsOf(series)| == 0)
  {
    match series
    case Obj(entries) =>
      if fullLoad {
        SelectEntriesFull(entries, maxDataDate);
      } else if maxDataDate.Some? {
        SelectEntriesIncremental(entries, maxDataDate.value);
      } else {
        SelectEntriesWithoutWatermark(entries);
      }
    case Arr(items) =>
      SelectItemsOutcome(items, maxDataDate, fullLoad);
      if Iterable(series) {
        ItemPairsOfWellFormed(items);
      }
    case Str(_) =>
    case Null =>
    case Bool(_) =>
    case Num(_) =>
  }

  /** On a full load every entry comes back, each exactly as often as it occurs, in ascending
      date order, and entries with equal dates keep their input order. */
  lemma FullLoadKeepsEverything(series: Value, maxDataDate: Option<string>)
    requires Iterable(series)
    ensures FilterAndSort(series, maxDataDate, true).Success?
    ensures var out := FilterAndSort(series, maxDataDate, true).value;
            && multiset(out) == multiset(PairsOf(series))
            && Sorted(out)
            && forall d :: WithDate(out, d) == WithDate(PairsOf(series), d)
  {
    var ps := PairsOf(series);
    SelectRowsFull(series, maxDataDate);
    SortByDatePermutes(ps);
    SortByDateSorted(ps);
    forall d ensures WithDate(SortByDate(ps), d) == WithDate(ps, d) {
      SortByDateStable(ps, d);
    }
  }

  /** On an incremental load exactly the entries dated strictly after the watermark come back,
      each as often as it occurs, in ascending date order, equal dates in input order. */
  lemma IncrementalKeepsNewer(series: Value, w: string)
    requires Iterable(series)
    ensures FilterAndSort(series, Some(w), false).Success?
    ensures var out := FilterAndSort(series, Some(w), false).value;
            && (forall i | 0 <= i < |out| :: Lt(w, out[i].0))
            && (forall p | p in PairsOf(series) && Lt(w, p.0) :: p in out)
            && (forall p :: multiset(out)[p] == if Lt(w, p.0) then multiset(PairsOf(series))[p] else 0)
            && Sorted(out)
            && (forall d :: WithDate(out, d) == if Lt(w, d) then WithDate(PairsOf(series), d) else [])
  {
    var ps := PairsOf(series);
    var kept := After(ps, w);
    var out := SortByDate(kept);
    SelectRowsIncremental(series, w);
    SortByDatePermutes(kept);
    SortByDateSorted(kept);
    AfterCounts(ps, w);
    forall i | 0 <= i < |out| ensures Lt(w, out[i].0) {
      assert out[i] in multiset(out);
    }
    forall p | p in ps && Lt(w, p.0) ensures p in out {
      assert p in multiset(ps);
      assert p in multiset(out);
    }
    forall d ensures WithDate(out, d) == if Lt(w, d) then WithDate(ps, d) else [] {
      SortByDateStable(kept, d);
      AfterWithDate(ps, w, d);
    }
  }

  /** The last pair of a date-sorted sequence is no older than any pair in it. */
  lemma SortedLastIsNewest(out: seq<Pair>, p: Pair)
    requires Sorted(out) && p in out
    ensures Le(p.0, out[|out| - 1].0)
  {
    var i :| 0 <= i < |out| && out[i] == p;
    if i == |out| - 1 {
      LtIrreflexive(p.0);
    }
  }

  /** An incremental filter with no watermark succeeds only on an empty series. */
  lemma WithoutWatermarkNothing(series: Value, out: seq<Pair>)
    requires FilterAndSort(series, None, false) == Success(out)
    ensures out == []
  {
    FilterAndSortOutcome(series, None, false);
    if series.Arr? {
      ItemPairsOfWellFormed(series.items);
    }
  }

  /** On a full load the last pair returned has the greatest date of the series. */
  lemma LastIsNewestFull(series: Value, maxDataDate: Option<string>, out: seq<Pair>)
    requires FilterAndSort(series, maxDataDate, true) == Success(out) && |out| > 0
    ensures out[|out| - 1] in PairsOf(series)
    ensures forall p | p in PairsOf(series) :: Le(p.0, out[|out| - 1].0)
  {
    FilterAndSortOutcome(series, maxDataDate, true);
    FullLoadKeepsEverything(series, maxDataDate);
    assert out[|out| - 1] in multiset(out);
    forall p | p in PairsOf(series) ensures Le(p.0, out[|out| - 1].0) {
      assert p in multiset(PairsOf(series));
      SortedLastIsNewest(out, p);
    }
  }

  /** On an incremental load the last pair returned has the greatest date of the series, and
      that date is after the watermark. */
  lemma LastIsNewestIncremental(series: Value, w: string, out: seq<Pair>)
    requires FilterAndSort(series, Some(w), false) == Success(out) && |out| > 0
    ensures out[|out| - 1] in PairsOf(series)
    ensures forall p | p in PairsOf(series) :: Le(p.0, out[|out| - 1].0)
    ensures Lt(w, out[|out| - 1].0)
  {
    var last := out[|out| - 1];
    FilterAndSortOutcome(series, Some(w), false);
    IncrementalKeepsNewer(series, w);
    assert multiset(out)[last] > 0;
    forall p | p in PairsOf(series) ensures Le(p.0, last.0) {
      if Lt(w, p.0) {
        assert p in out;
        SortedLastIsNewest(out, p);
      } else {
        LtTrichotomous(w, p.0);
        LtImpliesLe(w, last.0);
        if p.0 != w {
          LtImpliesLe(p.0, w);
        }
        LeTransitive(p.0, w, last.0);
      }
    }
  }

  /** The last pair `filter_and_sort` returns carries the greatest date of the whole series
      (every entry it left out was older than the watermark, hence than that date). */
  lemma LastIsNewest(series: Value, maxDataDate: Option<string>, fullLoad: bool, out: seq<Pair>)
    requires FilterAndSort(series, maxDataDate, fullLoad) == Success(out) && |out| > 0
    ensures out[|out| - 1] in PairsOf(series)
    ensures forall p | p in PairsOf(series) :: Le(p.0, out[|out| - 1].0)
    ensures !fullLoad ==> maxDataDate.Some? && Lt(maxDataDate.value, out[|out| - 1].0)
  {
    if fullLoad {
      LastIsNewestFull(series, maxDataDate, out);
    } else if maxDataDate.Some? {
      LastIsNewestIncremental(series, maxDataDate.value, out);
    } else {
      WithoutWatermarkNothing(series, out);
    }
  }

  /** Once the watermark is the newest date of the series, an incremental load of the same
      series keeps nothing. */
  lemma NothingAfterNewest(series: Value, d: string)
    requires Iterable(series)
    requires forall p | p in PairsOf(series) :: Le(p.0, d)
    ensures FilterAndSort(series, Some(d), false) == Success([])
  {
    var ps := PairsOf(series);
    SelectRowsIncremental(series, d);
    AfterCounts(ps, d);
    forall p ensures multiset(After(ps, d))[p] == 0 {
      if p in ps {
        assert Le(p.0, d);
      }
    }
    assert multiset(After(ps, d)) == multiset{};
  }
}
