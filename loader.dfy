/** `alphav_loader` (scripts/utils/alphav_functions.py, "Function X"): one end-to-end load of
    one (source type, symbol, market, interval). The HTTP fetch is replaced by its decoded
    response, an input; debug output and the throttling sleep are left out. */
module Loader {
  import opened Wrappers
  import opened Faults
  import opened Dates
  import opened Json
  import opened Parsers
  import opened Incremental
  import opened Normalize
  import opened Store

  /** The closed set of source types the loader dispatches on. */
  datatype SourceType = Stocks | Fx | Crypto | Commodity

  function NameOf(kind: SourceType): string {
    match kind
    case Stocks => "stocks"
    case Fx => "fx"
    case Crypto => "crypto"
    case Commodity => "commodity"
  }

  /** The `if/elif` chain on `source_type`; None is the `else` that raises ValueError. */
  function ParseSourceType(sourceType: string): (kind: Option<SourceType>)
    ensures kind.Some? <==> sourceType in {"stocks", "fx", "crypto", "commodity"}
    ensures kind.Some? ==> NameOf(kind.value) == sourceType
  {
    if sourceType == "stocks" then Some(Stocks)
    else if sourceType == "fx" then Some(Fx)
    else if sourceType == "crypto" then Some(Crypto)
    else if sourceType == "commodity" then Some(Commodity)
    else None
  }

  /** The table the chosen inserter writes to. */
  function TableFor(kind: SourceType): TableId {
    match kind
    case Stocks => StocksDaily
    case Fx => FxDaily
    case Crypto => CryptoDaily
    case Commodity => CommodityTable
  }

  /** The parser lambda chosen for the source type: fx and crypto pass the market as the
      second currency, stocks and commodities ignore it. */
  function ParseRow(num: Numeric, kind: SourceType, symbol: string, market: string, date: string, values: Value): Result<Row, Fault> {
    match kind
    case Stocks => ParseStocksRow(num, symbol, date, values)
    case Fx => ParseFxRow(num, symbol, market, date, values)
    case Crypto => ParseCryptoRow(num, symbol, market, date, values)
    case Commodity => ParseCommodityRow(num, symbol, date, values)
  }

  /** `extract_date` finds the date each parser wrote: column 1 for stocks and commodities,
      column 2 for fx and crypto. */
  lemma ExtractDateOfParsedRow(num: Numeric, kind: SourceType, symbol: string, market: string, date: string, values: Value)
    requires ParseRow(num, kind, symbol, market, date, values).Success?
    ensures var row := ParseRow(num, kind, symbol, market, date, values).value;
            DateColumn(NameOf(kind)) < |row| && ExtractDate(row, NameOf(kind)) == TextCell(date)
  {
  }

  /** A list comprehension whose element expression may raise: the first element that
      fails aborts the whole comprehension with its exception. */
  function Collect<A, B>(f: A -> Result<B, Fault>, xs: seq<A>): Result<seq<B>, Fault>
    decreases |xs|
  {
    if |xs| == 0 then Success([])
    else
      var y :- f(xs[0]);
      var rest :- Collect(f, xs[1..]);
      Success([y] + rest)
  }

  /** A comprehension succeeds iff every element's expression succeeds. */
  lemma {:induction false} CollectOutcome<A, B>(f: A -> Result<B, Fault>, xs: seq<A>)
    ensures Collect(f, xs).Success? <==> forall i | 0 <= i < |xs| :: f(xs[i]).Success?
    decreases |xs|
  {
    if |xs| > 0 {
      var rest := xs[1..];
      CollectOutcome(f, rest);
      if f(xs[0]).Success? && Collect(f, rest).Success? {
        forall i | 0 < i < |xs| ensures f(xs[i]).Success? {
          assert xs[i] == rest[i - 1];
        }
      } else if f(xs[0]).Success? {
        var k :| 0 <= k < |rest| && f(rest[k]).Failure?;
        assert xs[k + 1] == rest[k];
      }
    }
  }

  /** A comprehension that succeeds holds, in order, one result per element. */
  lemma {:induction false} CollectInOrder<A, B>(f: A -> Result<B, Fault>, xs: seq<A>)
    requires Collect(f, xs).Success?
    ensures var ys := Collect(f, xs).value;
            && |ys| == |xs|
            && forall i | 0 <= i < |xs| :: f(xs[i]) == Success(ys[i])
    decreases |xs|
  {
    if |xs| > 0 {
      var rest := xs[1..];
      CollectInOrder(f, rest);
      var ys := Collect(f, xs).value;
      assert ys == [f(xs[0]).value] + Collect(f, rest).value;
      forall i | 0 < i < |xs| ensures f(xs[i]) == Success(ys[i]) {
        assert xs[i] == rest[i - 1];
      }
    }
  }

  /** The `parser` lambda applied to one `(date, values)` pair. */
  function RowParser(num: Numeric, kind: SourceType, symbol: string, market: string): Pair -> Result<Row, Fault> {
    (p: Pair) => ParseRow(num, kind, symbol, market, p.0, p.1)
  }

  /** `new_rows = [parser(date, values) for date, values in filtered_rows]`. */
  function ParseRows(num: Numeric, kind: SourceType, symbol: string, market: string, pairs: seq<Pair>): Result<seq<Row>, Fault> {
    Collect(RowParser(num, kind, symbol, market), pairs)
  }

  /** Every parsed row carries its pair's date where `extract_date` looks for it. */
  lemma ParsedRowDates(num: Numeric, kind: SourceType, symbol: string, market: string, pairs: seq<Pair>)
    requires ParseRows(num, kind, symbol, market, pairs).Success?
    ensures |ParseRows(num, kind, symbol, market, pairs).value| == |pairs|
    ensures var rows := ParseRows(num, kind, symbol, market, pairs).value;
            forall i | 0 <= i < |pairs| ::
              DateColumn(NameOf(kind)) < |rows[i]| && ExtractDate(rows[i], NameOf(kind)) == TextCell(pairs[i].0)
  {
    CollectInOrder(RowParser(num, kind, symbol, market), pairs);
    forall i | 0 <= i < |pairs| {
      ExtractDateOfParsedRow(num, kind, symbol, market, pairs[i].0, pairs[i].1);
    }
  }

  /** Step 1 of the loader: `(max_data_date, full_load)`. A history sweep ignores the stored
      watermark; otherwise a missing watermark forces a full load. */
  function ResolveMode(historySweep: bool, stored: Option<string>): (mode: (Option<string>, bool))
    ensures mode.1 <==> historySweep || stored.None?
    ensures historySweep ==> mode.0.None?
    ensures !historySweep ==> mode.0 == stored
    ensures !mode.1 ==> mode.0.Some?
  {
    if historySweep then (None, true) else (stored, stored.None?)
  }

  /** The response after steps 2 and 3 of the loader, before dispatch. */
  datatype Fetched = Fetched(meta: Value, series: Value, apiLastRefresh: Value)

  /** `meta, series = fetch_alpha_vantage(...)` and the `api_last_refresh` lookup. */
  function Fetch(response: Value): (r: Result<Fetched, Fault>)
    ensures r.Success? ==> r.value.meta.Obj?
  {
    var classified :- ClassifyResponse(response);
    var apiLastRefresh :- LastRefreshed(classified.0);
    Success(Fetched(classified.0, classified.1, apiLastRefresh))
  }

  /** The commodity branch of the dispatch upserts the lookup row before anything is filtered. */
  function LookupStep(s: StoreState, kind: SourceType, symbol: string, meta: Value): StoreState
    requires meta.Obj?
  {
    if kind == Commodity then
      UpsertLookupIn(s, symbol, GetOr(meta.fields, "name", Null), GetOr(meta.fields, "interval", Null), GetOr(meta.fields, "unit", Null))
    else s
  }

  /** The lookup step writes the lookup table and nothing else. */
  lemma LookupStepTouchesOnlyLookup(s: StoreState, kind: SourceType, symbol: string, meta: Value)
    requires meta.Obj?
    ensures LookupStep(s, kind, symbol, meta).(commodityLookup := s.commodityLookup) == s
    ensures kind != Commodity ==> LookupStep(s, kind, symbol, meta) == s
  {
  }

  /** Every commodity load whose response was classified upserts the lookup row of its
      symbol with the response's name, interval and unit, whether or not any rows follow
      and even when parsing them raises; no other lookup row changes. */
  lemma CommodityLoadUpsertsLookup(s: StoreState, num: Numeric, response: Value, sourceType: string, symbol: string,
                                   market: string, interval: string, historySweep: bool)
    requires Fetch(response).Success? && ParseSourceType(sourceType) == Some(Commodity)
    ensures var meta := Fetch(response).value.meta;
            var entry := LookupEntry(GetOr(meta.fields, "name", Null), GetOr(meta.fields, "interval", Null),
                                     GetOr(meta.fields, "unit", Null));
            LoadEffect(s, num, response, sourceType, symbol, market, interval, historySweep).0.commodityLookup
              == s.commodityLookup[symbol := entry]
  {
    var fetched := Fetch(response).value;
    var key := MetaKey(sourceType, symbol, market, interval);
    var mode := ResolveMode(historySweep, Watermark(s, key));
    var s1 := LookupStep(s, Commodity, symbol, fetched.meta);
    var parsed := NewRows(num, Commodity, symbol, market, fetched.series, mode.0, mode.1);
    if parsed.Success? {
      SettleKeepsLookup(s1, Commodity, key, parsed.value, fetched.apiLastRefresh);
    }
  }

  /** An error payload or a rate-limit note (a dict with no series, no commodity data and no
      "Meta Data") still reaches the commodity branch with empty metadata. The lookup row of
      the symbol is then overwritten with (None, None, None), whatever it held before, while
      the load returns no rows and writes nothing else. */
  lemma ErrorPayloadClearsLookup(s: StoreState, num: Numeric, fields: seq<(string, Value)>, sourceType: string,
                                 symbol: string, market: string, interval: string, historySweep: bool)
    requires ParseSourceType(sourceType) == Some(Commodity)
    requires NoSeriesKey(fields) && !(HasKey(fields, "data") && HasKey(fields, "name")) && !HasKey(fields, "Meta Data")
    ensures var (s', r) := LoadEffect(s, num, Obj(fields), sourceType, symbol, market, interval, historySweep);
            && s' == s.(commodityLookup := s.commodityLookup[symbol := LookupEntry(Null, Null, Null)])
            && r == Success([])
  {
    var key := MetaKey(sourceType, symbol, market, interval);
    var mode := ResolveMode(historySweep, Watermark(s, key));
    UnrecognisedResponseHasNoRows(fields, mode.0, mode.1);
    assert ClassifyResponse(Obj(fields)).value.0 == Obj([]);
    assert LastRefreshed(Obj([])) == Success(Null);
    var fetched := Fetch(Obj(fields)).value;
    assert fetched.meta == Obj([]) && fetched.series == Obj([]);
    assert NewRows(num, Commodity, symbol, market, fetched.series, mode.0, mode.1) == Success([]);
  }

  /** Storing rows and their watermark leaves the lookup table alone. */
  lemma SettleKeepsLookup(s: StoreState, kind: SourceType, key: MetaKey, rows: seq<Row>, apiLastRefresh: Value)
    requires Dated(rows, key.sourceType)
    ensures Settle(s, kind, key, rows, apiLastRefresh).commodityLookup == s.commodityLookup
  {
  }

  /** A write confined to the lookup table keeps every data row and every watermark. */
  lemma LookupOnlyExtends(s: StoreState, s': StoreState, key: MetaKey)
    requires s'.(commodityLookup := s.commodityLookup) == s
    ensures Extends(s, s', key)
    ensures ValidState(s) ==> ValidState(s')
  {
    forall id: TableId ensures KeepsRows(TableOf(s, id), TableOf(s', id)) {
      assert TableOf(s', id) == TableOf(s, id);
    }
  }

  /** Step 4: filter, sort, parse. */
  function NewRows(num: Numeric, kind: SourceType, symbol: string, market: string, series: Value,
                   maxDataDate: Option<string>, fullLoad: bool): (r: Result<seq<Row>, Fault>)
    ensures r.Success? ==> FilterAndSort(series, maxDataDate, fullLoad).Success?
    ensures r.Success? ==> var filtered := FilterAndSort(series, maxDataDate, fullLoad).value;
              && |r.value| == |filtered|
              && forall i | 0 <= i < |filtered| ::
                   DateColumn(NameOf(kind)) < |r.value[i]| && ExtractDate(r.value[i], NameOf(kind)) == TextCell(filtered[i].0)
  {
    var filtered :- FilterAndSort(series, maxDataDate, fullLoad);
    var rows :- ParseRows(num, kind, symbol, market, filtered);
    ParsedRowDates(num, kind, symbol, market, filtered);
    Success(rows)
  }

  /** Every row carries a date where `extract_date` reads it. */
  predicate Dated(rows: seq<Row>, sourceType: string) {
    forall i | 0 <= i < |rows| :: DateColumn(sourceType) < |rows[i]| && ExtractDate(rows[i], sourceType).TextCell?
  }

  /** `extract_date(rows[i], source_type)`. */
  function DateOf(rows: seq<Row>, sourceType: string, i: nat): string
    requires Dated(rows, sourceType) && i < |rows|
  {
    ExtractDate(rows[i], sourceType).text
  }

  /** Steps 5 and 6 when rows were parsed: insert them, then move the watermark to the date of
      the last one. */
  function Commit(s: StoreState, kind: SourceType, key: MetaKey, rows: seq<Row>, apiLastRefresh: Value): StoreState
    requires |rows| > 0 && DateColumn(key.sourceType) < |rows[|rows| - 1]|
    requires ExtractDate(rows[|rows| - 1], key.sourceType).TextCell?
  {
    var s' := InsertRowsInto(s, TableFor(kind), rows);
    UpsertMetadataIn(s', key, ExtractDate(rows[|rows| - 1], key.sourceType).text, apiLastRefresh)
  }

  /** Steps 5 and 6 as a whole: nothing is written when no rows were parsed. */
  function Settle(s: StoreState, kind: SourceType, key: MetaKey, rows: seq<Row>, apiLastRefresh: Value): StoreState
    requires Dated(rows, key.sourceType)
  {
    if |rows| == 0 then s else Commit(s, kind, key, rows, apiLastRefresh)
  }

  /** What one call of `alphav_loader` does: the database afterwards, and either the rows it
      parsed or the exception it raised. Writes committed before an exception stay. */
  function LoadEffect(s: StoreState, num: Numeric, response: Value, sourceType: string, symbol: string,
                      market: string, interval: string, historySweep: bool): (StoreState, Result<seq<Row>, Fault>)
  {
    var key := MetaKey(sourceType, symbol, market, interval);
    var mode := ResolveMode(historySweep, Watermark(s, key));
    match Fetch(response)
    case Failure(e) => (s, Failure(e))
    case Success(fetched) =>
      match ParseSourceType(sourceType)
      case None => (s, Failure(InvalidSourceType(sourceType)))
      case Some(kind) =>
        var s1 := LookupStep(s, kind, symbol, fetched.meta);
        match NewRows(num, kind, symbol, market, fetched.series, mode.0, mode.1)
        case Failure(e) => (s1, Failure(e))
        case Success(rows) =>
          (Settle(s1, kind, key, rows, fetched.apiLastRefresh), Success(rows))
  }

  /** The tail of `alphav_loader`: hand the rows to the inserter the source type picked, then
      record the date of the last row as the new watermark; when no rows were parsed, neither. */
  method StoreNewRows(store: Store, kind: SourceType, sourceType: string, symbol: string, market: string,
                      interval: string, newRows: seq<Row>, apiLastRefresh: Value)
    requires Dated(newRows, sourceType)
    modifies store
    ensures store.State() == Settle(old(store.State()), kind, MetaKey(sourceType, symbol, market, interval), newRows, apiLastRefresh)
  {
    if |newRows| > 0 {
      match kind {
        case Stocks => store.InsertStocksRows(newRows);
        case Fx => store.InsertFxRows(newRows);
        case Crypto => store.InsertCryptoRows(newRows);
        case Commodity => store.InsertCommoditiesRows(newRows);
      }
      assert store.State() == InsertRowsInto(old(store.State()), TableFor(kind), newRows);
      var maxDataDate := ExtractDate(newRows[|newRows| - 1], sourceType).text;
      store.UpsertMetadata(sourceType, symbol, market, interval, maxDataDate, apiLastRefresh);
    }
  }

  /** `alphav_loader(alphav_params, source_type, symbol, market, interval, history_sweep)`,
      with `response` the decoded body the request returned. It returns the rows it parsed. */
  method AlphavLoader(store: Store, num: Numeric, response: Value, sourceType: string, symbol: string,
                      market: string, interval: string, historySweep: bool)
    returns (result: Result<seq<Row>, Fault>)
    modifies store
    ensures (store.State(), result) == LoadEffect(old(store.State()), num, response, sourceType, symbol, market, interval, historySweep)
  {
    ghost var s0 := store.State();
    ghost var key := MetaKey(sourceType, symbol, market, interval);

    // 1. Look up metadata to decide between a full and an incremental load.
    var maxDataDate: Option<string>;
    var fullLoad: bool;
    if historySweep {
      maxDataDate := None;
      fullLoad := true;
    } else {
      maxDataDate := store.GetMetadata(sourceType, symbol, market, interval);
      fullLoad := maxDataDate.None?;
    }
    assert (maxDataDate, fullLoad) == ResolveMode(historySweep, Watermark(s0, key));

    // 2. The fetched response, classified, and its refresh stamp.
    var fetched := Fetch(response);
    if fetched.Failure? {
      return Failure(fetched.error);
    }
    var meta, series, apiLastRefresh := fetched.value.meta, fetched.value.series, fetched.value.apiLastRefresh;

    // 3. Pick parser and inserter; a commodity also refreshes its lookup row.
    var kind := ParseSourceType(sourceType);
    if kind.None? {
      return Failure(InvalidSourceType(sourceType));
    }
    if kind.value == Commodity {
      store.UpsertCommodityLookup(symbol, GetOr(meta.fields, "name", Null), GetOr(meta.fields, "interval", Null),
                                  GetOr(meta.fields, "unit", Null));
    }
    ghost var s1 := store.State();
    assert s1 == LookupStep(s0, kind.value, symbol, meta);

    // 4. Filter, sort, parse.
    var parsed := NewRows(num, kind.value, symbol, market, series, maxDataDate, fullLoad);
    if parsed.Failure? {
      return Failure(parsed.error);
    }
    var newRows := parsed.value;

    // 5. and 6. Insert, then advance the watermark, only when rows were parsed.
    StoreNewRows(store, kind.value, sourceType, symbol, market, interval, newRows, apiLastRefresh);
    return Success(newRows);
  }

  // Properties of one load.

  /** The mode the loader picks never asks `filter_and_sort` to compare a date with a missing
      watermark: filtering fails only on a series it cannot iterate. */
  lemma ModeNeverComparesWithNone(series: Value, historySweep: bool, stored: Option<string>)
    ensures var mode := ResolveMode(historySweep, stored);
            FilterAndSort(series, mode.0, mode.1).Success? <==> Iterable(series)
  {
    var mode := ResolveMode(historySweep, stored);
    FilterAndSortOutcome(series, mode.0, mode.1);
  }

  /** A load that returned no rows, or raised, wrote no data row and no watermark; the only
      write it may have committed is the lookup row of a commodity. */
  lemma NoRowsNoWrites(s: StoreState, num: Numeric, response: Value, sourceType: string, symbol: string,
                       market: string, interval: string, historySweep: bool)
    requires var r := LoadEffect(s, num, response, sourceType, symbol, market, interval, historySweep).1;
             r.Failure? || r.value == []
    ensures var s' := LoadEffect(s, num, response, sourceType, symbol, market, interval, historySweep).0;
            && s'.(commodityLookup := s.commodityLookup) == s
            && (sourceType != "commodity" ==> s' == s)
  {
    if Fetch(response).Success? && ParseSourceType(sourceType).Some? {
      var kind := ParseSourceType(sourceType).value;
      var meta := Fetch(response).value.meta;
      LookupStepTouchesOnlyLookup(s, kind, symbol, meta);
      var key := MetaKey(sourceType, symbol, market, interval);
      var mode := ResolveMode(historySweep, Watermark(s, key));
      var parsed := NewRows(num, kind, symbol, market, Fetch(response).value.series, mode.0, mode.1);
      assert parsed.Success? ==> parsed.value == [];
      assert LoadEffect(s, num, response, sourceType, symbol, market, interval, historySweep).0 == LookupStep(s, kind, symbol, meta);
    }
  }

  /** An unknown source type raises before anything is written. */
  lemma UnknownSourceTypeWritesNothing(s: StoreState, num: Numeric, response: Value, sourceType: string, symbol: string,
                                       market: string, interval: string, historySweep: bool)
    requires sourceType !in {"stocks", "fx", "crypto", "commodity"}
    ensures LoadEffect(s, num, response, sourceType, symbol, market, interval, historySweep).0 == s
    ensures LoadEffect(s, num, response, sourceType, symbol, market, interval, historySweep).1.Failure?
    ensures Fetch(response).Failure? ==>
              LoadEffect(s, num, response, sourceType, symbol, market, interval, historySweep).1 == Failure(Fetch(response).error)
    ensures Fetch(response).Success? ==>
              LoadEffect(s, num, response, sourceType, symbol, market, interval, historySweep).1 == Failure(InvalidSourceType(sourceType))
  {
  }

  /** Settling leaves every row of the batch stored under its key. */
  lemma SettleStoresEveryRow(s: StoreState, kind: SourceType, key: MetaKey, rows: seq<Row>, apiLastRefresh: Value)
    requires Dated(rows, key.sourceType)
    ensures var t := TableOf(Settle(s, kind, key, rows, apiLastRefresh), TableFor(kind));
            forall i | 0 <= i < |rows| :: KeyOf(rows[i], t.keyColumns) in t.rows
  {
    if |rows| > 0 {
      var t0 := TableOf(s, TableFor(kind));
      var s2 := InsertRowsInto(s, TableFor(kind), rows);
      assert TableOf(s2, TableFor(kind)) == InsertOrIgnore(t0, rows);
      assert TableOf(Settle(s, kind, key, rows, apiLastRefresh), TableFor(kind)) == TableOf(s2, TableFor(kind));
      InsertOrIgnoreStoresEveryKey(t0, rows);
      InsertOrIgnoreKeepsExisting(t0, rows);
    }
  }

  /** Settling only adds rows, only rewrites its own watermark, and keeps rows filed under
      their keys. */
  lemma SettleExtends(s: StoreState, kind: SourceType, key: MetaKey, rows: seq<Row>, apiLastRefresh: Value)
    requires Dated(rows, key.sourceType)
    ensures Extends(s, Settle(s, kind, key, rows, apiLastRefresh), key)
    ensures ValidState(s) ==> ValidState(Settle(s, kind, key, rows, apiLastRefresh))
  {
    if |rows| > 0 {
      var s2 := InsertRowsInto(s, TableFor(kind), rows);
      InsertRowsIntoExtends(s, TableFor(kind), rows, key);
      UpsertMetadataInExtends(s2, key, ExtractDate(rows[|rows| - 1], key.sourceType).text, apiLastRefresh);
      ExtendsTransitive(s, s2, Settle(s, kind, key, rows, apiLastRefresh), key);
    } else {
      forall id: TableId ensures KeepsRows(TableOf(s, id), TableOf(s, id)) { }
    }
  }

  /** A load that returned rows went through every stage: the response classified, the source
      type known, the rows filtered and parsed, then settled. */
  lemma LoadStages(s: StoreState, num: Numeric, response: Value, sourceType: string, symbol: string,
                   market: string, interval: string, historySweep: bool)
    requires LoadEffect(s, num, response, sourceType, symbol, market, interval, historySweep).1.Success?
    ensures Fetch(response).Success? && ParseSourceType(sourceType).Some?
    ensures var key := MetaKey(sourceType, symbol, market, interval);
            var mode := ResolveMode(historySweep, Watermark(s, key));
            var fetched := Fetch(response).value;
            var kind := ParseSourceType(sourceType).value;
            var (s', r) := LoadEffect(s, num, response, sourceType, symbol, market, interval, historySweep);
            && NewRows(num, kind, symbol, market, fetched.series, mode.0, mode.1) == r
            && s' == Settle(LookupStep(s, kind, symbol, fetched.meta), kind, key, r.value, fetched.apiLastRefresh)
  {
  }

  /** A load only adds: every stored row stays as it was, every other watermark stays, and a
      database whose rows are filed under their keys stays so. */
  lemma LoadKeepsStoredRows(s: StoreState, num: Numeric, response: Value, sourceType: string, symbol: string,
                            market: string, interval: string, historySweep: bool)
    ensures Extends(s, LoadEffect(s, num, response, sourceType, symbol, market, interval, historySweep).0,
                    MetaKey(sourceType, symbol, market, interval))
    ensures ValidState(s) ==> ValidState(LoadEffect(s, num, response, sourceType, symbol, market, interval, historySweep).0)
  {
    var key := MetaKey(sourceType, symbol, market, interval);
    var s' := LoadEffect(s, num, response, sourceType, symbol, market, interval, historySweep).0;
    var r := LoadEffect(s, num, response, sourceType, symbol, market, interval, historySweep).1;
    if r.Failure? || r.value == [] {
      NoRowsNoWrites(s, num, response, sourceType, symbol, market, interval, historySweep);
      LookupOnlyExtends(s, s', key);
    } else {
      LoadStages(s, num, response, sourceType, symbol, market, interval, historySweep);
      var kind := ParseSourceType(sourceType).value;
      var fetched := Fetch(response).value;
      var s1 := LookupStep(s, kind, symbol, fetched.meta);
      LookupStepTouchesOnlyLookup(s, kind, symbol, fetched.meta);
      LookupOnlyExtends(s, s1, key);
      SettleExtends(s1, kind, key, r.value, fetched.apiLastRefresh);
      ExtendsTransitive(s, s1, s', key);
    }
  }

  /** After a load every returned row has its primary key in the table of its source type:
      it was inserted, or a row with that key was already stored. */
  lemma LoadStoresEveryRow(s: StoreState, num: Numeric, response: Value, sourceType: string, symbol: string,
                           market: string, interval: string, historySweep: bool)
    requires LoadEffect(s, num, response, sourceType, symbol, market, interval, historySweep).1.Success?
    ensures ParseSourceType(sourceType).Some?
    ensures var (s', r) := LoadEffect(s, num, response, sourceType, symbol, market, interval, historySweep);
            var t := TableOf(s', TableFor(ParseSourceType(sourceType).value));
            forall i | 0 <= i < |r.value| :: KeyOf(r.value[i], t.keyColumns) in t.rows
  {
    var r := LoadEffect(s, num, response, sourceType, symbol, market, interval, historySweep).1;
    LoadStages(s, num, response, sourceType, symbol, market, interval, historySweep);
    var kind := ParseSourceType(sourceType).value;
    var fetched := Fetch(response).value;
    SettleStoresEveryRow(LookupStep(s, kind, symbol, fetched.meta), kind, MetaKey(sourceType, symbol, market, interval),
                         r.value, fetched.apiLastRefresh);
  }

  /** The rows a load returns are the filtered pairs of the series, parsed in order: row `i`
      carries the date of pair `i` where `extract_date` reads it. */
  lemma LoadedRowsFollowFilter(s: StoreState, num: Numeric, response: Value, sourceType: string, symbol: string,
                               market: string, interval: string, historySweep: bool)
    requires LoadEffect(s, num, response, sourceType, symbol, market, interval, historySweep).1.Success?
    ensures Fetch(response).Success? && Iterable(Fetch(response).value.series)
    ensures var mode := ResolveMode(historySweep, Watermark(s, MetaKey(sourceType, symbol, market, interval)));
            FilterAndSort(Fetch(response).value.series, mode.0, mode.1).Success?
    ensures var mode := ResolveMode(historySweep, Watermark(s, MetaKey(sourceType, symbol, market, interval)));
            var filtered := FilterAndSort(Fetch(response).value.series, mode.0, mode.1).value;
            var rows := LoadEffect(s, num, response, sourceType, symbol, market, interval, historySweep).1.value;
            && |rows| == |filtered|
            && forall i | 0 <= i < |rows| ::
                 DateColumn(sourceType) < |rows[i]| && ExtractDate(rows[i], sourceType) == TextCell(filtered[i].0)
  {
    LoadStages(s, num, response, sourceType, symbol, market, interval, historySweep);
    var mode := ResolveMode(historySweep, Watermark(s, MetaKey(sourceType, symbol, market, interval)));
    ModeNeverComparesWithNone(Fetch(response).value.series, historySweep, Watermark(s, MetaKey(sourceType, symbol, market, interval)));
  }

  /** Settling a non-empty batch records the date of its last row, with the refresh stamp. */
  lemma SettleRecordsLastDate(s: StoreState, kind: SourceType, key: MetaKey, rows: seq<Row>, apiLastRefresh: Value)
    requires Dated(rows, key.sourceType)
    requires |rows| > 0
    ensures var s' := Settle(s, kind, key, rows, apiLastRefresh);
            && key in s'.metadata
            && s'.metadata[key] == MetaEntry(Some(ExtractDate(rows[|rows| - 1], key.sourceType).text), apiLastRefresh)
  {
  }

  /** After a load that returned rows, the watermark is the date of the last row: a date of
      the series, no older than any date in it, and in an incremental load strictly newer than
      the watermark it replaced. */
  lemma LoadAdvancesWatermark(s: StoreState, num: Numeric, response: Value, sourceType: string, symbol: string,
                              market: string, interval: string, historySweep: bool)
    requires var r := LoadEffect(s, num, response, sourceType, symbol, market, interval, historySweep).1;
             r.Success? && |r.value| > 0
    ensures Fetch(response).Success?
    ensures var rows := LoadEffect(s, num, response, sourceType, symbol, market, interval, historySweep).1.value;
            DateColumn(sourceType) < |rows[|rows| - 1]| && ExtractDate(rows[|rows| - 1], sourceType).TextCell?
    ensures var (s', r) := LoadEffect(s, num, response, sourceType, symbol, market, interval, historySweep);
            var key := MetaKey(sourceType, symbol, market, interval);
            var d := ExtractDate(r.value[|r.value| - 1], sourceType).text;
            var series := Fetch(response).value.series;
            && key in s'.metadata
            && s'.metadata[key] == MetaEntry(Some(d), Fetch(response).value.apiLastRefresh)
            && (exists p | p in PairsOf(series) :: p.0 == d)
            && (forall p | p in PairsOf(series) :: Le(p.0, d))
            && (!historySweep && Watermark(s, key).Some? ==> Lt(Watermark(s, key).value, d))
  {
    var key := MetaKey(sourceType, symbol, market, interval);
    var r := LoadEffect(s, num, response, sourceType, symbol, market, interval, historySweep).1;
    LoadStages(s, num, response, sourceType, symbol, market, interval, historySweep);
    LoadedRowsFollowFilter(s, num, response, sourceType, symbol, market, interval, historySweep);
    var fetched := Fetch(response).value;
    var kind := ParseSourceType(sourceType).value;
    var mode := ResolveMode(historySweep, Watermark(s, key));
    var filtered := FilterAndSort(fetched.series, mode.0, mode.1).value;
    LastIsNewest(fetched.series, mode.0, mode.1, filtered);
    SettleRecordsLastDate(LookupStep(s, kind, symbol, fetched.meta), kind, key, r.value, fetched.apiLastRefresh);
    assert ExtractDate(r.value[|r.value| - 1], sourceType).text == filtered[|filtered| - 1].0;
  }

  /** A full load (a history sweep, or no watermark stored yet) returns one row per entry of
      the series, in ascending date order. */
  lemma FullLoadReturnsEveryEntry(s: StoreState, num: Numeric, response: Value, sourceType: string, symbol: string,
                                  market: string, interval: string, historySweep: bool)
    requires LoadEffect(s, num, response, sourceType, symbol, market, interval, historySweep).1.Success?
    requires historySweep || Watermark(s, MetaKey(sourceType, symbol, market, interval)).None?
    ensures Fetch(response).Success?
    ensures var rows := LoadEffect(s, num, response, sourceType, symbol, market, interval, historySweep).1.value;
            var ps := PairsOf(Fetch(response).value.series);
            && |rows| == |ps|
            && Dated(rows, sourceType)
            && (forall p | p in ps :: exists i | 0 <= i < |rows| :: DateOf(rows, sourceType, i) == p.0)
            && (forall i | 0 <= i < |rows| :: exists k | 0 <= k < |ps| :: ps[k].0 == DateOf(rows, sourceType, i))
            && forall i, j | 0 <= i < j < |rows| :: Le(DateOf(rows, sourceType, i), DateOf(rows, sourceType, j))
  {
    LoadedRowsFollowFilter(s, num, response, sourceType, symbol, market, interval, historySweep);
    var rows := LoadEffect(s, num, response, sourceType, symbol, market, interval, historySweep).1.value;
    var mode := ResolveMode(historySweep, Watermark(s, MetaKey(sourceType, symbol, market, interval)));
    RowsOfAllPairs(rows, sourceType, Fetch(response).value.series, mode.0);
  }

  /** Rows that carry, in order, the dates a full load kept are one per entry of the series:
      every date of the series is a row's date and every row's date is one of the series,
      ascending. */
  lemma RowsOfAllPairs(rows: seq<Row>, sourceType: string, series: Value, maxDataDate: Option<string>)
    requires Iterable(series) && FilterAndSort(series, maxDataDate, true).Success?
    requires var filtered := FilterAndSort(series, maxDataDate, true).value;
             && |rows| == |filtered|
             && forall i | 0 <= i < |rows| ::
                  DateColumn(sourceType) < |rows[i]| && ExtractDate(rows[i], sourceType) == TextCell(filtered[i].0)
    ensures var ps := PairsOf(series);
            && |rows| == |ps|
            && Dated(rows, sourceType)
            && (forall p | p in ps :: exists i | 0 <= i < |rows| :: DateOf(rows, sourceType, i) == p.0)
            && (forall i | 0 <= i < |rows| :: exists k | 0 <= k < |ps| :: ps[k].0 == DateOf(rows, sourceType, i))
            && forall i, j | 0 <= i < j < |rows| :: Le(DateOf(rows, sourceType, i), DateOf(rows, sourceType, j))
  {
    var ps := PairsOf(series);
    FullLoadKeepsEverything(series, maxDataDate);
    var filtered := FilterAndSort(series, maxDataDate, true).value;
    assert |multiset(filtered)| == |multiset(ps)|;
    RowsMatchPairs(rows, sourceType, filtered, ps);
  }

  /** Rows dated, in order, like a permutation of `ps` carry every date of `ps` and no other. */
  lemma RowsMatchPairs(rows: seq<Row>, sourceType: string, filtered: seq<Pair>, ps: seq<Pair>)
    requires multiset(filtered) == multiset(ps)
    requires |rows| == |filtered|
    requires forall i | 0 <= i < |rows| ::
               DateColumn(sourceType) < |rows[i]| && ExtractDate(rows[i], sourceType) == TextCell(filtered[i].0)
    ensures Dated(rows, sourceType)
    ensures forall p | p in ps :: exists i | 0 <= i < |rows| :: DateOf(rows, sourceType, i) == p.0
    ensures forall i | 0 <= i < |rows| :: exists k | 0 <= k < |ps| :: ps[k].0 == DateOf(rows, sourceType, i)
  {
    forall p | p in ps ensures exists i | 0 <= i < |rows| :: DateOf(rows, sourceType, i) == p.0 {
      assert p in multiset(filtered);
      var i :| 0 <= i < |filtered| && filtered[i] == p;
      assert DateOf(rows, sourceType, i) == p.0;
    }
    forall i | 0 <= i < |rows| ensures exists k | 0 <= k < |ps| :: ps[k].0 == DateOf(rows, sourceType, i) {
      assert filtered[i] in multiset(ps);
      var k :| 0 <= k < |ps| && ps[k] == filtered[i];
      assert ps[k].0 == DateOf(rows, sourceType, i);
    }
  }

  /** An incremental load returns exactly the dates of the series newer than the stored
      watermark, in ascending order. */
  lemma IncrementalLoadReturnsNewer(s: StoreState, num: Numeric, response: Value, sourceType: string, symbol: string,
                                    market: string, interval: string, historySweep: bool, w: string)
    requires LoadEffect(s, num, response, sourceType, symbol, market, interval, historySweep).1.Success?
    requires !historySweep && Watermark(s, MetaKey(sourceType, symbol, market, interval)) == Some(w)
    ensures Fetch(response).Success?
    ensures var rows := LoadEffect(s, num, response, sourceType, symbol, market, interval, historySweep).1.value;
            && Dated(rows, sourceType)
            && (forall i | 0 <= i < |rows| :: Lt(w, DateOf(rows, sourceType, i)))
            && (forall p | p in PairsOf(Fetch(response).value.series) && Lt(w, p.0) ::
                  exists i | 0 <= i < |rows| :: DateOf(rows, sourceType, i) == p.0)
            && forall i, j | 0 <= i < j < |rows| :: Le(DateOf(rows, sourceType, i), DateOf(rows, sourceType, j))
  {
    LoadedRowsFollowFilter(s, num, response, sourceType, symbol, market, interval, historySweep);
    var rows := LoadEffect(s, num, response, sourceType, symbol, market, interval, historySweep).1.value;
    RowsOfNewerPairs(rows, sourceType, Fetch(response).value.series, w);
  }

  /** Rows that carry, in order, the dates an incremental filter kept are exactly the newer
      dates of the series, ascending. */
  lemma RowsOfNewerPairs(rows: seq<Row>, sourceType: string, series: Value, w: string)
    requires Iterable(series) && FilterAndSort(series, Some(w), false).Success?
    requires var filtered := FilterAndSort(series, Some(w), false).value;
             && |rows| == |filtered|
             && forall i | 0 <= i < |rows| ::
                  DateColumn(sourceType) < |rows[i]| && ExtractDate(rows[i], sourceType) == TextCell(filtered[i].0)
    ensures && Dated(rows, sourceType)
            && (forall i | 0 <= i < |rows| :: Lt(w, DateOf(rows, sourceType, i)))
            && (forall p | p in PairsOf(series) && Lt(w, p.0) ::
                  exists i | 0 <= i < |rows| :: DateOf(rows, sourceType, i) == p.0)
            && forall i, j | 0 <= i < j < |rows| :: Le(DateOf(rows, sourceType, i), DateOf(rows, sourceType, j))
  {
    IncrementalKeepsNewer(series, w);
    var filtered := FilterAndSort(series, Some(w), false).value;
    forall p | p in PairsOf(series) && Lt(w, p.0) ensures exists i | 0 <= i < |rows| :: DateOf(rows, sourceType, i) == p.0 {
      var i :| 0 <= i < |filtered| && filtered[i] == p;
      assert DateOf(rows, sourceType, i) == p.0;
    }
  }

  /** Settling the same batch twice settles it once. */
  lemma SettleIdempotent(s: StoreState, kind: SourceType, key: MetaKey, rows: seq<Row>, apiLastRefresh: Value)
    requires Dated(rows, key.sourceType)
    ensures var s' := Settle(s, kind, key, rows, apiLastRefresh);
            Settle(s', kind, key, rows, apiLastRefresh) == s'
  {
    if |rows| > 0 {
      var id := TableFor(kind);
      var d := ExtractDate(rows[|rows| - 1], key.sourceType).text;
      var s2 := InsertRowsInto(s, id, rows);
      var s' := UpsertMetadataIn(s2, key, d, apiLastRefresh);
      InsertOrIgnoreIdempotent(TableOf(s, id), rows);
      assert TableOf(s', id) == InsertOrIgnore(TableOf(s, id), rows);
      assert InsertRowsInto(s', id, rows) == s';
      UpsertIdempotent(s2.metadata, key, MetaEntry(Some(d), apiLastRefresh));
    }
  }

  /** Settling leaves the lookup table alone, so a repeated lookup step after it changes nothing. */
  lemma LookupStepAbsorbed(s: StoreState, kind: SourceType, symbol: string, meta: Value, key: MetaKey,
                           rows: seq<Row>, apiLastRefresh: Value)
    requires meta.Obj?
    requires Dated(rows, key.sourceType)
    ensures var s' := Settle(LookupStep(s, kind, symbol, meta), kind, key, rows, apiLastRefresh);
            LookupStep(s', kind, symbol, meta) == s'
  {
    var s1 := LookupStep(s, kind, symbol, meta);
    var s' := Settle(s1, kind, key, rows, apiLastRefresh);
    assert s'.commodityLookup == s1.commodityLookup;
    if kind == Commodity {
      var entry := LookupEntry(GetOr(meta.fields, "name", Null), GetOr(meta.fields, "interval", Null), GetOr(meta.fields, "unit", Null));
      UpsertIdempotent(s.commodityLookup, symbol, entry);
    }
  }

  /** Running the same load twice: the second run writes nothing new, and in incremental mode
      it returns no rows once the first one returned some; otherwise it returns what the first
      one did. */
  lemma ReloadIsIdempotent(s: StoreState, num: Numeric, response: Value, sourceType: string, symbol: string,
                           market: string, interval: string, historySweep: bool)
    ensures var (s2, r1) := LoadEffect(s, num, response, sourceType, symbol, market, interval, historySweep);
            var (s3, r2) := LoadEffect(s2, num, response, sourceType, symbol, market, interval, historySweep);
            && s3 == s2
            && r2 == if !historySweep && r1.Success? && |r1.value| > 0 then Success([]) else r1
  {
    var key := MetaKey(sourceType, symbol, market, interval);
    var (s2, r1) := LoadEffect(s, num, response, sourceType, symbol, market, interval, historySweep);
    if Fetch(response).Failure? || ParseSourceType(sourceType).None? {
      return;
    }
    var fetched := Fetch(response).value;
    var kind := ParseSourceType(sourceType).value;
    var s1 := LookupStep(s, kind, symbol, fetched.meta);
    var mode := ResolveMode(historySweep, Watermark(s, key));
    var parsed := NewRows(num, kind, symbol, market, fetched.series, mode.0, mode.1);
    var rows := if parsed.Success? then parsed.value else [];
    assert s2 == Settle(s1, kind, key, rows, fetched.apiLastRefresh);
    LookupStepAbsorbed(s, kind, symbol, fetched.meta, key, rows, fetched.apiLastRefresh);
    if parsed.Failure? || |rows| == 0 || historySweep {
      LookupStepTouchesOnlyLookup(s, kind, symbol, fetched.meta);
      assert ResolveMode(historySweep, Watermark(s2, key)) == mode;
      SettleIdempotent(s1, kind, key, rows, fetched.apiLastRefresh);
    } else {
      LoadAdvancesWatermark(s, num, response, sourceType, symbol, market, interval, historySweep);
      LoadedRowsFollowFilter(s, num, response, sourceType, symbol, market, interval, historySweep);
      var d := ExtractDate(rows[|rows| - 1], sourceType).text;
      assert ResolveMode(historySweep, Watermark(s2, key)) == (Some(d), false);
      NothingAfterNewest(fetched.series, d);
      assert NewRows(num, kind, symbol, market, fetched.series, Some(d), false) == Success([]);
    }
  }
}
