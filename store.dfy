/** The persistent side of the loader helper: the `alphav_metadata` watermark table, the four
    data tables written with INSERT OR IGNORE, and `alphav_commodity_lookup`
    (scripts/utils/alphav_functions.py, "Function 1", "Function 3.2", "Function 6"). The
    SQLite mechanics (connection, cursor, SQL text, commit) are replaced by maps. */
module Store {
  import opened Wrappers
  import opened Json
  import opened Parsers

  /** The conflict key of `alphav_metadata`. */
  datatype MetaKey = MetaKey(sourceType: string, symbol: string, market: string, interval: string)

  /** The rest of an `alphav_metadata` row; a NULL `max_data_date` reads back as None.
      (`update_date`, a server-side timestamp, is not modelled.) */
  datatype MetaEntry = MetaEntry(maxDataDate: Option<string>, apiLastRefresh: Value)

  /** The rest of an `alphav_commodity_lookup` row, keyed by `commodity_id`. */
  datatype LookupEntry = LookupEntry(commodityName: Value, interval: Value, unit: Value)

  /** A data table: the positions of its primary-key columns within a row (the schema is not
      part of the source, so they are a parameter) and its rows, by primary key. */
  datatype Table = Table(keyColumns: seq<nat>, rows: map<seq<Cell>, Row>)

  /** The four data tables. */
  datatype TableId = StocksDaily | FxDaily | CryptoDaily | CommodityTable

  /** The whole database as a value. */
  datatype StoreState = StoreState(
    metadata: map<MetaKey, MetaEntry>,
    stocksDaily: Table,
    fxDaily: Table,
    cryptoDaily: Table,
    commodity: Table,
    commodityLookup: map<string, LookupEntry>)

  /** The primary key of a row: its key columns, in order. */
  function KeyOf(row: Row, keyColumns: seq<nat>): (k: seq<Cell>)
    ensures |k| == |keyColumns|
  {
    seq(|keyColumns|, i requires 0 <= i < |keyColumns| =>
      if keyColumns[i] < |row| then row[keyColumns[i]] else NullCell)
  }

  /** Every row is filed under its own primary key. */
  predicate ValidTable(t: Table) {
    forall k | k in t.rows :: KeyOf(t.rows[k], t.keyColumns) == k
  }

  predicate ValidState(s: StoreState) {
    ValidTable(s.stocksDaily) && ValidTable(s.fxDaily) && ValidTable(s.cryptoDaily) && ValidTable(s.commodity)
  }

  /** One execution of an INSERT OR IGNORE statement. */
  function InsertOrIgnoreOne(t: Table, row: Row): Table {
    var k := KeyOf(row, t.keyColumns);
    if k in t.rows then t else t.(rows := t.rows[k := row])
  }

  /** `cursor.executemany(insert_sql, rows)`: the statement once per row, in order. */
  function InsertOrIgnore(t: Table, rows: seq<Row>): Table
    decreases |rows|
  {
    if |rows| == 0 then t
    else InsertOrIgnoreOne(InsertOrIgnore(t, rows[..|rows| - 1]), rows[|rows| - 1])
  }

  /** `INSERT ... ON CONFLICT(key) DO UPDATE SET ...`: a keyed upsert. */
  function Upsert<K, V>(m: map<K, V>, key: K, value: V): (r: map<K, V>)
    ensures key in r && r[key] == value
    ensures r.Keys == m.Keys + {key}
    ensures forall k | k in m && k != key :: r[k] == m[k]
  {
    m[key := value]
  }

  /** `get_metadata`: the stored `max_data_date`, or None for a combination never loaded. */
  function Watermark(s: StoreState, key: MetaKey): Option<string> {
    if key in s.metadata then s.metadata[key].maxDataDate else None
  }

  function TableOf(s: StoreState, id: TableId): Table {
    match id
    case StocksDaily => s.stocksDaily
    case FxDaily => s.fxDaily
    case CryptoDaily => s.cryptoDaily
    case CommodityTable => s.commodity
  }

  function WithTable(s: StoreState, id: TableId, t: Table): StoreState {
    match id
    case StocksDaily => s.(stocksDaily := t)
    case FxDaily => s.(fxDaily := t)
    case CryptoDaily => s.(cryptoDaily := t)
    case CommodityTable => s.(commodity := t)
  }

  /** `insert_rows` into one table. */
  function InsertRowsInto(s: StoreState, id: TableId, rows: seq<Row>): StoreState {
    WithTable(s, id, InsertOrIgnore(TableOf(s, id), rows))
  }

  /** `upsert_metadata`. */
  function UpsertMetadataIn(s: StoreState, key: MetaKey, maxDataDate: string, apiLastRefresh: Value): StoreState {
    s.(metadata := Upsert(s.metadata, key, MetaEntry(Some(maxDataDate), apiLastRefresh)))
  }

  /** `upsert_commodity_lookup`. */
  function UpsertLookupIn(s: StoreState, commodityId: string, name: Value, interval: Value, unit: Value): StoreState {
    s.(commodityLookup := Upsert(s.commodityLookup, commodityId, LookupEntry(name, interval, unit)))
  }

  /** The database behind one `sqlite3.connect`. */
  class Store {
    var metadata: map<MetaKey, MetaEntry>
    var stocksDaily: Table
    var fxDaily: Table
    var cryptoDaily: Table
    var commodity: Table
    var commodityLookup: map<string, LookupEntry>

    function State(): StoreState
      reads this
    {
      StoreState(metadata, stocksDaily, fxDaily, cryptoDaily, commodity, commodityLookup)
    }

    /** Opens a database that holds `initial`. */
    constructor Open(initial: StoreState)
      ensures State() == initial
    {
      metadata := initial.metadata;
      stocksDaily := initial.stocksDaily;
      fxDaily := initial.fxDaily;
      cryptoDaily := initial.cryptoDaily;
      commodity := initial.commodity;
      commodityLookup := initial.commodityLookup;
    }

    /** `get_metadata(conn, source_type, symbol, market, interval)`. */
    method GetMetadata(sourceType: string, symbol: string, market: string, interval: string)
      returns (maxDataDate: Option<string>)
      ensures maxDataDate == Watermark(State(), MetaKey(sourceType, symbol, market, interval))
      ensures MetaKey(sourceType, symbol, market, interval) !in metadata ==> maxDataDate.None?
    {
      var key := MetaKey(sourceType, symbol, market, interval);
      if key in metadata {
        maxDataDate := metadata[key].maxDataDate;
      } else {
        maxDataDate := None;
      }
    }

    /** `insert_rows(conn, insert_sql, rows)` for the table the statement names. */
    method InsertRows(id: TableId, rows: seq<Row>)
      modifies this
      ensures State() == InsertRowsInto(old(State()), id, rows)
    {
      var t := TableOf(State(), id);
      for i := 0 to |rows|
        invariant t == InsertOrIgnore(TableOf(old(State()), id), rows[..i])
      {
        assert rows[..i + 1][..i] == rows[..i];
        t := InsertOrIgnoreOne(t, rows[i]);
      }
      assert rows[..|rows|] == rows;
      match id
      case StocksDaily => stocksDaily := t;
      case FxDaily => fxDaily := t;
      case CryptoDaily => cryptoDaily := t;
      case CommodityTable => commodity := t;
    }

    /** `insert_stocks_rows`: into `alphav_stocks_daily`. */
    method InsertStocksRows(rows: seq<Row>)
      modifies this
      ensures State() == InsertRowsInto(old(State()), StocksDaily, rows)
    {
      InsertRows(StocksDaily, rows);
    }

    /** `insert_fx_rows`: into `alphav_fx_daily`. */
    method InsertFxRows(rows: seq<Row>)
      modifies this
      ensures State() == InsertRowsInto(old(State()), FxDaily, rows)
    {
      InsertRows(FxDaily, rows);
    }

    /** `insert_crypto_rows`: into `alphav_crypto_daily`. */
    method InsertCryptoRows(rows: seq<Row>)
      modifies this
      ensures State() == InsertRowsInto(old(State()), CryptoDaily, rows)
    {
      InsertRows(CryptoDaily, rows);
    }

    /** `insert_commodities_rows`: into `alphav_commodity`. */
    method InsertCommoditiesRows(rows: seq<Row>)
      modifies this
      ensures State() == InsertRowsInto(old(State()), CommodityTable, rows)
    {
      InsertRows(CommodityTable, rows);
    }

    /** `upsert_commodity_lookup(conn, commodity_id, commodity_name, interval, unit)`. */
    method UpsertCommodityLookup(commodityId: string, commodityName: Value, interval: Value, unit: Value)
      modifies this
      ensures State() == UpsertLookupIn(old(State()), commodityId, commodityName, interval, unit)
    {
      commodityLookup := Upsert(commodityLookup, commodityId, LookupEntry(commodityName, interval, unit));
    }

    /** `upsert_metadata(conn, source_type, symbol, market, interval, max_data_date, api_last_refresh)`. */
    method UpsertMetadata(sourceType: string, symbol: string, market: string, interval: string,
                          maxDataDate: string, apiLastRefresh: Value)
      modifies this
      ensures State() == UpsertMetadataIn(old(State()), MetaKey(sourceType, symbol, market, interval), maxDataDate, apiLastRefresh)
    {
      metadata := Upsert(metadata, MetaKey(sourceType, symbol, market, interval), MetaEntry(Some(maxDataDate), apiLastRefresh));
    }
  }

  // ------------------------------------------------------------------------------------
  // INSERT OR IGNORE and upsert semantics.

  /** INSERT OR IGNORE never touches a row that is already stored. */
  lemma {:induction false} InsertOrIgnoreKeepsExisting(t: Table, rows: seq<Row>)
    ensures InsertOrIgnore(t, rows).keyColumns == t.keyColumns
    ensures forall k | k in t.rows :: k in InsertOrIgnore(t, rows).rows && InsertOrIgnore(t, rows).rows[k] == t.rows[k]
    decreases |rows|
  {
    if |rows| > 0 {
      InsertOrIgnoreKeepsExisting(t, rows[..|rows| - 1]);
    }
  }

  /** Afterwards every row of the batch has its key in the table. */
  lemma {:induction false} InsertOrIgnoreStoresEveryKey(t: Table, rows: seq<Row>)
    ensures forall i | 0 <= i < |rows| :: KeyOf(rows[i], t.keyColumns) in InsertOrIgnore(t, rows).rows
    decreases |rows|
  {
    if |rows| > 0 {
      var prefix := rows[..|rows| - 1];
      InsertOrIgnoreStoresEveryKey(t, prefix);
      InsertOrIgnoreKeepsExisting(t, prefix);
      forall i | 0 <= i < |rows| - 1 ensures KeyOf(rows[i], t.keyColumns) in InsertOrIgnore(t, rows).rows {
        assert rows[i] == prefix[i];
      }
    }
  }

  /** A key that was not stored before gets the FIRST row of the batch with that key; later
      duplicates in the batch are ignored like rows already in the table. */
  lemma {:induction false} InsertOrIgnoreFirstWins(t: Table, rows: seq<Row>)
    ensures var r := InsertOrIgnore(t, rows);
            forall k | k in r.rows && k !in t.rows ::
              exists i | 0 <= i < |rows| ::
                && KeyOf(rows[i], t.keyColumns) == k && r.rows[k] == rows[i]
                && forall j | 0 <= j < i :: KeyOf(rows[j], t.keyColumns) != k
    decreases |rows|
  {
    if |rows| > 0 {
      var prefix := rows[..|rows| - 1];
      var last := rows[|rows| - 1];
      var before := InsertOrIgnore(t, prefix);
      var r := InsertOrIgnore(t, rows);
      InsertOrIgnoreFirstWins(t, prefix);
      InsertOrIgnoreStoresEveryKey(t, prefix);
      InsertOrIgnoreKeepsExisting(t, prefix);
      forall k | k in r.rows && k !in t.rows
        ensures exists i | 0 <= i < |rows| ::
                  && KeyOf(rows[i], t.keyColumns) == k && r.rows[k] == rows[i]
                  && forall j | 0 <= j < i :: KeyOf(rows[j], t.keyColumns) != k
      {
        if k in before.rows {
          var i :| 0 <= i < |prefix| && KeyOf(prefix[i], t.keyColumns) == k && before.rows[k] == prefix[i]
                   && forall j | 0 <= j < i :: KeyOf(prefix[j], t.keyColumns) != k;
          assert rows[i] == prefix[i];
          assert forall j | 0 <= j < i :: rows[j] == prefix[j];
        } else {
          assert KeyOf(last, t.keyColumns) == k;
          forall j | 0 <= j < |rows| - 1 ensures KeyOf(rows[j], t.keyColumns) != k {
            assert rows[j] == prefix[j];
          }
        }
      }
    }
  }

  /** INSERT OR IGNORE files every row under its own key, so a consistent table stays one. */
  lemma {:induction false} InsertOrIgnorePreservesValid(t: Table, rows: seq<Row>)
    requires ValidTable(t)
    ensures ValidTable(InsertOrIgnore(t, rows))
    decreases |rows|
  {
    if |rows| > 0 {
      InsertOrIgnorePreservesValid(t, rows[..|rows| - 1]);
      InsertOrIgnoreKeepsExisting(t, rows[..|rows| - 1]);
    }
  }

  /** A batch whose keys are all stored already changes nothing. */
  lemma {:induction false} InsertOrIgnoreOfStoredKeys(t: Table, rows: seq<Row>)
    requires forall i | 0 <= i < |rows| :: KeyOf(rows[i], t.keyColumns) in t.rows
    ensures InsertOrIgnore(t, rows) == t
    decreases |rows|
  {
    if |rows| > 0 {
      var prefix := rows[..|rows| - 1];
      assert forall i | 0 <= i < |prefix| :: prefix[i] == rows[i];
      InsertOrIgnoreOfStoredKeys(t, prefix);
    }
  }

  /** Inserting the same batch twice stores it once. */
  lemma InsertOrIgnoreIdempotent(t: Table, rows: seq<Row>)
    ensures InsertOrIgnore(InsertOrIgnore(t, rows), rows) == InsertOrIgnore(t, rows)
  {
    InsertOrIgnoreStoresEveryKey(t, rows);
    InsertOrIgnoreKeepsExisting(t, rows);
    InsertOrIgnoreOfStoredKeys(InsertOrIgnore(t, rows), rows);
  }

  /** Repeating an upsert with the same values gives the same mapping. */
  lemma UpsertIdempotent<K, V>(m: map<K, V>, key: K, value: V)
    ensures Upsert(Upsert(m, key, value), key, value) == Upsert(m, key, value)
  {
  }

  /** `t'` still holds every row of `t`, under the same key columns. */
  predicate KeepsRows(t: Table, t': Table) {
    && t'.keyColumns == t.keyColumns
    && forall k | k in t.rows :: k in t'.rows && t'.rows[k] == t.rows[k]
  }

  /** `s'` still holds every data row of `s`, and every watermark except possibly `key`'s. */
  predicate Extends(s: StoreState, s': StoreState, key: MetaKey) {
    && (forall id: TableId :: KeepsRows(TableOf(s, id), TableOf(s', id)))
    && forall k | k in s.metadata && k != key :: k in s'.metadata && s'.metadata[k] == s.metadata[k]
  }

  lemma ExtendsTransitive(s1: StoreState, s2: StoreState, s3: StoreState, key: MetaKey)
    requires Extends(s1, s2, key) && Extends(s2, s3, key)
    ensures Extends(s1, s3, key)
  {
    forall id: TableId ensures KeepsRows(TableOf(s1, id), TableOf(s3, id)) {
      assert KeepsRows(TableOf(s1, id), TableOf(s2, id));
      assert KeepsRows(TableOf(s2, id), TableOf(s3, id));
    }
  }

  /** Inserting a batch into one table keeps everything stored, in that table and the others,
      and keeps rows filed under their keys. */
  lemma InsertRowsIntoExtends(s: StoreState, id: TableId, rows: seq<Row>, key: MetaKey)
    ensures Extends(s, InsertRowsInto(s, id, rows), key)
    ensures ValidState(s) ==> ValidState(InsertRowsInto(s, id, rows))
  {
    var s' := InsertRowsInto(s, id, rows);
    InsertOrIgnoreKeepsExisting(TableOf(s, id), rows);
    forall other: TableId ensures KeepsRows(TableOf(s, other), TableOf(s', other)) {
      if other != id {
        assert TableOf(s', other) == TableOf(s, other);
      }
    }
    if ValidState(s) {
      InsertOrIgnorePreservesValid(TableOf(s, id), rows);
    }
  }

  /** Upserting one watermark leaves the data tables and the other watermarks alone. */
  lemma UpsertMetadataInExtends(s: StoreState, key: MetaKey, maxDataDate: string, apiLastRefresh: Value)
    ensures Extends(s, UpsertMetadataIn(s, key, maxDataDate, apiLastRefresh), key)
    ensures ValidState(s) ==> ValidState(UpsertMetadataIn(s, key, maxDataDate, apiLastRefresh))
  {
    var s' := UpsertMetadataIn(s, key, maxDataDate, apiLastRefresh);
    forall id: TableId ensures KeepsRows(TableOf(s, id), TableOf(s', id)) {
      assert TableOf(s', id) == TableOf(s, id);
    }
  }
}
