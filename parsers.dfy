/** The row parsers of the loader helper (scripts/utils/alphav_functions.py, "Function 3.1"):
    each turns one `(date, values)` pair of a series into the fixed-order tuple the matching
    table expects, and `extract_date` picks the date back out of such a tuple. */
module Parsers {
  import opened Wrappers
  import opened Faults
  import opened Json
  import opened Strings

  /** One column of a parsed row: a str, a float, an int or None. */
  datatype Cell = TextCell(text: string) | RealCell(r: real) | IntCell(i: int) | NullCell

  /** A parsed row is a Python tuple, indexed by column position. */
  type Row = seq<Cell>

  /** Python's `float(s)` and `int(s)` on a str, which the model leaves abstract: each is a
      partial parse, and `None` stands for the ValueError it raises. */
  datatype Numeric = Numeric(parseFloat: string -> Option<real>, parseInt: string -> Option<int>)

  /** `values[key]`. */
  function Subscript(values: Value, key: string): Result<Value, Fault> {
    if !values.Obj? then Failure(TypeError)
    else if !HasKey(values.fields, key) then Failure(KeyError(key))
    else Success(GetOr(values.fields, key, Null))
  }

  /** `values.get(key)`, which yields None for an absent key. */
  function Get(values: Value, key: string): Result<Value, Fault> {
    if values.Obj? then Success(GetOr(values.fields, key, Null)) else Failure(AttributeError)
  }

  /** `int(x)` on a float: rounds toward zero. */
  function Truncate(x: real): (n: int)
    ensures 0.0 <= x ==> 0 <= n && n as real <= x < n as real + 1.0
    ensures x < 0.0 ==> n <= 0 && n as real - 1.0 < x <= n as real
  {
    if x >= 0.0 then x.Floor else -((-x).Floor)
  }

  /** `float(v)` on a decoded JSON value. */
  function ToFloat(num: Numeric, v: Value): Result<real, Fault> {
    match v
    case Num(n) => Success(n)
    case Bool(b) => Success(if b then 1.0 else 0.0)
    case Str(s) => if num.parseFloat(s).Some? then Success(num.parseFloat(s).value) else Failure(ConversionError)
    case _ => Failure(TypeError)
  }

  /** `int(v)` on a decoded JSON value. */
  function ToInt(num: Numeric, v: Value): Result<int, Fault> {
    match v
    case Num(n) => Success(Truncate(n))
    case Bool(b) => Success(if b then 1 else 0)
    case Str(s) => if num.parseInt(s).Some? then Success(num.parseInt(s).value) else Failure(ConversionError)
    case _ => Failure(TypeError)
  }

  /** The strings `_safe_float` reads as a missing value once stripped. */
  const Placeholders: set<string> := {"", ".", "-", "\U{2014}", "N/A", "na", "None"}

  /** What `_safe_float` hands to `float()`: the stripped text without commas and spaces. */
  function CleanNumber(s: string): string {
    RemoveChar(RemoveChar(Strip(s), ','), ' ')
  }

  /** `_safe_float(val)`: never raises; None stands for "no value". A JSON number prints as a
      str that `float()` reads back unchanged; `str()` of a bool, a list or a dict is never
      a number, so `float()` rejects it and the ValueError becomes None. */
  function SafeFloat(num: Numeric, v: Value): Option<real> {
    match v
    case Null => None
    case Str(s) => if Strip(s) in Placeholders then None else num.parseFloat(CleanNumber(s))
    case Num(n) => Some(n)
    case _ => None
  }

  /** The four price fields of an AlphaVantage daily bar, in column order. */
  const PriceKeys: seq<string> := ["1. open", "2. high", "3. low", "4. close"]

  /** The field `key` is present in the dict `values` and `float()` accepts it. */
  predicate FieldParses(num: Numeric, values: Value, key: string)
    requires values.Obj?
  {
    HasKey(values.fields, key) && ToFloat(num, GetOr(values.fields, key, Null)).Success?
  }

  /** Every price field is present in `values` and `float()` accepts it. */
  predicate PricesParse(num: Numeric, values: Value) {
    && values.Obj?
    && FieldParses(num, values, "1. open") && FieldParses(num, values, "2. high")
    && FieldParses(num, values, "3. low") && FieldParses(num, values, "4. close")
  }

  /** The float a price field converts to. */
  function Price(num: Numeric, values: Value, i: nat): real
    requires PricesParse(num, values) && i < |PriceKeys|
  {
    ToFloat(num, GetOr(values.fields, PriceKeys[i], Null)).value
  }

  /** The four price columns, open to close, raising as the tuple display would; the
      volume that follows them is read with `values.get`, on a dict by then. */
  function Prices(num: Numeric, values: Value): (r: Result<seq<Cell>, Fault>)
    ensures r.Success? <==> PricesParse(num, values)
    ensures r.Success? ==> |r.value| == 4 && forall i | 0 <= i < 4 :: r.value[i] == RealCell(Price(num, values, i))
    ensures !values.Obj? ==> r == Failure(TypeError)
    ensures values.Obj? && !HasKey(values.fields, "1. open") ==> r == Failure(KeyError("1. open"))
  {
    var open :- Subscript(values, "1. open");
    var o :- ToFloat(num, open);
    var high :- Subscript(values, "2. high");
    var h :- ToFloat(num, high);
    var low :- Subscript(values, "3. low");
    var l :- ToFloat(num, low);
    var close :- Subscript(values, "4. close");
    var c :- ToFloat(num, close);
    Success([RealCell(o), RealCell(h), RealCell(l), RealCell(c)])
  }

  /** `parse_stocks_row`: (symbol, date, open, high, low, close, int volume). */
  function ParseStocksRow(num: Numeric, symbol: string, date: string, values: Value): (r: Result<Row, Fault>)
    ensures r.Success? <==> PricesParse(num, values) && ToInt(num, GetOr(values.fields, "5. volume", Null)).Success?
    ensures r.Success? ==> HasKey(values.fields, "5. volume")
    ensures r.Success? ==> && |r.value| == 7 && r.value[0] == TextCell(symbol) && r.value[1] == TextCell(date)
                           && (forall i | 0 <= i < 4 :: r.value[i + 2] == RealCell(Price(num, values, i)))
                           && r.value[6] == IntCell(ToInt(num, GetOr(values.fields, "5. volume", Null)).value)
    ensures !values.Obj? ==> r == Failure(TypeError)
    ensures values.Obj? && !HasKey(values.fields, "1. open") ==> r == Failure(KeyError("1. open"))
  {
    var prices :- Prices(num, values);
    var v :- ToInt(num, GetOr(values.fields, "5. volume", Null));
    Success([TextCell(symbol), TextCell(date)] + prices + [IntCell(v)])
  }

  /** `parse_fx_row`: (from_currency, to_currency, date, open, high, low, close). */
  function ParseFxRow(num: Numeric, fromCurrency: string, toCurrency: string, date: string, values: Value): (r: Result<Row, Fault>)
    ensures r.Success? <==> PricesParse(num, values)
    ensures r.Success? ==> && |r.value| == 7 && r.value[0] == TextCell(fromCurrency)
                           && r.value[1] == TextCell(toCurrency) && r.value[2] == TextCell(date)
                           && (forall i | 0 <= i < 4 :: r.value[i + 3] == RealCell(Price(num, values, i)))
    ensures !values.Obj? ==> r == Failure(TypeError)
    ensures values.Obj? && !HasKey(values.fields, "1. open") ==> r == Failure(KeyError("1. open"))
  {
    var prices :- Prices(num, values);
    Success([TextCell(fromCurrency), TextCell(toCurrency), TextCell(date)] + prices)
  }

  /** `parse_crypto_row`: (crypto_code, fiat_currency, date, open, high, low, close, float volume). */
  function ParseCryptoRow(num: Numeric, cryptoCode: string, fiatCurrency: string, date: string, values: Value): (r: Result<Row, Fault>)
    ensures r.Success? <==> PricesParse(num, values) && ToFloat(num, GetOr(values.fields, "5. volume", Null)).Success?
    ensures r.Success? ==> HasKey(values.fields, "5. volume")
    ensures r.Success? ==> && |r.value| == 8 && r.value[0] == TextCell(cryptoCode)
                           && r.value[1] == TextCell(fiatCurrency) && r.value[2] == TextCell(date)
                           && (forall i | 0 <= i < 4 :: r.value[i + 3] == RealCell(Price(num, values, i)))
                           && r.value[7] == RealCell(ToFloat(num, GetOr(values.fields, "5. volume", Null)).value)
    ensures !values.Obj? ==> r == Failure(TypeError)
    ensures values.Obj? && !HasKey(values.fields, "1. open") ==> r == Failure(KeyError("1. open"))
  {
    var prices :- Prices(num, values);
    var v :- ToFloat(num, GetOr(values.fields, "5. volume", Null));
    Success([TextCell(cryptoCode), TextCell(fiatCurrency), TextCell(date)] + prices + [RealCell(v)])
  }

  /** `parse_commodity_row`: (commodity_id, date, value), where the value goes through
      `_safe_float` and a missing or unreadable value is stored as None. */
  function ParseCommodityRow(num: Numeric, commodityId: string, date: string, values: Value): (r: Result<Row, Fault>)
    ensures r.Success? <==> values.Obj?
    ensures !values.Obj? ==> r == Failure(AttributeError)
    ensures r.Success? ==> && |r.value| == 3 && r.value[0] == TextCell(commodityId) && r.value[1] == TextCell(date)
                           && r.value[2] == (match SafeFloat(num, GetOr(values.fields, "value", Null))
                                             case Some(x) => RealCell(x)
                                             case None => NullCell)
  {
    var value :- Get(values, "value");
    Success([TextCell(commodityId), TextCell(date), match SafeFloat(num, value) case Some(x) => RealCell(x) case None => NullCell])
  }

  /** Where `extract_date` looks: column 1 for stocks and commodities, column 2 otherwise. */
  function DateColumn(sourceType: string): nat {
    if sourceType == "stocks" || sourceType == "commodity" then 1 else 2
  }

  /** `extract_date(row, source_type)`. */
  function ExtractDate(row: Row, sourceType: string): Cell
    requires DateColumn(sourceType) < |row|
  {
    row[DateColumn(sourceType)]
  }

  /** `_safe_float` ignores white space around the text it is given. */
  lemma SafeFloatIgnoresPadding(num: Numeric, pre: string, s: string, post: string)
    requires AllSpace(pre) && AllSpace(post)
    ensures SafeFloat(num, Str(pre + s + post)) == SafeFloat(num, Str(s))
  {
    StripIgnoresPadding(pre, s, post);
  }

  /** Every placeholder spelling, padded or not, reads as "no value" whatever `float()` would
      have made of it. */
  lemma PlaceholdersReadAsMissing(num: Numeric, pre: string, p: string, post: string)
    requires p in Placeholders && AllSpace(pre) && AllSpace(post)
    ensures SafeFloat(num, Str(pre + p + post)).None?
  {
    var padded := pre + p + post;
    assert Strip(padded) in Placeholders by {
      StripIgnoresPadding(pre, p, post);
      PlaceholdersAreStripped(p);
    }
    StrippedPlaceholderIsMissing(num, padded);
  }

  lemma StrippedPlaceholderIsMissing(num: Numeric, s: string)
    requires Strip(s) in Placeholders
    ensures SafeFloat(num, Str(s)) == None
  {
  }

  lemma PlaceholdersAreStripped(p: string)
    requires p in Placeholders
    ensures Strip(p) == p
  {
    StripUnpadded(p);
  }

  /** Text that is not a placeholder goes to `float()` stripped and with every comma and space
      removed, so thousands separators never reach it. */
  lemma SafeFloatReadsCleanText(num: Numeric, s: string)
    requires Strip(s) !in Placeholders
    ensures SafeFloat(num, Str(s)) == num.parseFloat(CleanNumber(s))
    ensures ',' !in CleanNumber(s) && ' ' !in CleanNumber(s)
    ensures forall c | c != ',' && c != ' ' :: multiset(CleanNumber(s))[c] == multiset(Strip(s))[c]
  {
    var once := RemoveChar(Strip(s), ',');
    assert multiset(CleanNumber(s))[','] == multiset(once)[','] == 0;
  }

  /** A thousands separator anywhere in the text is ignored: "1,234.5" reads as "1234.5". */
  lemma SeparatorIsIgnored(num: Numeric, a: string, b: string)
    requires NoSpace(a) && NoSpace(b) && a + b !in Placeholders
    ensures SafeFloat(num, Str(a + "," + b)) == SafeFloat(num, Str(a + b))
  {
    var grouped := a + "," + b;
    assert grouped[|a|] == ',';
    assert |grouped| > 0 ==> grouped[0] == (if |a| > 0 then a[0] else ',');
    assert grouped[|grouped| - 1] == (if |b| > 0 then b[|b| - 1] else ',');
    StripUnpadded(grouped);
    StripUnpadded(a + b);
    PlaceholdersHaveNoSeparator(grouped);
    RemoveCharAround(a, b, ',');
    assert CleanNumber(grouped) == CleanNumber(a + b);
    assert SafeFloat(num, Str(grouped)) == num.parseFloat(CleanNumber(grouped));
  }

  lemma PlaceholdersHaveNoSeparator(s: string)
    requires ',' in s
    ensures s !in Placeholders
  {
  }
}
