/** The response classification of `fetch_alpha_vantage` (scripts/utils/alphav_functions.py,
    "Function 2"), with the HTTP request taken out: the decoded body is the input, and the
    result is the `(meta, series)` pair the loader works on. */
module Normalize {
  import opened Wrappers
  import opened Faults
  import opened Json
  import opened Strings
  import opened Incremental

  /** The substring that marks the series key of stock, FX and crypto responses
      ("Time Series (Daily)", "Time Series FX (Daily)", ...). */
  const TimeSeriesMarker: string := "Time Series"

  /** The substring that marks the refresh timestamp inside "Meta Data". */
  const LastRefreshedMarker: string := "Last Refreshed"

  /** `fetch_alpha_vantage` after `response.json()`: a body with a "Time Series" key is a time
      series; one with both "data" and "name" is a commodity series; anything else (an error
      or rate-limit message) has an empty series. A body that is not a JSON object fails on
      `data.get`. */
  function ClassifyResponse(data: Value): (r: Result<(Value, Value), Fault>)
    ensures r.Failure? <==> !data.Obj?
    ensures r.Failure? ==> r.error == AttributeError
  {
    if !data.Obj? then Failure(AttributeError)
    else
      var fields := data.fields;
      var meta := GetOr(fields, "Meta Data", Obj([]));
      match FirstKeyContaining(fields, TimeSeriesMarker)
      case Some(i) => Success((meta, GetOr(fields, fields[i].0, Obj([]))))
      case None =>
        if HasKey(fields, "data") && HasKey(fields, "name") then
          Success((CommodityMeta(fields), GetOr(fields, "data", Arr([]))))
        else
          Success((meta, Obj([])))
  }

  /** `{"name": ..., "interval": ..., "unit": ...}` built from a commodity body. */
  function CommodityMeta(fields: seq<(string, Value)>): Value {
    Obj([("name", GetOr(fields, "name", Null)),
         ("interval", GetOr(fields, "interval", Null)),
         ("unit", GetOr(fields, "unit", Null))])
  }

  /** `next((v for k, v in meta.items() if "Last Refreshed" in k), None)`. */
  function LastRefreshed(meta: Value): (r: Result<Value, Fault>)
    ensures r.Failure? <==> !meta.Obj?
    ensures meta.Obj? && (forall j | 0 <= j < |meta.fields| :: !Contains(meta.fields[j].0, LastRefreshedMarker)) ==>
              r == Success(Null)
    ensures meta.Obj? ==>
              forall i | 0 <= i < |meta.fields| && Contains(meta.fields[i].0, LastRefreshedMarker) &&
                         (forall j | 0 <= j < i :: !Contains(meta.fields[j].0, LastRefreshedMarker)) ::
                r == Success(meta.fields[i].1)
  {
    if !meta.Obj? then Failure(AttributeError)
    else
      match FirstKeyContaining(meta.fields, LastRefreshedMarker)
      case Some(i) => Success(meta.fields[i].1)
      case None => Success(Null)
  }

  /** No key of the body mentions "Time Series". */
  predicate NoSeriesKey(fields: seq<(string, Value)>) {
    forall j | 0 <= j < |fields| :: !Contains(fields[j].0, TimeSeriesMarker)
  }

  /** Looking a key up returns the value of its first entry. */
  lemma GetFirst(fields: seq<(string, Value)>, i: nat, default: Value)
    requires i < |fields| && forall j | 0 <= j < i :: fields[j].0 != fields[i].0
    ensures GetOr(fields, fields[i].0, default) == fields[i].1
  {
    var k := IndexOfKey(fields, fields[i].0);
    assert HasKey(fields, fields[i].0);
    assert k.value <= i;
  }

  /** Time-series shape: the series is the value under the FIRST key that contains
      "Time Series", and the metadata is "Meta Data", or {} when the body has none. */
  lemma TimeSeriesResponse(fields: seq<(string, Value)>, i: nat)
    requires i < |fields| && Contains(fields[i].0, TimeSeriesMarker)
    requires forall j | 0 <= j < i :: !Contains(fields[j].0, TimeSeriesMarker)
    ensures ClassifyResponse(Obj(fields)) == Success((GetOr(fields, "Meta Data", Obj([])), fields[i].1))
  {
    GetFirst(fields, i, Obj([]));
  }

  /** Commodity shape: metadata {name, interval, unit}, series the "data" value. */
  lemma CommodityResponse(fields: seq<(string, Value)>)
    requires NoSeriesKey(fields) && HasKey(fields, "data") && HasKey(fields, "name")
    ensures ClassifyResponse(Obj(fields)) == Success((CommodityMeta(fields), fields[IndexOfKey(fields, "data").value].1))
  {
  }

  /** Anything else, an error payload or a rate-limit note, leaves an empty series, and the
      filter then produces no rows in either load mode. */
  lemma UnrecognisedResponseHasNoRows(fields: seq<(string, Value)>, maxDataDate: Option<string>, fullLoad: bool)
    requires NoSeriesKey(fields) && !(HasKey(fields, "data") && HasKey(fields, "name"))
    ensures ClassifyResponse(Obj(fields)).Success?
    ensures ClassifyResponse(Obj(fields)).value.1 == Obj([])
    ensures FilterAndSort(ClassifyResponse(Obj(fields)).value.1, maxDataDate, fullLoad) == Success([])
  {
  }

  /** The commodity metadata has no "Last Refreshed" entry, so the refresh stamp is None. */
  lemma CommodityMetaHasNoRefresh(fields: seq<(string, Value)>)
    ensures LastRefreshed(CommodityMeta(fields)) == Success(Null)
  {
    var meta := CommodityMeta(fields).fields;
    forall j | 0 <= j < |meta| ensures !Contains(meta[j].0, LastRefreshedMarker) {
      if Contains(meta[j].0, LastRefreshedMarker) {
        ContainsNeedsRoom(meta[j].0, LastRefreshedMarker);
      }
    }
  }
}
