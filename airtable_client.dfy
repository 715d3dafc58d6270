/**
 * The conversion of Airtable price records into the per-carrier rate tables:
 * Xinliang rates keyed by province and city, SF and Shentong rates keyed by
 * region, and the two Anneng lists of rows. Each record is read through its
 * Chinese field names, falling back to the English ones, and is dispatched on
 * its carrier.
 */
module AirtableClient {
  import opened Wrappers
  import opened JsString

  /** A field value of a record, or a value that price data parses to. */
  datatype Value =
    | Undefined
    | Null
    | Text(s: string)
    | Number(n: real)
    | Flag(b: bool)
    | Object(props: map<string, Value>)
    | List(items: seq<Value>)

  /** JavaScript truthiness: empty text, zero, false, null and undefined are falsy. */
  predicate Truthy(v: Value) {
    match v
    case Undefined => false
    case Null => false
    case Text(s) => s != ""
    case Number(n) => n != 0.0
    case Flag(b) => b
    case Object(_) => true
    case List(_) => true
  }

  /** One Airtable record: its named fields. */
  datatype AirtableRecord = AirtableRecord(fields: map<string, Value>)

  /** `fields[name]`, undefined when the record has no such field. */
  function Field(fields: map<string, Value>, name: string): Value {
    if name in fields then fields[name] else Undefined
  }

  /** `fields[zh] || fields[en]`: the Chinese field when it is truthy, else the English one. */
  function Pick(fields: map<string, Value>, zh: string, en: string): Value {
    var v := Field(fields, zh);
    if Truthy(v) then v else Field(fields, en)
  }

  /** `value.name` on parsed price data. */
  function Prop(v: Value, name: string): Value {
    if v.Object? && name in v.props then v.props[name] else Undefined
  }

  /** Price data given as text is parsed; any other value is used as it is. */
  function ParsedPriceData(v: Value, parse: string -> Value): Value {
    if v.Text? then parse(v.s) else v
  }

  /** The carriers the conversion knows. */
  datatype Carrier = Xinliang | Sf | Shentong | AnnengStandard | AnnengTimed

  /** The `switch` on the company: each carrier under its Chinese and its English name. */
  function CarrierOf(company: Value): Option<Carrier> {
    if company == Text("新亮物流") || company == Text("Xinliang") then Some(Xinliang)
    else if company == Text("顺丰快递") || company == Text("SF") then Some(Sf)
    else if company == Text("申通快递") || company == Text("Shentong") then Some(Shentong)
    else if company == Text("安能标准") || company == Text("Anneng Standard") then Some(AnnengStandard)
    else if company == Text("安能定时达") || company == Text("Anneng Timed") then Some(AnnengTimed)
    else None
  }

  /** The four fields a record is read through. */
  datatype Reading = Reading(company: Value, region: Value, priceData: Value, leadTime: Value)

  function ReadFields(fields: map<string, Value>): Reading {
    Reading(
      Pick(fields, "物流公司", "Company"),
      Pick(fields, "地区", "Region"),
      Pick(fields, "价格数据", "PriceData"),
      Pick(fields, "时效", "LeadTime"))
  }

  /** A Xinliang rate: the parsed price data and the lead time. */
  datatype RateEntry = RateEntry(rates: Value, leadTimeDays: Value)
  /** An SF rate: first kilogram and each further kilogram. */
  datatype SfEntry = SfEntry(firstKg: Value, additionalPerKg: Value)
  /** A Shentong rate: base price and each extra kilogram. */
  datatype ShentongEntry = ShentongEntry(base: Value, extraPerKg: Value)
  /** An Anneng row. */
  datatype AnnengRow = AnnengRow(province: Value, cities: Value, unitPrice: Value, time: Value)

  /** The converted data, section by section. */
  datatype Tables = Tables(
    prices: map<string, map<string, RateEntry>>,
    sf: map<string, SfEntry>,
    shentong: map<string, ShentongEntry>,
    anneng: seq<AnnengRow>,
    annengTimed: seq<AnnengRow>)

  /** The structure the conversion starts from: every section empty. */
  const EmptyTables := Tables(map[], map[], map[], [], [])

  /**
   * `region.split('-')` destructured into province and city; a region without
   * '-' has an undefined city, which as a key reads "undefined".
   */
  function RegionParts(region: string): (string, string) {
    var parts := SplitOn(region, '-');
    (parts[0], if |parts| >= 2 then parts[1] else "undefined")
  }

  function SfEntryOf(info: Value): SfEntry {
    SfEntry(Prop(info, "first_kg"), Prop(info, "additional_per_kg"))
  }

  function ShentongEntryOf(info: Value): ShentongEntry {
    ShentongEntry(Prop(info, "base"), Prop(info, "extra_per_kg"))
  }

  function AnnengRowOf(info: Value, leadTime: Value): AnnengRow {
    AnnengRow(Prop(info, "province"), Prop(info, "cities"), Prop(info, "unit_price"), leadTime)
  }

  /** The carriers whose branch uses the region as text: split on '-' or taken as a key. */
  predicate KeyedByRegion(c: Carrier) {
    c == Xinliang || c == Sf || c == Shentong
  }

  /**
   * A record is used when its carrier is known and its region and price data
   * are truthy; the carriers keyed by region also need the region to be a text.
   */
  predicate Handled(fields: map<string, Value>) {
    var r := ReadFields(fields);
    && CarrierOf(r.company).Some? && Truthy(r.region) && Truthy(r.priceData)
    && (KeyedByRegion(CarrierOf(r.company).value) ==> r.region.Text?)
  }

  /** The body of the `forEach`: the data after one record. */
  function Applied(t: Tables, record: AirtableRecord, parse: string -> Value): Tables {
    var r := ReadFields(record.fields);
    if !Handled(record.fields) then t
    else
      var info := ParsedPriceData(r.priceData, parse);
      match CarrierOf(r.company).value
      case Xinliang =>
        var parts := RegionParts(r.region.s);
        var cities := if parts.0 in t.prices then t.prices[parts.0] else map[];
        t.(prices := t.prices[parts.0 := cities[parts.1 := RateEntry(info, r.leadTime)]])
      case Sf => t.(sf := t.sf[r.region.s := SfEntryOf(info)])
      case Shentong => t.(shentong := t.shentong[r.region.s := ShentongEntryOf(info)])
      case AnnengStandard => t.(anneng := t.anneng + [AnnengRowOf(info, r.leadTime)])
      case AnnengTimed => t.(annengTimed := t.annengTimed + [AnnengRowOf(info, r.leadTime)])
  }

  /** `transformAirtableData`: the records applied in order to the empty structure. */
  function Transformed(records: seq<AirtableRecord>, parse: string -> Value): Tables
    decreases |records|
  {
    if records == [] then EmptyTables
    else Applied(Transformed(records[..|records| - 1], parse), records[|records| - 1], parse)
  }

  // ------------------------------------------------ what each record writes

  /** The region a record writes in the SF section, with the rate it writes there. */
  function SfWrite(record: AirtableRecord, parse: string -> Value): Option<(string, SfEntry)> {
    var r := ReadFields(record.fields);
    if Handled(record.fields) && CarrierOf(r.company) == Some(Sf)
    then Some((r.region.s, SfEntryOf(ParsedPriceData(r.priceData, parse))))
    else None
  }

  /** The region a record writes in the Shentong section, with the rate it writes there. */
  function ShentongWrite(record: AirtableRecord, parse: string -> Value): Option<(string, ShentongEntry)> {
    var r := ReadFields(record.fields);
    if Handled(record.fields) && CarrierOf(r.company) == Some(Shentong)
    then Some((r.region.s, ShentongEntryOf(ParsedPriceData(r.priceData, parse))))
    else None
  }

  /** The province and city a record writes in the Xinliang section, with the rate it writes there. */
  function RateWrite(record: AirtableRecord, parse: string -> Value): Option<(string, string, RateEntry)> {
    var r := ReadFields(record.fields);
    if Handled(record.fields) && CarrierOf(r.company) == Some(Xinliang)
    then
      var parts := RegionParts(r.region.s);
      Some((parts.0, parts.1, RateEntry(ParsedPriceData(r.priceData, parse), r.leadTime)))
    else None
  }

  /** The row a record appends to the standard (`timed` false) or the timed Anneng list. */
  function AnnengWrite(record: AirtableRecord, parse: string -> Value, timed: bool): Option<AnnengRow> {
    var r := ReadFields(record.fields);
    if Handled(record.fields) && CarrierOf(r.company) == Some(if timed then AnnengTimed else AnnengStandard)
    then Some(AnnengRowOf(ParsedPriceData(r.priceData, parse), r.leadTime))
    else None
  }

  /** The rows the records append to one Anneng list, in record order. */
  function AnnengRows(records: seq<AirtableRecord>, parse: string -> Value, timed: bool): seq<AnnengRow>
    decreases |records|
  {
    if records == [] then []
    else
      var last := AnnengWrite(records[|records| - 1], parse, timed);
      AnnengRows(records[..|records| - 1], parse, timed) + (if last.Some? then [last.value] else [])
  }

  /** A record that is not used changes nothing. */
  lemma UnhandledUnchanged(t: Tables, record: AirtableRecord, parse: string -> Value)
    requires !Handled(record.fields)
    ensures Applied(t, record, parse) == t
  {
  }

  /** SF and Shentong records set exactly one region of their own section. */
  lemma AppliedRegions(t: Tables, record: AirtableRecord, parse: string -> Value)
    ensures var u := Applied(t, record, parse);
            var w := SfWrite(record, parse);
            u.sf == (if w.Some? then t.sf[w.value.0 := w.value.1] else t.sf)
    ensures var u := Applied(t, record, parse);
            var w := ShentongWrite(record, parse);
            u.shentong == (if w.Some? then t.shentong[w.value.0 := w.value.1] else t.shentong)
  {
    var r := ReadFields(record.fields);
    if Handled(record.fields) {
      match CarrierOf(r.company).value {
        case Xinliang =>
        case Sf =>
        case Shentong =>
        case AnnengStandard =>
        case AnnengTimed =>
      }
    }
  }

  /** The Xinliang data with one city rate set, the province created when absent. */
  function WithRate(prices: map<string, map<string, RateEntry>>, w: (string, string, RateEntry)): map<string, map<string, RateEntry>> {
    var cities := if w.0 in prices then prices[w.0] else map[];
    prices[w.0 := cities[w.1 := w.2]]
  }

  /** Setting one city keeps the other provinces and the province's other cities. */
  lemma WithRateKeepsOthers(prices: map<string, map<string, RateEntry>>, w: (string, string, RateEntry))
    ensures var u := WithRate(prices, w);
            && u.Keys == prices.Keys + {w.0}
            && (forall p :: p in prices && p != w.0 ==> u[p] == prices[p])
            && u[w.0].Keys == (if w.0 in prices then prices[w.0].Keys else {}) + {w.1}
            && u[w.0][w.1] == w.2
            && forall c :: w.0 in prices && c in prices[w.0] && c != w.1 ==> u[w.0][c] == prices[w.0][c]
  {
  }

  /** A Xinliang record sets its one city rate; no other record touches the Xinliang data. */
  lemma AppliedRates(t: Tables, record: AirtableRecord, parse: string -> Value)
    ensures var w := RateWrite(record, parse);
            Applied(t, record, parse).prices == (if w.Some? then WithRate(t.prices, w.value) else t.prices)
  {
    var r := ReadFields(record.fields);
    if Handled(record.fields) {
      match CarrierOf(r.company).value {
        case Xinliang =>
        case Sf =>
        case Shentong =>
        case AnnengStandard =>
        case AnnengTimed =>
      }
    }
  }

  /** The Anneng carriers append one row each to their own list. */
  lemma AppliedAnneng(t: Tables, record: AirtableRecord, parse: string -> Value)
    ensures var u := Applied(t, record, parse);
            var a := AnnengWrite(record, parse, false);
            var b := AnnengWrite(record, parse, true);
            && u.anneng == t.anneng + (if a.Some? then [a.value] else [])
            && u.annengTimed == t.annengTimed + (if b.Some? then [b.value] else [])
  {
    var r := ReadFields(record.fields);
    if Handled(record.fields) {
      match CarrierOf(r.company).value {
        case Xinliang =>
        case Sf =>
        case Shentong =>
        case AnnengStandard =>
        case AnnengTimed =>
      }
    }
  }

  /** An Anneng record needs only a truthy region, whatever its value: its row is appended. */
  lemma AnnengAnyRegion(t: Tables, record: AirtableRecord, parse: string -> Value)
    requires var r := ReadFields(record.fields);
             CarrierOf(r.company) == Some(AnnengStandard) && Truthy(r.region) && Truthy(r.priceData)
    ensures var r := ReadFields(record.fields);
            Applied(t, record, parse).anneng == t.anneng + [AnnengRowOf(ParsedPriceData(r.priceData, parse), r.leadTime)]
  {
  }

  /** The English names are only a fallback: with the Chinese fields filled in, they do not matter. */
  lemma ChineseFieldsFirst(t: Tables, a: AirtableRecord, b: AirtableRecord, parse: string -> Value)
    requires forall name :: name in ["物流公司", "地区", "价格数据", "时效"] ==>
               Truthy(Field(a.fields, name)) && Field(b.fields, name) == Field(a.fields, name)
    ensures Applied(t, a, parse) == Applied(t, b, parse)
  {
    assert ReadFields(a.fields) == ReadFields(b.fields) by {
      assert Truthy(Field(a.fields, "物流公司")) && Truthy(Field(a.fields, "地区"));
      assert Truthy(Field(a.fields, "价格数据")) && Truthy(Field(a.fields, "时效"));
    }
  }

  // ------------------------------------------------ what the whole run keeps

  /** Each Anneng list holds the rows of its own carrier's records, in record order. */
  lemma {:induction false} AnnengInRecordOrder(records: seq<AirtableRecord>, parse: string -> Value)
    ensures Transformed(records, parse).anneng == AnnengRows(records, parse, false)
    ensures Transformed(records, parse).annengTimed == AnnengRows(records, parse, true)
    decreases |records|
  {
    if records != [] {
      var init := records[..|records| - 1];
      AnnengInRecordOrder(init, parse);
      AppliedAnneng(Transformed(init, parse), records[|records| - 1], parse);
    }
  }

  /** An SF region holds the rate of the last record for it: a later record overwrites an earlier one. */
  lemma {:induction false} SfLastRecordWins(records: seq<AirtableRecord>, parse: string -> Value, k: nat)
    requires k < |records| && SfWrite(records[k], parse).Some?
    requires forall j :: k < j < |records| && SfWrite(records[j], parse).Some? ==>
               SfWrite(records[j], parse).value.0 != SfWrite(records[k], parse).value.0
    ensures var w := SfWrite(records[k], parse).value;
            w.0 in Transformed(records, parse).sf && Transformed(records, parse).sf[w.0] == w.1
    decreases |records|
  {
    var init := records[..|records| - 1];
    AppliedRegions(Transformed(init, parse), records[|records| - 1], parse);
    if k < |records| - 1 {
      SfLastRecordWins(init, parse, k);
    }
  }

  /** A region no SF record names has no SF rate. */
  lemma {:induction false} SfOnlyWrittenRegions(records: seq<AirtableRecord>, parse: string -> Value, region: string)
    requires forall j :: 0 <= j < |records| && SfWrite(records[j], parse).Some? ==> SfWrite(records[j], parse).value.0 != region
    ensures region !in Transformed(records, parse).sf
    decreases |records|
  {
    if records != [] {
      var init := records[..|records| - 1];
      AppliedRegions(Transformed(init, parse), records[|records| - 1], parse);
      SfOnlyWrittenRegions(init, parse, region);
    }
  }

  /** A Shentong region holds the rate of the last record for it. */
  lemma {:induction false} ShentongLastRecordWins(records: seq<AirtableRecord>, parse: string -> Value, k: nat)
    requires k < |records| && ShentongWrite(records[k], parse).Some?
    requires forall j :: k < j < |records| && ShentongWrite(records[j], parse).Some? ==>
               ShentongWrite(records[j], parse).value.0 != ShentongWrite(records[k], parse).value.0
    ensures var w := ShentongWrite(records[k], parse).value;
            w.0 in Transformed(records, parse).shentong && Transformed(records, parse).shentong[w.0] == w.1
    decreases |records|
  {
    var init := records[..|records| - 1];
    AppliedRegions(Transformed(init, parse), records[|records| - 1], parse);
    if k < |records| - 1 {
      ShentongLastRecordWins(init, parse, k);
    }
  }

  /** A region no Shentong record names has no Shentong rate. */
  lemma {:induction false} ShentongOnlyWrittenRegions(records: seq<AirtableRecord>, parse: string -> Value, region: string)
    requires forall j :: 0 <= j < |records| && ShentongWrite(records[j], parse).Some? ==> ShentongWrite(records[j], parse).value.0 != region
    ensures region !in Transformed(records, parse).shentong
    decreases |records|
  {
    if records != [] {
      var init := records[..|records| - 1];
      AppliedRegions(Transformed(init, parse), records[|records| - 1], parse);
      ShentongOnlyWrittenRegions(init, parse, region);
    }
  }

  /** A Xinliang city holds the rate of the last record for that province and city. */
  lemma {:induction false} RateLastRecordWins(records: seq<AirtableRecord>, parse: string -> Value, k: nat)
    requires k < |records| && RateWrite(records[k], parse).Some?
    requires forall j :: k < j < |records| && RateWrite(records[j], parse).Some? ==>
               (RateWrite(records[j], parse).value.0, RateWrite(records[j], parse).value.1)
               != (RateWrite(records[k], parse).value.0, RateWrite(records[k], parse).value.1)
    ensures var w := RateWrite(records[k], parse).value;
            var prices := Transformed(records, parse).prices;
            w.0 in prices && w.1 in prices[w.0] && prices[w.0][w.1] == w.2
    decreases |records|
  {
    var init := records[..|records| - 1];
    AppliedRates(Transformed(init, parse), records[|records| - 1], parse);
    var w := RateWrite(records[|records| - 1], parse);
    if k == |records| - 1 {
      WithRateKeepsOthers(Transformed(init, parse).prices, w.value);
    } else {
      assert init[k] == records[k];
      RateLastRecordWins(init, parse, k);
      if w.Some? {
        WithRateKeepsOthers(Transformed(init, parse).prices, w.value);
      }
    }
  }

  /** A province and city no Xinliang record names has no rate. */
  lemma {:induction false} RateOnlyWrittenCities(records: seq<AirtableRecord>, parse: string -> Value, province: string, city: string)
    requires forall j :: 0 <= j < |records| && RateWrite(records[j], parse).Some? ==>
               (RateWrite(records[j], parse).value.0, RateWrite(records[j], parse).value.1) != (province, city)
    ensures var prices := Transformed(records, parse).prices;
            province in prices ==> city !in prices[province]
    decreases |records|
  {
    if records != [] {
      var init := records[..|records| - 1];
      AppliedRates(Transformed(init, parse), records[|records| - 1], parse);
      var w := RateWrite(records[|records| - 1], parse);
      if w.Some? {
        WithRateKeepsOthers(Transformed(init, parse).prices, w.value);
      }
      RateOnlyWrittenCities(init, parse, province, city);
    }
  }

  // ------------------------------------------------ the imperative conversion

  /** The data being built: nested rate maps and the two Anneng lists, updated in place. */
  class LogisticsData {
    var prices: map<string, map<string, RateEntry>>
    var sfRegions: map<string, SfEntry>
    var shentongRegions: map<string, ShentongEntry>
    var anneng: seq<AnnengRow>
    var annengTimed: seq<AnnengRow>

    /** The data as a value. */
    function Snapshot(): Tables
      reads this
    {
      Tables(prices, sfRegions, shentongRegions, anneng, annengTimed)
    }

    /** The four empty sections. */
    constructor ()
      ensures Snapshot() == EmptyTables
    {
      prices := map[];
      sfRegions := map[];
      shentongRegions := map[];
      anneng := [];
      annengTimed := [];
    }

    /** One step of the `forEach`. */
    method Add(record: AirtableRecord, parse: string -> Value)
      modifies this
      ensures Snapshot() == Applied(old(Snapshot()), record, parse)
    {
      var r := ReadFields(record.fields);
      if Handled(record.fields) {
        ghost var before := Snapshot();
        var info := ParsedPriceData(r.priceData, parse);
        match CarrierOf(r.company).value {
          case Xinliang =>
            var parts := RegionParts(r.region.s);
            if parts.0 !in prices {
              prices := prices[parts.0 := map[]];
            }
            prices := prices[parts.0 := prices[parts.0][parts.1 := RateEntry(info, r.leadTime)]];
            assert Snapshot() == before.(prices := prices);
          case Sf =>
            sfRegions := sfRegions[r.region.s := SfEntryOf(info)];
            assert Snapshot() == before.(sf := sfRegions);
          case Shentong =>
            shentongRegions := shentongRegions[r.region.s := ShentongEntryOf(info)];
            assert Snapshot() == before.(shentong := shentongRegions);
          case AnnengStandard =>
            anneng := anneng + [AnnengRowOf(info, r.leadTime)];
            assert Snapshot() == before.(anneng := anneng);
          case AnnengTimed =>
            annengTimed := annengTimed + [AnnengRowOf(info, r.leadTime)];
            assert Snapshot() == before.(annengTimed := annengTimed);
        }
      }
    }
  }

  /** `transformAirtableData`: a new structure with every record applied in order. */
  method TransformAirtableData(records: seq<AirtableRecord>, parse: string -> Value) returns (data: LogisticsData)
    ensures fresh(data)
    ensures data.Snapshot() == Transformed(records, parse)
  {
    data := new LogisticsData();
    for i := 0 to |records|
      invariant data.Snapshot() == Transformed(records[..i], parse)
    {
      assert records[..i + 1][..i] == records[..i];
      data.Add(records[i], parse);
    }
    assert records[..|records|] == records;
  }
}
