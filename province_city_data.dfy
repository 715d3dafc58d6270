/**
 * The province/city catalogue: a table of provinces, each with the cities
 * listed under it, and the queries over it — the province list, the cities
 * of one province, a validity check, a substring search capped at ten hits
 * and the list of every (province, city) option. Each query is written over
 * a table passed as `data`; `Catalogue` is the library's own table.
 */
module ProvinceCityData {
  import opened JsString
  import opened JsArray
  import opened Types

  /** The library's table, in its order. */
  function Catalogue(): seq<ProvinceCity> {
    [ProvinceCity("江苏省", ["南京市", "苏州市", "无锡市", "常州市", "镇江市", "南通市", "泰州市", "扬州市", "盐城市", "连云港市", "徐州市", "淮安市", "宿迁市", "张家港市", "常熟市", "昆山市", "江阴市", "金坛市", "丹阳市", "高港市", "泰兴市", "邳州市", "吴江市"]),
     ProvinceCity("浙江省", ["杭州市", "宁波市", "温州市", "嘉兴市", "湖州市", "绍兴市", "金华市", "衢州市", "舟山市", "台州市", "丽水市", "富阳市", "临安市", "诸暨市", "上虞市", "嵊州市", "慈溪市", "余姚市", "海宁市", "桐乡市", "东阳市", "兰溪市", "永康市", "义乌市", "乐清市", "温岭市", "奉化市", "瑞安市"]),
     ProvinceCity("上海市", ["上海市"]),
     ProvinceCity("北京市", ["北京"]),
     ProvinceCity("天津市", ["天津"]),
     ProvinceCity("重庆市", ["重庆"]),
     ProvinceCity("广东省", ["广州市", "深圳市", "珠海市", "汕头市", "佛山市", "韶关市", "湛江市", "肇庆市", "江门市", "茂名市", "惠州市", "梅州市", "汕尾市", "河源市", "阳江市", "清远市", "东莞市", "中山市", "潮州市", "揭阳市", "云浮市", "普宁市", "化州市", "信宜市", "潮汕", "鹤山市", "恩平市", "台山市", "陆丰市", "雷州市", "阳西县", "阳春市", "高州市"]),
     ProvinceCity("山东省", ["济南市", "德州市", "章丘市", "聊城市", "泰安市", "济宁市", "枣庄市", "肥城市", "菏泽市", "莱阳市", "烟台市", "青岛市", "临沂市", "日照市", "潍坊市", "东营市", "滨州市", "淄博市", "新泰市", "莱芜市", "威海市", "蓬莱市"]),
     ProvinceCity("河南省", ["郑州市", "许昌市", "安阳市", "洛阳市", "平顶山市", "开封市", "焦作市", "新乡市", "周口市", "濮阳市", "三门峡市", "鹤壁市", "南阳市", "漯河市", "驻马店市", "信阳市"]),
     ProvinceCity("湖北省", ["武汉市", "仙桃市", "黄冈市", "随州市", "咸宁市", "孝感市", "天门市", "襄阳市", "潜江市", "荆州市", "黄石市", "鄂州市", "十堰市", "荆门市", "宜昌市"]),
     ProvinceCity("湖南省", ["长沙市", "益阳市", "株洲市", "湘潭市", "怀化市", "吉首市", "岳阳市", "郴州市", "永州市", "衡阳市", "常德市"]),
     ProvinceCity("江西省", ["吉安市", "九江市", "抚州市", "景德镇市", "南昌市", "鹰潭市", "宜春市", "上饶市", "萍乡市", "赣州市"]),
     ProvinceCity("福建省", ["泉州市", "莆田市", "厦门市", "龙岩市", "漳州市", "福州市", "南平市", "宁德市", "三明市"]),
     ProvinceCity("安徽省", ["滁州市", "马鞍山市", "宣城市", "合肥市", "六安市", "安庆市", "芜湖市", "铜陵市", "池州市", "宿州市", "蚌埠市", "淮北市", "亳州市", "阜阳市", "黄山市"]),
     ProvinceCity("河北省", ["石家庄市", "沧州市", "邢台市", "衡水市", "晋州市", "邯郸市", "定州市", "承德市", "廊坊市", "秦皇岛市", "张家口市", "唐山市", "保定市"]),
     ProvinceCity("山西省", ["太原市", "临汾市", "运城市", "忻州市", "宿州市", "晋中市", "阳泉市", "大同市", "长治市"]),
     ProvinceCity("陕西省", ["宝鸡市", "汉中市", "安康市", "渭南市", "咸阳市", "榆林市", "西安市", "铜川", "延安"]),
     ProvinceCity("甘肃省", ["庆阳", "天水", "兰州", "金昌", "嘉峪关", "威武", "酒泉", "白银"]),
     ProvinceCity("青海省", ["西宁", "格尔木", "玉树", "德令哈"]),
     ProvinceCity("宁夏", ["银川", "玉树"]),
     ProvinceCity("新疆", ["昌吉", "乌鲁木齐", "克拉玛依", "喀什", "叶城", "阿克苏市", "哈密", "库尔勒"]),
     ProvinceCity("西藏", ["拉萨"]),
     ProvinceCity("内蒙古", ["呼和浩特", "包头", "乌海", "赤峰", "通辽市", "满洲里", "鄂尔多斯", "锡林浩特", "二连浩特"]),
     ProvinceCity("广西", ["桂林市", "梧州市", "百色市", "钦州市", "北海市", "河池市", "南宁市", "崇左市", "凭祥市", "玉林市", "东兴市", "贵港市", "柳州市", "来宾市"]),
     ProvinceCity("海南省", ["海口", "湛江市"]),
     ProvinceCity("云南省", ["昆明市", "曲靖市", "玉溪市", "丽江市", "楚雄市", "景洪市", "大理市"]),
     ProvinceCity("贵州省", ["铜仁市", "贵阳市", "黔南布", "都匀市", "遵义市"]),
     ProvinceCity("四川省", ["成都市", "都江堰市", "彭州市", "西昌市", "攀枝花市", "资阳市", "邛崃市", "德阳市", "眉山市", "遂宁市", "泸州市", "雅安市", "崇州市", "南充市", "阿坝州", "峨眉山市", "乐山市", "绵阳市", "自贡市", "宜宾市", "内江市", "达州市", "广安市"]),
     ProvinceCity("辽宁省", ["鞍山市", "沈阳市", "本溪市", "丹东市", "抚顺市", "东港市", "康平市", "铁岭市", "凤城市", "苏家屯市", "通辽市", "大连市", "鲅鱼圈市", "兴城市", "盘锦市", "营口市", "葫芦岛市", "阜新市", "锦州市"]),
     ProvinceCity("吉林省", ["长春市", "辽源市", "白山市", "公主岭市", "吉林市", "九台市", "船营市", "四平市", "白城", "松原"]),
     ProvinceCity("黑龙江省", ["哈尔滨", "大庆", "佳木斯", "牡丹江", "七台河", "双鸭山", "齐齐哈尔", "嫩江", "鹤岗"])]
  }

  // ------------------------------------------------------ pure lookups

  function ProvinceOf(item: ProvinceCity): string {
    item.province
  }

  /** `getAllProvinces`: the provinces in table order. */
  function AllProvinces(data: seq<ProvinceCity>): (r: seq<string>)
    ensures |r| == |data| && forall i :: 0 <= i < |data| ==> r[i] == data[i].province
  {
    Map(data, ProvinceOf)
  }

  function HasProvince(province: string): ProvinceCity -> bool {
    (item: ProvinceCity) => item.province == province
  }

  /** `getCitiesByProvince`: the cities of the first entry for the province, or none for an unknown one. */
  function CitiesByProvince(data: seq<ProvinceCity>, province: string): (r: seq<string>)
    ensures (exists i :: 0 <= i < |data| && data[i].province == province) ==>
              exists i :: 0 <= i < |data| && data[i].province == province && r == data[i].cities
                          && forall j :: 0 <= j < i ==> data[j].province != province
    ensures (forall i :: 0 <= i < |data| ==> data[i].province != province) ==> r == []
  {
    var found := FindIndex(data, HasProvince(province));
    assert forall i :: 0 <= i < |data| ==> HasProvince(province)(data[i]) == (data[i].province == province);
    if found.Some? then data[found.value].cities else []
  }

  /** `validateProvinceCity`: the city is among those `getCitiesByProvince` gives. */
  predicate ValidateProvinceCity(data: seq<ProvinceCity>, province: string, city: string) {
    city in CitiesByProvince(data, province)
  }

  /** No province has two entries. */
  predicate DistinctProvinces(data: seq<ProvinceCity>) {
    forall i, j :: 0 <= i < j < |data| ==> data[i].province != data[j].province
  }

  /**
   * A valid pair is one the table lists: the city is under an entry for the
   * province; conversely, when no province has two entries, every listed
   * pair is valid.
   */
  lemma ValidateMeansListed(data: seq<ProvinceCity>, province: string, city: string)
    ensures ValidateProvinceCity(data, province, city) ==>
              exists i :: 0 <= i < |data| && data[i].province == province && city in data[i].cities
    ensures DistinctProvinces(data) ==>
              ((exists i :: 0 <= i < |data| && data[i].province == province && city in data[i].cities)
               ==> ValidateProvinceCity(data, province, city))
  {
    if DistinctProvinces(data) && exists i :: 0 <= i < |data| && data[i].province == province && city in data[i].cities {
      var i :| 0 <= i < |data| && data[i].province == province && city in data[i].cities;
      var k :| 0 <= k < |data| && data[k].province == province && CitiesByProvince(data, province) == data[k].cities
                && forall j :: 0 <= j < k ==> data[j].province != province;
      assert k == i;
    }
  }

  // ------------------------------------------------------------ search

  /** The hit for a province. */
  function ProvinceHit(province: string): SearchResult {
    SearchResult(province, "", province)
  }

  /** The hit, and the option, for a city of a province. */
  function CityEntry(province: string, city: string): SearchResult {
    SearchResult(province, city, province + " " + city)
  }

  /** The hits among one province's cities, in their order. */
  function CityHits(province: string, cities: seq<string>, q: string): (r: seq<SearchResult>)
    ensures |r| <= |cities|
  {
    if cities == [] then []
    else
      var last := cities[|cities| - 1];
      CityHits(province, cities[..|cities| - 1], q)
      + (if Includes(ToLower(last), q) then [CityEntry(province, last)] else [])
  }

  /** One entry's hits: the province first when it matches, then its matching cities. */
  function EntryHits(item: ProvinceCity, q: string): seq<SearchResult> {
    (if Includes(ToLower(item.province), q) then [ProvinceHit(item.province)] else [])
    + CityHits(item.province, item.cities, q)
  }

  /** Every hit for the lowered query `q`, entry by entry in table order. */
  function Hits(data: seq<ProvinceCity>, q: string): seq<SearchResult> {
    if data == [] then [] else Hits(data[..|data| - 1], q) + EntryHits(data[|data| - 1], q)
  }

  /** `searchProvinceCity(query)`: nothing for a blank query, otherwise the first ten hits. */
  function Search(data: seq<ProvinceCity>, query: string): (r: seq<SearchResult>)
    ensures Trim(query) == "" ==> r == []
    ensures |r| <= 10
    ensures Trim(query) != "" ==> |r| <= |Hits(data, ToLower(query))| && r == Hits(data, ToLower(query))[..|r|]
    ensures Trim(query) != "" && |Hits(data, ToLower(query))| <= 10 ==> r == Hits(data, ToLower(query))
    ensures Trim(query) != "" && |Hits(data, ToLower(query))| > 10 ==> |r| == 10
  {
    if Trim(query) == "" then [] else Take(Hits(data, ToLower(query)), 10)
  }

  /** `searchProvinceCity(query)`: the hits pushed in a nested loop, the first ten kept. */
  method SearchProvinceCity(data: seq<ProvinceCity>, query: string) returns (r: seq<SearchResult>)
    ensures r == Search(data, query)
  {
    if Trim(query) == "" {
      return [];
    }
    var results := PushHits(data, ToLower(query));
    r := Take(results, 10);
  }

  /** The outer loop of the search: each entry's province hit, then its city hits. */
  method PushHits(data: seq<ProvinceCity>, lowerQuery: string) returns (results: seq<SearchResult>)
    ensures results == Hits(data, lowerQuery)
  {
    results := [];
    for i := 0 to |data|
      invariant results == Hits(data[..i], lowerQuery)
    {
      var provinceData := data[i];
      ghost var before := results;
      if Includes(ToLower(provinceData.province), lowerQuery) {
        results := results + [ProvinceHit(provinceData.province)];
      }
      results := PushCityHits(results, provinceData.province, provinceData.cities, lowerQuery);
      assert results == before + EntryHits(provinceData, lowerQuery);
      assert data[..i + 1][..i] == data[..i] && data[..i + 1][i] == provinceData;
    }
    assert data[..|data|] == data;
  }

  /** The inner loop of the search: push the hit of each city containing `q`. */
  method PushCityHits(results: seq<SearchResult>, province: string, cities: seq<string>, q: string)
    returns (pushed: seq<SearchResult>)
    ensures pushed == results + CityHits(province, cities, q)
  {
    pushed := results;
    for j := 0 to |cities|
      invariant pushed == results + CityHits(province, cities[..j], q)
    {
      var city := cities[j];
      assert cities[..j + 1][..j] == cities[..j];
      if Includes(ToLower(city), q) {
        pushed := pushed + [CityEntry(province, city)];
      }
    }
    assert cities[..|cities|] == cities;
  }

  /** Every city hit names a city listed under its province that contains the query, and reads "province city". */
  lemma {:induction false} CityHitsSound(province: string, cities: seq<string>, q: string, h: SearchResult)
    requires h in CityHits(province, cities, q)
    ensures h.province == province && h.city in cities && Includes(ToLower(h.city), q)
            && h.fullName == province + " " + h.city
    decreases |cities|
  {
    var init := cities[..|cities| - 1];
    if h in CityHits(province, init, q) {
      CityHitsSound(province, init, q, h);
    }
  }

  /** Every listed city that contains the query is a hit. */
  lemma {:induction false} CityHitsComplete(province: string, cities: seq<string>, q: string, k: nat)
    requires k < |cities| && Includes(ToLower(cities[k]), q)
    ensures CityEntry(province, cities[k]) in CityHits(province, cities, q)
    decreases |cities|
  {
    if k < |cities| - 1 {
      var init := cities[..|cities| - 1];
      assert init[k] == cities[k];
      CityHitsComplete(province, init, q, k);
    }
  }

  /** A hit either names a table province containing the query, with no city, or a table city containing it. */
  predicate SoundHit(data: seq<ProvinceCity>, q: string, h: SearchResult) {
    (h == ProvinceHit(h.province) && Includes(ToLower(h.province), q)
     && exists i :: 0 <= i < |data| && data[i].province == h.province)
    || (h == CityEntry(h.province, h.city) && Includes(ToLower(h.city), q)
        && exists i :: 0 <= i < |data| && data[i].province == h.province && h.city in data[i].cities)
  }

  /** Every hit is sound. */
  lemma {:induction false} HitsSound(data: seq<ProvinceCity>, q: string, h: SearchResult)
    requires h in Hits(data, q)
    ensures SoundHit(data, q, h)
    decreases |data|
  {
    var init := data[..|data| - 1];
    var last := data[|data| - 1];
    if h in Hits(init, q) {
      HitsSound(init, q, h);
      assert forall i :: 0 <= i < |init| ==> data[i] == init[i];
    } else if h in CityHits(last.province, last.cities, q) {
      CityHitsSound(last.province, last.cities, q, h);
    }
  }

  /** Every province containing the query, and every listed city containing it, is a hit. */
  lemma {:induction false} HitsComplete(data: seq<ProvinceCity>, q: string, i: nat)
    requires i < |data|
    ensures Includes(ToLower(data[i].province), q) ==> ProvinceHit(data[i].province) in Hits(data, q)
    ensures forall k :: 0 <= k < |data[i].cities| && Includes(ToLower(data[i].cities[k]), q) ==>
              CityEntry(data[i].province, data[i].cities[k]) in Hits(data, q)
    decreases |data|
  {
    var init := data[..|data| - 1];
    if i < |data| - 1 {
      assert init[i] == data[i];
      HitsComplete(init, q, i);
    } else {
      forall k | 0 <= k < |data[i].cities| && Includes(ToLower(data[i].cities[k]), q)
        ensures CityEntry(data[i].province, data[i].cities[k]) in Hits(data, q)
      {
        CityHitsComplete(data[i].province, data[i].cities, q, k);
      }
    }
  }

  /** The hits of a table split in two are the hits of the first part, then those of the second. */
  lemma {:induction false} HitsConcat(a: seq<ProvinceCity>, b: seq<ProvinceCity>, q: string)
    ensures Hits(a + b, q) == Hits(a, q) + Hits(b, q)
    decreases |b|
  {
    if b == [] {
      assert a + b == a;
    } else {
      var init, last := b[..|b| - 1], b[|b| - 1];
      assert (a + b)[..|a + b| - 1] == a + init;
      calc {
        Hits(a + b, q);
        Hits(a + init, q) + EntryHits(last, q);
        { HitsConcat(a, init, q); }
        Hits(a, q) + Hits(init, q) + EntryHits(last, q);
        Hits(a, q) + Hits(b, q);
      }
    }
  }

  /**
   * The hits keep table order, entry by entry: the entries before `data[i]`,
   * then its province hit if it matches, then its city hits, then the entries after it.
   */
  lemma HitsAt(data: seq<ProvinceCity>, q: string, i: nat)
    requires i < |data|
    ensures Hits(data, q)
            == Hits(data[..i], q)
               + (if Includes(ToLower(data[i].province), q) then [ProvinceHit(data[i].province)] else [])
               + CityHits(data[i].province, data[i].cities, q)
               + Hits(data[i + 1..], q)
  {
    assert data == data[..i] + [data[i]] + data[i + 1..];
    HitsConcat(data[..i] + [data[i]], data[i + 1..], q);
    HitsConcat(data[..i], [data[i]], q);
    assert [data[i]][..0] == [];
  }

  /** When a province and one of its cities both match, the province's hit comes before the city's. */
  lemma ProvinceHitFirst(data: seq<ProvinceCity>, q: string, i: nat, k: nat)
    requires i < |data| && k < |data[i].cities|
    requires Includes(ToLower(data[i].province), q) && Includes(ToLower(data[i].cities[k]), q)
    ensures exists a, b :: 0 <= a < b < |Hits(data, q)|
              && Hits(data, q)[a] == ProvinceHit(data[i].province)
              && Hits(data, q)[b] == CityEntry(data[i].province, data[i].cities[k])
  {
    var before := Hits(data[..i], q);
    var cities := CityHits(data[i].province, data[i].cities, q);
    HitsAt(data, q, i);
    CityHitsComplete(data[i].province, data[i].cities, q, k);
    var j :| 0 <= j < |cities| && cities[j] == CityEntry(data[i].province, data[i].cities[k]);
    var h := Hits(data, q);
    assert h[|before|] == ProvinceHit(data[i].province);
    assert h[|before| + 1 + j] == cities[j];
  }

  // ----------------------------------------------------------- options

  /** One entry's options, one per listed city, in order. */
  function EntryOptions(item: ProvinceCity): (r: seq<SearchResult>)
    ensures |r| == |item.cities| && forall k :: 0 <= k < |r| ==> r[k] == CityEntry(item.province, item.cities[k])
  {
    Map(item.cities, (city: string) => CityEntry(item.province, city))
  }

  /** Every (province, city) option, entry by entry in table order. */
  function Options(data: seq<ProvinceCity>): seq<SearchResult> {
    if data == [] then [] else Options(data[..|data| - 1]) + EntryOptions(data[|data| - 1])
  }

  /** The number of (province, city) entries in the table. */
  function CityCount(data: seq<ProvinceCity>): nat {
    if data == [] then 0 else CityCount(data[..|data| - 1]) + |data[|data| - 1].cities|
  }

  /** `getAllProvinceCityOptions`, before its sort: an option per city, pushed in a nested loop. */
  method GetAllProvinceCityOptions(data: seq<ProvinceCity>) returns (options: seq<SearchResult>)
    ensures options == Options(data)
  {
    options := [];
    for i := 0 to |data|
      invariant options == Options(data[..i])
    {
      var provinceData := data[i];
      ghost var head := options;
      for j := 0 to |provinceData.cities|
        invariant options == head + EntryOptions(provinceData)[..j]
      {
        options := options + [CityEntry(provinceData.province, provinceData.cities[j])];
        assert EntryOptions(provinceData)[..j + 1] == EntryOptions(provinceData)[..j] + [EntryOptions(provinceData)[j]];
      }
      assert EntryOptions(provinceData)[..|provinceData.cities|] == EntryOptions(provinceData);
      assert data[..i + 1][..i] == data[..i];
    }
    assert data[..|data|] == data;
  }

  /**
   * Exactly one option per table entry: there are as many options as listed
   * cities, every listed city has its option, and every option is a listed city.
   */
  lemma {:induction false} OptionsPerEntry(data: seq<ProvinceCity>)
    ensures |Options(data)| == CityCount(data)
    ensures forall i, k :: 0 <= i < |data| && 0 <= k < |data[i].cities| ==>
              CityEntry(data[i].province, data[i].cities[k]) in Options(data)
    ensures forall o :: o in Options(data) ==>
              exists i :: 0 <= i < |data| && o == CityEntry(data[i].province, o.city) && o.city in data[i].cities
    decreases |data|
  {
    if data != [] {
      var init := data[..|data| - 1];
      var last := data[|data| - 1];
      OptionsPerEntry(init);
      assert forall i :: 0 <= i < |init| ==> init[i] == data[i];
      forall i, k | 0 <= i < |data| && 0 <= k < |data[i].cities|
        ensures CityEntry(data[i].province, data[i].cities[k]) in Options(data)
      {
        if i == |data| - 1 {
          assert EntryOptions(last)[k] == CityEntry(data[i].province, data[i].cities[k]);
        }
      }
      forall o | o in Options(data)
        ensures exists i :: 0 <= i < |data| && o == CityEntry(data[i].province, o.city) && o.city in data[i].cities
      {
        if o in Options(init) {
          var i :| 0 <= i < |init| && o == CityEntry(init[i].province, o.city) && o.city in init[i].cities;
          assert data[i] == init[i];
        } else {
          var k :| 0 <= k < |EntryOptions(last)| && EntryOptions(last)[k] == o;
          assert o.city == last.cities[k];
        }
      }
    }
  }

  /** Every city hit of the search is one of the options. */
  lemma {:induction false} CityHitsAreOptions(data: seq<ProvinceCity>, q: string, h: SearchResult)
    requires h in Hits(data, q) && h != ProvinceHit(h.province)
    ensures h in Options(data)
  {
    HitsSound(data, q, h);
    OptionsPerEntry(data);
    var i :| 0 <= i < |data| && data[i].province == h.province && h.city in data[i].cities;
    var k :| 0 <= k < |data[i].cities| && data[i].cities[k] == h.city;
  }
}
