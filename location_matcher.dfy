/**
 * Matching free text against the location list: `matchLocation` for one place
 * name, `parseAddressWithLocations` for a whole address, and the city-to-province
 * table behind `extractProvinceFromCity`.
 */
module LocationMatcher {
  import opened Wrappers
  import opened JsString
  import opened JsArray
  import opened LoadLocations

  /** A city-level name contains 市, 县 or 区 (`CityLevelIncludes` restates it with `includes`). */
  predicate IsCityLevel(name: string) {
    '市' in name || '县' in name || '区' in name
  }

  lemma CityLevelIncludes(name: string)
    ensures IsCityLevel(name) <==> Includes(name, "市") || Includes(name, "县") || Includes(name, "区")
  {
    IncludesChar(name, '市');
    IncludesChar(name, '县');
    IncludesChar(name, '区');
  }

  /** A province-level name contains 省, 自治区 or 特别行政区. */
  predicate IsProvinceLevel(name: string) {
    Includes(name, "省") || Includes(name, "自治区") || Includes(name, "特别行政区")
  }

  /** The city-to-province object literal of `extractProvinceFromCity`, keyed by full city name. */
  function CityProvinceMap(): map<string, string> {
    map[
      "阳江市" := "广东省", "清远市" := "广东省", "韶关市" := "广东省", "茂名市" := "广东省",
      "湛江市" := "广东省", "云浮市" := "广东省", "肇庆市" := "广东省", "广州市" := "广东省",
      "深圳市" := "广东省", "珠海市" := "广东省", "汕头市" := "广东省", "佛山市" := "广东省",
      "江门市" := "广东省", "惠州市" := "广东省", "梅州市" := "广东省", "汕尾市" := "广东省",
      "河源市" := "广东省", "东莞市" := "广东省", "中山市" := "广东省", "潮州市" := "广东省",
      "揭阳市" := "广东省",
      "南京市" := "江苏省", "苏州市" := "江苏省", "无锡市" := "江苏省", "常州市" := "江苏省",
      "镇江市" := "江苏省", "扬州市" := "江苏省", "泰州市" := "江苏省", "南通市" := "江苏省",
      "徐州市" := "江苏省", "淮安市" := "江苏省", "盐城市" := "江苏省", "连云港市" := "江苏省",
      "宿迁市" := "江苏省",
      "杭州市" := "浙江省", "宁波市" := "浙江省", "温州市" := "浙江省", "嘉兴市" := "浙江省",
      "湖州市" := "浙江省", "绍兴市" := "浙江省", "金华市" := "浙江省", "衢州市" := "浙江省",
      "舟山市" := "浙江省", "台州市" := "浙江省", "丽水市" := "浙江省",
      "济南市" := "山东省", "青岛市" := "山东省", "淄博市" := "山东省", "枣庄市" := "山东省",
      "东营市" := "山东省", "烟台市" := "山东省", "潍坊市" := "山东省", "济宁市" := "山东省",
      "泰安市" := "山东省", "威海市" := "山东省", "日照市" := "山东省", "临沂市" := "山东省",
      "德州市" := "山东省", "聊城市" := "山东省", "滨州市" := "山东省", "菏泽市" := "山东省",
      "石家庄市" := "河北省", "唐山市" := "河北省", "秦皇岛市" := "河北省", "邯郸市" := "河北省",
      "邢台市" := "河北省", "保定市" := "河北省", "张家口市" := "河北省", "承德市" := "河北省",
      "沧州市" := "河北省", "廊坊市" := "河北省", "衡水市" := "河北省",
      "郑州市" := "河南省", "开封市" := "河南省", "洛阳市" := "河南省", "平顶山市" := "河南省",
      "安阳市" := "河南省", "鹤壁市" := "河南省", "新乡市" := "河南省", "焦作市" := "河南省",
      "濮阳市" := "河南省", "许昌市" := "河南省", "漯河市" := "河南省", "三门峡市" := "河南省",
      "南阳市" := "河南省", "商丘市" := "河南省", "信阳市" := "河南省", "周口市" := "河南省",
      "驻马店市" := "河南省", "济源市" := "河南省",
      "成都市" := "四川省", "自贡市" := "四川省", "攀枝花市" := "四川省", "泸州市" := "四川省",
      "德阳市" := "四川省", "绵阳市" := "四川省", "广元市" := "四川省", "遂宁市" := "四川省",
      "内江市" := "四川省", "乐山市" := "四川省", "南充市" := "四川省", "眉山市" := "四川省",
      "宜宾市" := "四川省", "广安市" := "四川省", "达州市" := "四川省", "雅安市" := "四川省",
      "巴中市" := "四川省", "资阳市" := "四川省",
      "武汉市" := "湖北省", "黄石市" := "湖北省", "十堰市" := "湖北省", "宜昌市" := "湖北省",
      "襄阳市" := "湖北省", "鄂州市" := "湖北省", "荆门市" := "湖北省", "孝感市" := "湖北省",
      "荆州市" := "湖北省", "黄冈市" := "湖北省", "咸宁市" := "湖北省", "随州市" := "湖北省",
      "长沙市" := "湖南省", "株洲市" := "湖南省", "湘潭市" := "湖南省", "衡阳市" := "湖南省",
      "邵阳市" := "湖南省", "岳阳市" := "湖南省", "常德市" := "湖南省", "张家界市" := "湖南省",
      "益阳市" := "湖南省", "郴州市" := "湖南省", "永州市" := "湖南省", "怀化市" := "湖南省",
      "娄底市" := "湖南省",
      "合肥市" := "安徽省", "芜湖市" := "安徽省", "蚌埠市" := "安徽省", "淮南市" := "安徽省",
      "马鞍山市" := "安徽省", "淮北市" := "安徽省", "铜陵市" := "安徽省", "安庆市" := "安徽省",
      "黄山市" := "安徽省", "滁州市" := "安徽省", "阜阳市" := "安徽省", "宿州市" := "安徽省",
      "六安市" := "安徽省", "亳州市" := "安徽省", "池州市" := "安徽省", "宣城市" := "安徽省",
      "福州市" := "福建省", "厦门市" := "福建省", "莆田市" := "福建省", "三明市" := "福建省",
      "泉州市" := "福建省", "漳州市" := "福建省", "南平市" := "福建省", "龙岩市" := "福建省",
      "宁德市" := "福建省",
      "南昌市" := "江西省", "景德镇市" := "江西省", "萍乡市" := "江西省", "九江市" := "江西省",
      "新余市" := "江西省", "鹰潭市" := "江西省", "赣州市" := "江西省", "吉安市" := "江西省",
      "宜春市" := "江西省", "抚州市" := "江西省", "上饶市" := "江西省",
      "沈阳市" := "辽宁省", "大连市" := "辽宁省", "鞍山市" := "辽宁省", "抚顺市" := "辽宁省",
      "本溪市" := "辽宁省", "丹东市" := "辽宁省", "锦州市" := "辽宁省", "营口市" := "辽宁省",
      "阜新市" := "辽宁省", "辽阳市" := "辽宁省", "盘锦市" := "辽宁省", "铁岭市" := "辽宁省",
      "朝阳市" := "辽宁省", "葫芦岛市" := "辽宁省",
      "长春市" := "吉林省", "吉林市" := "吉林省", "四平市" := "吉林省", "辽源市" := "吉林省",
      "通化市" := "吉林省", "白山市" := "吉林省", "松原市" := "吉林省", "白城市" := "吉林省",
      "哈尔滨市" := "黑龙江省", "齐齐哈尔市" := "黑龙江省", "鸡西市" := "黑龙江省", "鹤岗市" := "黑龙江省",
      "双鸭山市" := "黑龙江省", "大庆市" := "黑龙江省", "伊春市" := "黑龙江省", "佳木斯市" := "黑龙江省",
      "七台河市" := "黑龙江省", "牡丹江市" := "黑龙江省", "黑河市" := "黑龙江省", "绥化市" := "黑龙江省",
      "西安市" := "陕西省", "铜川市" := "陕西省", "宝鸡市" := "陕西省", "咸阳市" := "陕西省",
      "渭南市" := "陕西省", "延安市" := "陕西省", "汉中市" := "陕西省", "榆林市" := "陕西省",
      "安康市" := "陕西省", "商洛市" := "陕西省",
      "兰州市" := "甘肃省", "嘉峪关市" := "甘肃省", "金昌市" := "甘肃省", "白银市" := "甘肃省",
      "天水市" := "甘肃省", "武威市" := "甘肃省", "张掖市" := "甘肃省", "平凉市" := "甘肃省",
      "酒泉市" := "甘肃省", "庆阳市" := "甘肃省", "定西市" := "甘肃省", "陇南市" := "甘肃省",
      "西宁市" := "青海省", "海东市" := "青海省",
      "银川市" := "宁夏回族自治区", "石嘴山市" := "宁夏回族自治区", "吴忠市" := "宁夏回族自治区",
      "固原市" := "宁夏回族自治区", "中卫市" := "宁夏回族自治区",
      "乌鲁木齐市" := "新疆维吾尔自治区", "克拉玛依市" := "新疆维吾尔自治区",
      "拉萨市" := "西藏自治区", "日喀则市" := "西藏自治区", "昌都市" := "西藏自治区",
      "林芝市" := "西藏自治区", "山南市" := "西藏自治区", "那曲市" := "西藏自治区",
      "呼和浩特市" := "内蒙古自治区", "包头市" := "内蒙古自治区", "乌海市" := "内蒙古自治区",
      "赤峰市" := "内蒙古自治区", "通辽市" := "内蒙古自治区", "鄂尔多斯市" := "内蒙古自治区",
      "呼伦贝尔市" := "内蒙古自治区", "巴彦淖尔市" := "内蒙古自治区", "乌兰察布市" := "内蒙古自治区",
      "南宁市" := "广西壮族自治区", "柳州市" := "广西壮族自治区", "桂林市" := "广西壮族自治区",
      "梧州市" := "广西壮族自治区", "北海市" := "广西壮族自治区", "防城港市" := "广西壮族自治区",
      "钦州市" := "广西壮族自治区", "贵港市" := "广西壮族自治区", "玉林市" := "广西壮族自治区",
      "百色市" := "广西壮族自治区", "贺州市" := "广西壮族自治区", "河池市" := "广西壮族自治区",
      "来宾市" := "广西壮族自治区", "崇左市" := "广西壮族自治区",
      "昆明市" := "云南省", "曲靖市" := "云南省", "玉溪市" := "云南省", "保山市" := "云南省",
      "昭通市" := "云南省", "丽江市" := "云南省", "普洱市" := "云南省", "临沧市" := "云南省",
      "楚雄彝族自治州" := "云南省", "红河哈尼族彝族自治州" := "云南省", "文山壮族苗族自治州" := "云南省",
      "西双版纳傣族自治州" := "云南省", "大理白族自治州" := "云南省", "德宏傣族景颇族自治州" := "云南省",
      "怒江傈僳族自治州" := "云南省", "迪庆藏族自治州" := "云南省",
      "贵阳市" := "贵州省", "六盘水市" := "贵州省", "遵义市" := "贵州省", "安顺市" := "贵州省",
      "毕节市" := "贵州省", "铜仁市" := "贵州省",
      "北京市" := "北京市", "天津市" := "天津市", "上海市" := "上海市", "重庆市" := "重庆市",
      "香港特别行政区" := "香港特别行政区", "澳门特别行政区" := "澳门特别行政区",
      "台北市" := "台湾省", "高雄市" := "台湾省", "台中市" := "台湾省", "台南市" := "台湾省",
      "新北市" := "台湾省", "桃园市" := "台湾省", "基隆市" := "台湾省", "新竹市" := "台湾省",
      "嘉义市" := "台湾省"
    ]
  }

  /** `extractProvinceFromCity`: the province listed for exactly this city name, or null when none or an empty one is. */
  function ExtractProvinceFromCity(cityName: string): (r: Option<string>)
    ensures r.Some? ==> r.value != ""
  {
    ProvinceIn(CityProvinceMap(), cityName)
  }

  /**
   * The lookup of `extractProvinceFromCity` in a given table. The parse below
   * takes the table as a parameter (`CityProvinceMap()` in the source), so its
   * properties hold whatever the table lists.
   */
  function ProvinceIn(table: map<string, string>, cityName: string): (r: Option<string>)
    ensures r.Some? <==> cityName in table && table[cityName] != ""
    ensures r.Some? ==> r.value == table[cityName]
  {
    if cityName in table && table[cityName] != "" then Some(table[cityName]) else None
  }

  /** A municipality is listed as its own province. */
  lemma MunicipalityIsItsOwnProvince()
    ensures ExtractProvinceFromCity("北京市") == Some("北京市")
  {
  }

  // ---------------------------------------------------------------------------
  // matchLocation

  /** Either text contains the other. */
  predicate Overlaps(a: string, b: string) {
    Includes(a, b) || Includes(b, a)
  }

  /** The input every stage compares against: trimmed and lower-cased. */
  function MatchInput(userInput: string): string {
    ToLower(Trim(userInput))
  }

  /** The province short form: the first 省, 市, 自治区 and 特别行政区 removed, in that order. */
  function ProvinceShort(s: string): string {
    ReplaceFirst(ReplaceFirst(ReplaceFirst(ReplaceFirst(s, "省", ""), "市", ""), "自治区", ""), "特别行政区", "")
  }

  /** The city short form: the first 市, 区 and 县 removed, in that order. */
  function CityShort(s: string): string {
    ReplaceFirst(ReplaceFirst(ReplaceFirst(s, "市", ""), "区", ""), "县", "")
  }

  /** The characters of `input`, counted with repetition, that occur somewhere in `name`. */
  function SharedChars(input: string, name: string): (n: nat)
    ensures n <= |input|
  {
    if input == [] then 0
    else SharedChars(input[..|input| - 1], name) + (if input[|input| - 1] in name then 1 else 0)
  }

  /** Three or more input characters, more than 70% of them found in the name. */
  predicate CharOverlap(input: string, name: string) {
    |input| >= 3 && (SharedChars(input, name) as real) / (|input| as real) > 0.7
  }

  /** The test of the last stage: containment either way, or enough shared characters. */
  predicate PartialMatch(input: string, name: string) {
    Includes(name, input) || Includes(input, name) || CharOverlap(input, name)
  }

  function ExactTest(input: string): Location -> bool {
    (l: Location) => ToLower(l.name) == input
  }

  function ContainsTest(input: string): Location -> bool {
    (l: Location) => Overlaps(ToLower(l.name), input)
  }

  function ProvinceShortTest(short: string): Location -> bool {
    (l: Location) => var ls := ProvinceShort(ToLower(l.name)); ls == short || Includes(ls, short)
  }

  function CityShortTest(short: string): Location -> bool {
    (l: Location) => var ls := CityShort(ToLower(l.name)); ls == short || Includes(ls, short)
  }

  function PartialTest(input: string): Location -> bool {
    (l: Location) => PartialMatch(input, ToLower(l.name))
  }

  /** The province-short stage: it runs only when the short form is longer than one character. */
  function ProvinceShortStage(input: string, locations: seq<Location>): Option<Location> {
    var short := ProvinceShort(input);
    if |short| > 1 then Find(locations, ProvinceShortTest(short)) else None
  }

  /** The city-short stage: it runs only when the short form is longer than one character. */
  function CityShortStage(input: string, locations: seq<Location>): Option<Location> {
    var short := CityShort(input);
    if |short| > 1 then Find(locations, CityShortTest(short)) else None
  }

  /** `matchLocation`: the first stage that finds a location decides, and within a stage the first location does. */
  function MatchLocation(userInput: string, locations: seq<Location>): (r: Option<Location>)
    ensures r.Some? ==> r.value in locations
    ensures Trim(userInput) == "" ==> r.None?
  {
    if Trim(userInput) == "" then None
    else
      var input := MatchInput(userInput);
      var exact := Find(locations, ExactTest(input));
      if exact.Some? then exact
      else
        var contains := Find(locations, ContainsTest(input));
        if contains.Some? then contains
        else
          var province := ProvinceShortStage(input, locations);
          if province.Some? then province
          else
            var city := CityShortStage(input, locations);
            if city.Some? then city
            else Find(locations, PartialTest(input))
  }

  /** The `matchCount` loop of the last stage. */
  method CountSharedChars(input: string, name: string) returns (count: nat)
    ensures count == SharedChars(input, name)
  {
    count := 0;
    for i := 0 to |input|
      invariant count == SharedChars(input[..i], name)
    {
      assert input[..i + 1][..i] == input[..i];
      if input[i] in name {
        count := count + 1;
      }
    }
    assert input[..|input|] == input;
  }

  /** The callback of the last stage, with its counting loop. */
  method IsPartialMatch(input: string, name: string) returns (b: bool)
    ensures b == PartialMatch(input, name)
  {
    if Includes(name, input) {
      return true;
    }
    if Includes(input, name) {
      return true;
    }
    if |input| < 3 {
      return false;
    }
    var count := CountSharedChars(input, name);
    return (count as real) / (|input| as real) > 0.7;
  }

  /** A ratio above 0.7 is ten times the numerator above seven times the denominator. */
  lemma RatioAboveSevenTenths(n: real, len: real)
    requires len > 0.0
    ensures n / len > 0.7 <==> 10.0 * n > 7.0 * len
  {
    var q := n / len;
    assert n == q * len;
    if q > 0.7 {
      assert (q - 0.7) * len > 0.0;
    } else {
      assert (0.7 - q) * len >= 0.0;
    }
  }

  /** The 70% threshold in integers: ten times the shared characters exceed seven times the input length. */
  lemma CharOverlapThreshold(input: string, name: string)
    ensures CharOverlap(input, name) <==> |input| >= 3 && 10 * SharedChars(input, name) > 7 * |input|
  {
    if |input| >= 3 {
      var k := SharedChars(input, name);
      RatioAboveSevenTenths(k as real, |input| as real);
      assert (10 * k) as real == 10.0 * (k as real);
      assert (7 * |input|) as real == 7.0 * (|input| as real);
    }
  }

  /** An exact match wins, and the first exact match in list order. */
  lemma MatchLocationExactFirst(userInput: string, locations: seq<Location>, i: nat)
    requires Trim(userInput) != "" && i < |locations|
    requires ToLower(locations[i].name) == MatchInput(userInput)
    requires forall j :: 0 <= j < i ==> ToLower(locations[j].name) != MatchInput(userInput)
    ensures MatchLocation(userInput, locations) == Some(locations[i])
  {
    FindIndexFirst(locations, ExactTest(MatchInput(userInput)), i);
  }

  /** Without an exact match, the first location in a containment relation with the input wins. */
  lemma MatchLocationContainsFirst(userInput: string, locations: seq<Location>, i: nat)
    requires Trim(userInput) != "" && i < |locations|
    requires forall l :: l in locations ==> ToLower(l.name) != MatchInput(userInput)
    requires Overlaps(ToLower(locations[i].name), MatchInput(userInput))
    requires forall j :: 0 <= j < i ==> !Overlaps(ToLower(locations[j].name), MatchInput(userInput))
    ensures MatchLocation(userInput, locations) == Some(locations[i])
  {
    FindIndexFirst(locations, ContainsTest(MatchInput(userInput)), i);
  }

  /** No location matches the input exactly when none is in a containment relation with it. */
  lemma NoContainmentNoExact(input: string, locations: seq<Location>)
    requires forall l :: l in locations ==> !Overlaps(ToLower(l.name), input)
    ensures Find(locations, ExactTest(input)) == None && Find(locations, ContainsTest(input)) == None
  {
    forall l | l in locations
      ensures !ExactTest(input)(l)
    {
      if ToLower(l.name) == input {
        IncludesSelf(input);
      }
    }
    FindNone(locations, ExactTest(input));
    FindNone(locations, ContainsTest(input));
  }

  /** Without exact or containment matches, the province short forms decide, when the input's is long enough. */
  lemma MatchLocationProvinceShortFirst(userInput: string, locations: seq<Location>, i: nat)
    requires Trim(userInput) != "" && i < |locations|
    requires forall l :: l in locations ==> !Overlaps(ToLower(l.name), MatchInput(userInput))
    requires |ProvinceShort(MatchInput(userInput))| > 1
    requires ProvinceShortTest(ProvinceShort(MatchInput(userInput)))(locations[i])
    requires forall j :: 0 <= j < i ==> !ProvinceShortTest(ProvinceShort(MatchInput(userInput)))(locations[j])
    ensures MatchLocation(userInput, locations) == Some(locations[i])
  {
    var input := MatchInput(userInput);
    NoContainmentNoExact(input, locations);
    FindFirst(locations, ProvinceShortTest(ProvinceShort(input)), i);
  }

  /** Then the city short forms decide, when the input's is long enough. */
  lemma MatchLocationCityShortFirst(userInput: string, locations: seq<Location>, i: nat)
    requires Trim(userInput) != "" && i < |locations|
    requires forall l :: l in locations ==> !Overlaps(ToLower(l.name), MatchInput(userInput))
    requires ProvinceShortStage(MatchInput(userInput), locations).None?
    requires |CityShort(MatchInput(userInput))| > 1
    requires CityShortTest(CityShort(MatchInput(userInput)))(locations[i])
    requires forall j :: 0 <= j < i ==> !CityShortTest(CityShort(MatchInput(userInput)))(locations[j])
    ensures MatchLocation(userInput, locations) == Some(locations[i])
  {
    var input := MatchInput(userInput);
    NoContainmentNoExact(input, locations);
    FindFirst(locations, CityShortTest(CityShort(input)), i);
  }

  /**
   * The result is null exactly when the input is blank, or no location passes
   * the last stage's test and neither short-form stage finds one.
   */
  lemma MatchLocationNone(userInput: string, locations: seq<Location>)
    ensures var input := MatchInput(userInput);
            MatchLocation(userInput, locations).None? <==>
              Trim(userInput) == "" ||
              (ProvinceShortStage(input, locations).None? && CityShortStage(input, locations).None?
               && forall l :: l in locations ==> !PartialMatch(input, ToLower(l.name)))
  {
    var input := MatchInput(userInput);
    if Trim(userInput) != "" {
      if MatchLocation(userInput, locations).None? {
        NothingMatched(userInput, locations);
      }
      if forall l :: l in locations ==> !PartialTest(input)(l) {
        NoPartialNoExact(input, locations);
      }
    }
  }

  lemma NothingMatched(userInput: string, locations: seq<Location>)
    requires Trim(userInput) != "" && MatchLocation(userInput, locations).None?
    ensures ProvinceShortStage(MatchInput(userInput), locations).None? && CityShortStage(MatchInput(userInput), locations).None?
    ensures forall l :: l in locations ==> !PartialTest(MatchInput(userInput))(l)
  {
    var input := MatchInput(userInput);
    var exact := Find(locations, ExactTest(input));
    var contains := Find(locations, ContainsTest(input));
    var province := ProvinceShortStage(input, locations);
    var city := CityShortStage(input, locations);
    assert exact.None? && contains.None?;
    assert province.None?;
    assert city.None?;
    assert Find(locations, PartialTest(input)) == None;
  }

  /** Both earlier stages' tests imply the last one's, so without a partial match they find nothing. */
  lemma NoPartialNoExact(input: string, locations: seq<Location>)
    requires forall l :: l in locations ==> !PartialTest(input)(l)
    ensures Find(locations, ExactTest(input)) == None && Find(locations, ContainsTest(input)) == None
    ensures Find(locations, PartialTest(input)) == None
  {
    forall l | l in locations
      ensures !ExactTest(input)(l) && !ContainsTest(input)(l)
    {
      if ToLower(l.name) == input {
        IncludesSelf(input);
      }
    }
    FindNone(locations, ExactTest(input));
    FindNone(locations, ContainsTest(input));
    FindNone(locations, PartialTest(input));
  }

  /** An input under three characters matches in the last stage only by containment. */
  lemma ShortInputNeedsContainment(input: string, name: string)
    requires |input| < 3
    ensures PartialMatch(input, name) <==> Overlaps(name, input)
  {
  }

  // ---------------------------------------------------------------------------
  // Ranking the candidates of parseAddressWithLocations

  /** The sort comparator's order: city-level names before others, then longer names before shorter ones. */
  predicate Outranks(a: Location, b: Location) {
    (IsCityLevel(a.name) && !IsCityLevel(b.name))
    || (IsCityLevel(a.name) == IsCityLevel(b.name) && |a.name| > |b.name|)
  }

  function OutrankedBy(x: Location): Location -> bool {
    (l: Location) => Outranks(x, l)
  }

  /** Neither outranks the other. */
  predicate SameRank(a: Location, b: Location) {
    !Outranks(a, b) && !Outranks(b, a)
  }

  function SameRankAs(x: Location): Location -> bool {
    (l: Location) => SameRank(l, x)
  }

  /** No element outranks an earlier one. */
  predicate Ranked(s: seq<Location>) {
    forall i, j :: 0 <= i < j < |s| ==> !Outranks(s[j], s[i])
  }

  /** Inserts `x` after every element it does not outrank. */
  function Insert(sorted: seq<Location>, x: Location): (r: seq<Location>)
    ensures |r| == |sorted| + 1
  {
    match FindIndex(sorted, OutrankedBy(x))
    case None => sorted + [x]
    case Some(j) => sorted[..j] + [x] + sorted[j..]
  }

  /** `sort` with the ranking comparator, as the stable sort JavaScript's is: insertion from the left. */
  function SortByRank(s: seq<Location>): (r: seq<Location>)
    ensures |r| == |s|
  {
    if s == [] then [] else Insert(SortByRank(s[..|s| - 1]), s[|s| - 1])
  }

  /** Inserting `x` after the elements it does not outrank and before those it does keeps the list ranked. */
  lemma InsertRankedAt(sorted: seq<Location>, j: nat, x: Location)
    requires Ranked(sorted) && j <= |sorted|
    requires forall i :: 0 <= i < j ==> !Outranks(x, sorted[i])
    requires j < |sorted| ==> Outranks(x, sorted[j])
    ensures Ranked(sorted[..j] + [x] + sorted[j..])
  {
    var r := sorted[..j] + [x] + sorted[j..];
    forall a, b | 0 <= a < b < |r|
      ensures !Outranks(r[b], r[a])
    {
      if b < j {
        assert r[a] == sorted[a] && r[b] == sorted[b];
      } else if b == j {
        assert r[a] == sorted[a] && r[b] == x;
      } else if a < j {
        assert r[a] == sorted[a] && r[b] == sorted[b - 1];
      } else if a == j {
        assert r[a] == x && r[b] == sorted[b - 1];
        if b - 1 > j {
          OutranksChain(x, sorted[j], sorted[b - 1]);
        }
      } else {
        assert r[a] == sorted[a - 1] && r[b] == sorted[b - 1];
      }
    }
  }

  lemma InsertRanked(sorted: seq<Location>, x: Location)
    requires Ranked(sorted)
    ensures Ranked(Insert(sorted, x))
    ensures multiset(Insert(sorted, x)) == multiset(sorted) + multiset{x}
  {
    var j := match FindIndex(sorted, OutrankedBy(x)) case None => |sorted| case Some(j) => j;
    assert Insert(sorted, x) == sorted[..j] + [x] + sorted[j..];
    InsertRankedAt(sorted, j, x);
    InsertAtMultiset(sorted, j, x);
  }

  /** The sort is a permutation and leaves the candidates ranked. */
  lemma {:induction false} SortByRankRanked(s: seq<Location>)
    ensures Ranked(SortByRank(s))
    ensures multiset(SortByRank(s)) == multiset(s)
  {
    if s != [] {
      var init, last := s[..|s| - 1], s[|s| - 1];
      SortByRankRanked(init);
      InsertRanked(SortByRank(init), last);
      assert s == init + [last];
    }
  }

  /** Ranks form a total preorder: what `a` outranks, `a` also outranks anything not above it. */
  lemma OutranksChain(a: Location, b: Location, c: Location)
    requires Outranks(a, b) && !Outranks(c, b)
    ensures Outranks(a, c)
  {
  }

  /** In a ranked list, whatever outranks one element outranks every later one too. */
  lemma TailOutranked(sorted: seq<Location>, j: nat, y: Location)
    requires Ranked(sorted) && j < |sorted| && Outranks(y, sorted[j])
    ensures forall l :: l in sorted[j..] ==> Outranks(y, l)
  {
    forall l | l in sorted[j..]
      ensures Outranks(y, l)
    {
      var k :| j <= k < |sorted| && sorted[k] == l;
      if k > j {
        OutranksChain(y, sorted[j], l);
      }
    }
  }

  /** Inserting `y` where it outranks everything after it keeps each rank's order and puts `y` last in its rank. */
  lemma InsertStableAt(sorted: seq<Location>, j: nat, y: Location, x: Location)
    requires Ranked(sorted) && j <= |sorted|
    requires j < |sorted| ==> Outranks(y, sorted[j])
    ensures var f := Filter(sorted[..j] + [y] + sorted[j..], SameRankAs(x));
            (SameRank(y, x) ==> f == Filter(sorted, SameRankAs(x)) + [y])
            && (!SameRank(y, x) ==> f == Filter(sorted, SameRankAs(x)))
  {
    var head, tail := sorted[..j], sorted[j..];
    assert sorted == head + tail;
    if SameRank(y, x) && j < |sorted| {
      TailOutranked(sorted, j, y);
    }
    FilterInsert(head, y, tail, SameRankAs(x));
  }

  lemma InsertStable(sorted: seq<Location>, y: Location, x: Location)
    requires Ranked(sorted)
    ensures Filter(Insert(sorted, y), SameRankAs(x)) == Filter(sorted + [y], SameRankAs(x))
  {
    var p := SameRankAs(x);
    var j := match FindIndex(sorted, OutrankedBy(y)) case None => |sorted| case Some(j) => j;
    assert Insert(sorted, y) == sorted[..j] + [y] + sorted[j..];
    assert j < |sorted| ==> Outranks(y, sorted[j]);
    InsertStableAt(sorted, j, y, x);
    assert Filter(sorted + [y], p) == Filter(sorted, p) + Filter([y], p) by {
      FilterConcat(sorted, [y], p);
    }
    assert Filter([y], p) == if SameRank(y, x) then [y] else [];
  }

  /** The sort is stable: the candidates of any one rank keep their original order. */
  lemma {:induction false} SortByRankStable(s: seq<Location>, x: Location)
    ensures Filter(SortByRank(s), SameRankAs(x)) == Filter(s, SameRankAs(x))
  {
    if s != [] {
      var init, last := s[..|s| - 1], s[|s| - 1];
      var sorted := SortByRank(init);
      var p := SameRankAs(x);
      assert s == init + [last];
      calc {
        Filter(SortByRank(s), p);
        Filter(Insert(sorted, last), p);
        { SortByRankRanked(init); InsertStable(sorted, last, x); }
        Filter(sorted + [last], p);
        { FilterConcat(sorted, [last], p); }
        Filter(sorted, p) + Filter([last], p);
        { SortByRankStable(init, x); }
        Filter(init, p) + Filter([last], p);
        { FilterConcat(init, [last], p); }
        Filter(s, p);
      }
    }
  }

  // ---------------------------------------------------------------------------
  // parseAddressWithLocations

  /** The result: province and city texts, the matched location and the candidates in priority order. */
  datatype AddressMatch = AddressMatch(province: string, city: string, matchedLocation: Option<Location>,
                                       candidateLocations: seq<Location>)

  /** The result for a blank address or one nothing matches. */
  const NoMatch := AddressMatch("", "", None, [])

  /** The containment test of the ranked stage, against the lower-cased input. */
  function ContainmentTest(input: string): Location -> bool {
    (l: Location) => Overlaps(input, ToLower(l.name))
  }

  function NameIs(name: string): Location -> bool {
    (l: Location) => l.name == name
  }

  function IdIs(id: string): Location -> bool {
    (l: Location) => l.id == id
  }

  /**
   * After a city-level best match, the location named as its province is
   * appended, when the table knows the province, a location has that name and
   * no candidate already has that location's id.
   */
  function WithParentProvince(ranked: seq<Location>, locations: seq<Location>, table: map<string, string>): (r: seq<Location>)
    requires ranked != []
  {
    var best := ranked[0];
    if !IsCityLevel(best.name) then ranked
    else match ProvinceIn(table, best.name)
      case None => ranked
      case Some(p) =>
        match Find(locations, NameIs(p))
        case None => ranked
        case Some(pm) => if Find(ranked, IdIs(pm.id)).Some? then ranked else ranked + [pm]
  }

  /** The parent province is appended at most once, at the end, and only under all four conditions. */
  lemma ParentProvinceAppended(ranked: seq<Location>, locations: seq<Location>, table: map<string, string>)
    requires ranked != []
    ensures var r := WithParentProvince(ranked, locations, table);
            r == ranked || (|r| == |ranked| + 1 && r[..|ranked|] == ranked)
    ensures var r := WithParentProvince(ranked, locations, table);
            |r| == |ranked| + 1 <==>
              IsCityLevel(ranked[0].name) && ProvinceIn(table, ranked[0].name).Some?
              && (exists l :: l in locations && l.name == ProvinceIn(table, ranked[0].name).value)
              && forall m :: m in ranked ==> m.id != r[|r| - 1].id
  {
    var r := WithParentProvince(ranked, locations, table);
    if |r| == |ranked| + 1 {
      assert r[..|ranked|] == ranked;
    } else if IsCityLevel(ranked[0].name) && ProvinceIn(table, ranked[0].name).Some? {
      var p := ProvinceIn(table, ranked[0].name).value;
      var pm := Find(locations, NameIs(p));
      if pm.Some? {
        var dup := Find(ranked, IdIs(pm.value.id));
        assert dup.Some? && dup.value in ranked;
      }
    }
  }

  /** The separators of the token fallback: ，,。. and white space. */
  predicate IsAddressSeparator(c: char) {
    c == '，' || c == ',' || c == '。' || c == '.' || IsSpace(c)
  }

  /** A token of the split has no white space at its ends, so trimming leaves it whole and non-blank. */
  lemma WordTrimmed(w: string)
    requires w != "" && forall i :: 0 <= i < |w| ==> !IsAddressSeparator(w[i])
    ensures Trim(w) == w != ""
  {
    TrimOfTrimmed(w);
  }

  /** The test of the token fallback for one token, at city level or at province level. */
  function TokenTest(part: string, cityLevel: bool): Location -> bool {
    (l: Location) =>
      var ln := ToLower(l.name);
      ln == part || (Overlaps(ln, part) && if cityLevel then IsCityLevel(l.name) else IsProvinceLevel(l.name))
  }

  /** The token a test is tried with: trimmed and lower-cased. */
  function TokenKey(part: string): string {
    ToLower(Trim(part))
  }

  /** The loop body of the token fallback: a blank token is skipped, otherwise the first location passing the test. */
  function TokenHit(locations: seq<Location>, cityLevel: bool): string -> Option<Location> {
    (part: string) => if Trim(part) == "" then None else Find(locations, TokenTest(TokenKey(part), cityLevel))
  }

  /** The first non-blank token some location passes the test for, and the first such location. */
  function FirstTokenMatch(tokens: seq<string>, locations: seq<Location>, cityLevel: bool): Option<Location> {
    FirstHit(tokens, TokenHit(locations, cityLevel))
  }

  /**
   * A token match is a location of the list passing the test for a non-blank
   * token, and no location passes it for an earlier one; no match means no
   * location passes it for any token.
   */
  lemma FirstTokenMatchFirst(tokens: seq<string>, locations: seq<Location>, cityLevel: bool)
    ensures var r := FirstTokenMatch(tokens, locations, cityLevel);
            r.Some? ==> r.value in locations
                        && (exists k :: 0 <= k < |tokens| && Trim(tokens[k]) != "" && TokenTest(TokenKey(tokens[k]), cityLevel)(r.value)
                              && forall j, l :: 0 <= j < k && Trim(tokens[j]) != "" && l in locations ==> !TokenTest(TokenKey(tokens[j]), cityLevel)(l))
    ensures FirstTokenMatch(tokens, locations, cityLevel).None? ==>
              forall k, l :: 0 <= k < |tokens| && Trim(tokens[k]) != "" && l in locations ==> !TokenTest(TokenKey(tokens[k]), cityLevel)(l)
  {
    var f := TokenHit(locations, cityLevel);
    FirstHitFirst(tokens, f);
    var r := FirstTokenMatch(tokens, locations, cityLevel);
    if r.Some? {
      var k :| 0 <= k < |tokens| && f(tokens[k]) == r && forall j :: 0 <= j < k ==> f(tokens[j]).None?;
      TokenHitSound(tokens[k], locations, cityLevel);
      forall j, l | 0 <= j < k && Trim(tokens[j]) != "" && l in locations
        ensures !TokenTest(TokenKey(tokens[j]), cityLevel)(l)
      {
        TokenHitSound(tokens[j], locations, cityLevel);
      }
    } else {
      forall k, l | 0 <= k < |tokens| && Trim(tokens[k]) != "" && l in locations
        ensures !TokenTest(TokenKey(tokens[k]), cityLevel)(l)
      {
        TokenHitSound(tokens[k], locations, cityLevel);
      }
    }
  }

  /** One step of the token loop: a hit is a location passing the test for a non-blank token, a miss on a non-blank token means none passes. */
  lemma TokenHitSound(part: string, locations: seq<Location>, cityLevel: bool)
    ensures var h := TokenHit(locations, cityLevel)(part);
            (h.Some? ==> Trim(part) != "" && h.value in locations && TokenTest(TokenKey(part), cityLevel)(h.value))
            && (h.None? && Trim(part) != "" ==> forall l :: l in locations ==> !TokenTest(TokenKey(part), cityLevel)(l))
  {
  }

  /** The location the table names as the province of a city, when there is one. */
  function ParentOf(city: Location, locations: seq<Location>, table: map<string, string>): (r: seq<Location>)
    ensures |r| <= 1
  {
    match ProvinceIn(table, city.name)
    case None => []
    case Some(p) =>
      match Find(locations, NameIs(p))
      case None => []
      case Some(pm) => [pm]
  }

  /** Stage 3: the address split into tokens; city-level matches first, province-level ones only without them. */
  function TokenFallback(input: string, locations: seq<Location>, table: map<string, string>): AddressMatch {
    var tokens := Words(input, IsAddressSeparator);
    match FirstTokenMatch(tokens, locations, true)
    case Some(c) => AddressMatch(c.name, c.name, Some(c), [c] + ParentOf(c, locations, table))
    case None =>
      match FirstTokenMatch(tokens, locations, false)
      case Some(p) => AddressMatch(p.name, p.name, Some(p), [p])
      case None => NoMatch
  }

  /** `parseAddressWithLocations`: an exact match, else the ranked containment matches, else the token fallback. */
  function AddressMatchOf(address: string, locations: seq<Location>, table: map<string, string>): AddressMatch {
    if Trim(address) == "" then NoMatch
    else
      var input := Trim(address);
      match Find(locations, ExactTest(ToLower(input)))
      case Some(e) => AddressMatch(e.name, e.name, Some(e), [e])
      case None =>
        var ranked := SortByRank(Filter(locations, ContainmentTest(ToLower(input))));
        if ranked != [] then RankedMatch(ranked, locations, table) else TokenFallback(input, locations, table)
  }

  /** Stage 2: the best of the ranked candidates is the match. */
  function RankedMatch(ranked: seq<Location>, locations: seq<Location>, table: map<string, string>): AddressMatch
    requires ranked != []
  {
    AddressMatch(ranked[0].name, ranked[0].name, Some(ranked[0]), WithParentProvince(ranked, locations, table))
  }

  /**
   * The shape every result has: a match is reported exactly when there are
   * candidates, the match heads them, province and city both carry its name,
   * no match is the empty result, and every candidate is one of the locations.
   */
  predicate WellShaped(r: AddressMatch, locations: seq<Location>) {
    (r.matchedLocation.Some? <==> r.candidateLocations != [])
    && (r.matchedLocation.Some? ==>
          r.candidateLocations[0] == r.matchedLocation.value
          && r.province == r.matchedLocation.value.name && r.city == r.province)
    && (r.matchedLocation.None? ==> r == NoMatch)
    && forall m :: m in r.candidateLocations ==> m in locations
  }

  /** Every location the province lookup yields is one of the locations. */
  lemma ParentOfIn(city: Location, locations: seq<Location>, table: map<string, string>)
    ensures forall m :: m in ParentOf(city, locations, table) ==> m in locations
  {
    var p := ProvinceIn(table, city.name);
    if p.Some? {
      var pm := Find(locations, NameIs(p.value));
    }
  }

  /** The stage-2 candidate list only adds a location of the list. */
  lemma WithParentProvinceIn(ranked: seq<Location>, locations: seq<Location>, table: map<string, string>)
    requires ranked != []
    ensures forall m :: m in WithParentProvince(ranked, locations, table) ==> m in ranked || m in locations
  {
    var best := ranked[0];
    if IsCityLevel(best.name) && ProvinceIn(table, best.name).Some? {
      var pm := Find(locations, NameIs(ProvinceIn(table, best.name).value));
    }
  }

  lemma RankedMatchShape(ranked: seq<Location>, locations: seq<Location>, table: map<string, string>)
    requires ranked != [] && forall m :: m in ranked ==> m in locations
    ensures WellShaped(RankedMatch(ranked, locations, table), locations)
  {
    WithParentProvinceIn(ranked, locations, table);
    ParentProvinceAppended(ranked, locations, table);
  }

  lemma TokenFallbackShape(input: string, locations: seq<Location>, table: map<string, string>)
    ensures WellShaped(TokenFallback(input, locations, table), locations)
  {
    var tokens := Words(input, IsAddressSeparator);
    FirstTokenMatchFirst(tokens, locations, true);
    FirstTokenMatchFirst(tokens, locations, false);
    var c := FirstTokenMatch(tokens, locations, true);
    if c.Some? {
      ParentOfIn(c.value, locations, table);
    }
  }

  /** Whatever the stage, the result is well shaped. */
  lemma AddressMatchShape(address: string, locations: seq<Location>, table: map<string, string>)
    ensures WellShaped(AddressMatchOf(address, locations, table), locations)
  {
    if Trim(address) != "" {
      var input := ToLower(Trim(address));
      if Find(locations, ExactTest(input)).None? {
        var matches := Filter(locations, ContainmentTest(input));
        var ranked := SortByRank(matches);
        if ranked != [] {
          assert AddressMatchOf(address, locations, table) == RankedMatch(ranked, locations, table);
          assert forall m :: m in ranked ==> m in locations by {
            SortByRankIn(matches);
          }
          RankedMatchShape(ranked, locations, table);
        } else {
          assert AddressMatchOf(address, locations, table) == TokenFallback(Trim(address), locations, table);
          TokenFallbackShape(Trim(address), locations, table);
        }
      }
    }
  }

  /** The sorted list holds only elements of the unsorted one. */
  lemma SortByRankIn(s: seq<Location>)
    ensures forall m :: m in SortByRank(s) ==> m in s
  {
    SortByRankRanked(s);
    assert forall m :: m in SortByRank(s) ==> m in multiset(s);
  }

  /** Stage 1: a location whose lower-cased name is the whole trimmed address wins alone, the first such one. */
  lemma AddressMatchExactFirst(address: string, locations: seq<Location>, k: nat, table: map<string, string>)
    requires Trim(address) != "" && k < |locations|
    requires ToLower(locations[k].name) == ToLower(Trim(address))
    requires forall j :: 0 <= j < k ==> ToLower(locations[j].name) != ToLower(Trim(address))
    ensures AddressMatchOf(address, locations, table)
            == AddressMatch(locations[k].name, locations[k].name, Some(locations[k]), [locations[k]])
  {
    FindFirst(locations, ExactTest(ToLower(Trim(address))), k);
  }

  /**
   * The stage-2 candidates start with the containment matches, ranked, as a
   * permutation and keeping the order within each rank; at most the parent
   * province follows, and the best of them is the match.
   */
  lemma RankedMatchOrder(matches: seq<Location>, locations: seq<Location>, x: Location, table: map<string, string>)
    requires matches != []
    ensures var r := RankedMatch(SortByRank(matches), locations, table);
            var n := |matches|;
            n <= |r.candidateLocations| <= n + 1
            && multiset(r.candidateLocations[..n]) == multiset(matches)
            && Ranked(r.candidateLocations[..n])
            && Filter(r.candidateLocations[..n], SameRankAs(x)) == Filter(matches, SameRankAs(x))
            && r.matchedLocation == Some(r.candidateLocations[0])
  {
    var ranked := SortByRank(matches);
    SortByRankRanked(matches);
    SortByRankStable(matches, x);
    ParentProvinceAppended(ranked, locations, table);
    assert ranked[..|ranked|] == ranked;
  }

  /** Stage 2 is reached when nothing matches the whole address and some location's name and the address overlap. */
  lemma AddressMatchRanked(address: string, locations: seq<Location>, table: map<string, string>)
    requires Trim(address) != ""
    requires forall l :: l in locations ==> ToLower(l.name) != ToLower(Trim(address))
    requires exists l :: l in locations && Overlaps(ToLower(Trim(address)), ToLower(l.name))
    ensures var matches := Filter(locations, ContainmentTest(ToLower(Trim(address))));
            matches != [] && AddressMatchOf(address, locations, table) == RankedMatch(SortByRank(matches), locations, table)
  {
    var input := ToLower(Trim(address));
    FindNone(locations, ExactTest(input));
    var l :| l in locations && Overlaps(input, ToLower(l.name));
    assert l in Filter(locations, ContainmentTest(input));
  }

  /** No location passes the token test of one level for any of the tokens. */
  predicate NoTokenPassesAt(tokens: seq<string>, locations: seq<Location>, cityLevel: bool) {
    forall k, l :: 0 <= k < |tokens| && l in locations ==> !TokenTest(TokenKey(tokens[k]), cityLevel)(l)
  }

  /** No location passes the token test of either level for any of the tokens. */
  predicate NoTokenPasses(tokens: seq<string>, locations: seq<Location>) {
    NoTokenPassesAt(tokens, locations, true) && NoTokenPassesAt(tokens, locations, false)
  }

  /** No token match at one level exactly when no location passes that level's test for any token. */
  lemma FirstTokenMatchNone(tokens: seq<string>, locations: seq<Location>, cityLevel: bool)
    requires forall k :: 0 <= k < |tokens| ==> Trim(tokens[k]) != ""
    ensures FirstTokenMatch(tokens, locations, cityLevel).None? <==> NoTokenPassesAt(tokens, locations, cityLevel)
  {
    FirstTokenMatchFirst(tokens, locations, cityLevel);
  }

  /** The token fallback matches at city level first and at province level only without a city-level match. */
  lemma TokenFallbackMatched(input: string, locations: seq<Location>, table: map<string, string>)
    ensures var tokens := Words(input, IsAddressSeparator);
            var c := FirstTokenMatch(tokens, locations, true);
            TokenFallback(input, locations, table).matchedLocation
            == if c.Some? then c else FirstTokenMatch(tokens, locations, false)
  {
  }

  /** The token fallback matches nothing exactly when no location passes a token test for any token. */
  lemma TokenFallbackNone(input: string, locations: seq<Location>, table: map<string, string>)
    ensures TokenFallback(input, locations, table).matchedLocation.None? <==>
              NoTokenPasses(Words(input, IsAddressSeparator), locations)
  {
    var tokens := Words(input, IsAddressSeparator);
    assert forall k :: 0 <= k < |tokens| ==> Trim(tokens[k]) != "" by {
      forall k | 0 <= k < |tokens|
        ensures Trim(tokens[k]) != ""
      {
        WordTrimmed(tokens[k]);
      }
    }
    TokenFallbackMatched(input, locations, table);
    FirstTokenMatchNone(tokens, locations, true);
    FirstTokenMatchNone(tokens, locations, false);
  }

  /** No location's lower-cased name and the input overlap. */
  predicate NoOverlap(input: string, locations: seq<Location>) {
    forall l :: l in locations ==> !Overlaps(input, ToLower(l.name))
  }

  /** Without any overlap the first two stages find nothing and the token fallback decides. */
  lemma NoOverlapFallsBack(address: string, locations: seq<Location>, table: map<string, string>)
    requires Trim(address) != "" && NoOverlap(ToLower(Trim(address)), locations)
    ensures AddressMatchOf(address, locations, table) == TokenFallback(Trim(address), locations, table)
  {
    var input := ToLower(Trim(address));
    FindNone(locations, ExactTest(input));
    FilterNone(locations, ContainmentTest(input));
  }

  /** With an overlap, the first or the second stage matches. */
  lemma OverlapMatches(address: string, locations: seq<Location>, table: map<string, string>)
    requires Trim(address) != "" && !NoOverlap(ToLower(Trim(address)), locations)
    ensures AddressMatchOf(address, locations, table).matchedLocation.Some?
  {
    var input := ToLower(Trim(address));
    if Find(locations, ExactTest(input)).None? {
      var l :| l in locations && Overlaps(input, ToLower(l.name));
      assert l in Filter(locations, ContainmentTest(input));
    }
  }

  /**
   * Nothing is matched exactly when the address is blank, or no location's
   * name and the address overlap and no location passes either token test for
   * any of its tokens.
   */
  lemma AddressMatchNone(address: string, locations: seq<Location>, table: map<string, string>)
    ensures AddressMatchOf(address, locations, table).matchedLocation.None? <==>
              Trim(address) == ""
              || (NoOverlap(ToLower(Trim(address)), locations)
                  && NoTokenPasses(Words(Trim(address), IsAddressSeparator), locations))
  {
    if Trim(address) != "" {
      if NoOverlap(ToLower(Trim(address)), locations) {
        NoOverlapFallsBack(address, locations, table);
        TokenFallbackNone(Trim(address), locations, table);
      } else {
        OverlapMatches(address, locations, table);
      }
    }
  }

  // Finding: the token fallback lists a municipality twice.

  /** An ideograph is not an address separator. */
  lemma HanIsNotSeparator(c: char)
    requires IsHan(c)
    ensures !IsAddressSeparator(c)
  {
    HanIsNotSpace(c);
  }

  /** The example address: two names of ideographs around a space, which trimming leaves alone. */
  lemma TwoNameAddressTrimmed(a: string, b: string)
    requires HanEnds(a) && HanEnds(b)
    ensures Trim(a + " " + b) == a + " " + b
  {
    var s := a + " " + b;
    assert s[0] == a[0] && s[|s| - 1] == b[|b| - 1];
    HanEndsTrimmed(s);
  }

  /** The example address splits into its two names. */
  lemma TwoNameAddressWords(a: string, b: string)
    requires HanEnds(a) && HanEnds(b) && |a| == 2 && |b| == 2
    ensures Words(a + " " + b, IsAddressSeparator) == [a, b]
  {
    HanIsNotSeparator(a[0]);
    HanIsNotSeparator(a[1]);
    HanIsNotSeparator(b[0]);
    HanIsNotSeparator(b[1]);
    assert a + " " + b == a + [' '] + b;
    WordsOfTwo(a, ' ', b, IsAddressSeparator);
  }

  /** A token of ideographs that a location's name starts with, at city level, matches that location first. */
  lemma CityTokenMatches(token: string, rest: seq<string>, l: Location)
    requires HanEnds(token) && |token| == 2 && IsCityLevel(l.name) && OccursAt(l.name, token, 0)
    requires forall i :: 0 <= i < |l.name| ==> !('A' <= l.name[i] <= 'Z')
    ensures FirstTokenMatch([token] + rest, [l], true) == Some(l)
  {
    HanEndsTrimmed(token);
    assert !('A' <= token[0] <= 'Z') && !('A' <= token[1] <= 'Z');
    ToLowerKeeps(token);
    ToLowerKeeps(l.name);
    IncludesAt(l.name, token, 0);
    FindFirst([l], TokenTest(TokenKey(token), true), 0);
  }

  /**
   * An address of two names of ideographs around a space overlaps no
   * location whose name has a character the address lacks, so the token
   * fallback decides.
   */
  lemma TwoNamesFallBack(a: string, b: string, l: Location, c: char, table: map<string, string>)
    requires HanEnds(a) && HanEnds(b)
    requires forall i :: 0 <= i < |a + " " + b| ==> !('A' <= (a + " " + b)[i] <= 'Z')
    requires forall i :: 0 <= i < |l.name| ==> !('A' <= l.name[i] <= 'Z')
    requires c in l.name && c !in a + " " + b && ' ' !in l.name
    ensures Trim(a + " " + b) == a + " " + b && NoOverlap(ToLower(a + " " + b), [l])
    ensures AddressMatchOf(a + " " + b, [l], table) == TokenFallback(a + " " + b, [l], table)
  {
    var address := a + " " + b;
    assert ToLower(Trim(address)) == address by {
      TwoNameAddressTrimmed(a, b);
      ToLowerKeeps(address);
    }
    assert ToLower(l.name) == l.name by {
      ToLowerKeeps(l.name);
    }
    assert !Includes(address, l.name) by {
      IncludesCharOf(address, l.name, c);
    }
    assert !Includes(l.name, address) by {
      assert address[|a|] == ' ';
      IncludesCharOf(l.name, address, ' ');
    }
    NoOverlapFallsBack(address, [l], table);
  }

  /**
   * A city-level location that is its own province's location, named by the
   * first of two tokens of an address no location overlaps whole, is listed
   * twice.
   */
  lemma OwnProvinceRepeated(a: string, b: string, l: Location, c: char, table: map<string, string>)
    requires HanEnds(a) && HanEnds(b) && |a| == 2 && |b| == 2
    requires forall i :: 0 <= i < |a + " " + b| ==> !('A' <= (a + " " + b)[i] <= 'Z')
    requires forall i :: 0 <= i < |l.name| ==> !('A' <= l.name[i] <= 'Z')
    requires c in l.name && c !in a + " " + b && ' ' !in l.name
    requires IsCityLevel(l.name) && OccursAt(l.name, a, 0)
    requires ParentOf(l, [l], table) == [l]
    ensures AddressMatchOf(a + " " + b, [l], table).candidateLocations == [l, l]
  {
    var address := a + " " + b;
    calc {
      AddressMatchOf(address, [l], table).candidateLocations;
      { TwoNamesFallBack(a, b, l, c, table); }
      TokenFallback(address, [l], table).candidateLocations;
      { FirstTokenOfTwo(a, b, l); TokenFallbackCityCandidates(address, [l], l, table); }
      [l] + ParentOf(l, [l], table);
    }
  }

  /** The first of two tokens matches a city-level location its name starts with. */
  lemma FirstTokenOfTwo(a: string, b: string, l: Location)
    requires HanEnds(a) && HanEnds(b) && |a| == 2 && |b| == 2
    requires IsCityLevel(l.name) && OccursAt(l.name, a, 0) && forall i :: 0 <= i < |l.name| ==> !('A' <= l.name[i] <= 'Z')
    ensures FirstTokenMatch(Words(a + " " + b, IsAddressSeparator), [l], true) == Some(l)
  {
    var tokens := Words(a + " " + b, IsAddressSeparator);
    assert tokens == [a] + [b] by {
      TwoNameAddressWords(a, b);
    }
    CityTokenMatches(a, [b], l);
  }

  /** A city-level token match is followed by the location of its province. */
  lemma TokenFallbackCityCandidates(input: string, locations: seq<Location>, c: Location, table: map<string, string>)
    requires FirstTokenMatch(Words(input, IsAddressSeparator), locations, true) == Some(c)
    ensures TokenFallback(input, locations, table).candidateLocations == [c] + ParentOf(c, locations, table)
  {
  }

  /** A location named 北京市 is its own province's location. */
  lemma MunicipalityParent(bj: Location)
    requires bj.name == "北京市"
    ensures ParentOf(bj, [bj], CityProvinceMap()) == [bj]
  {
    MunicipalityIsItsOwnProvince();
    FindFirst([bj], NameIs("北京市"), 0);
  }

  /** The example: the address 北京 朝阳 against one location named 北京市 that the table lists as its own province. */
  lemma BeijingAddressRepeats(table: map<string, string>)
    requires ParentOf(Location("bj", "北京市", []), [Location("bj", "北京市", [])], table) == [Location("bj", "北京市", [])]
    ensures var bj := Location("bj", "北京市", []);
            AddressMatchOf("北京 朝阳", [bj], table).candidateLocations == [bj, bj]
  {
    var bj := Location("bj", "北京市", []);
    assert "北京" + " " + "朝阳" == "北京 朝阳";
    assert bj.name[2] == '市';
    assert bj.name[..2] == "北京";
    OwnProvinceRepeated("北京", "朝阳", bj, '市', table);
  }

  /** The table names 北京市 as its own province, so the token naming it is followed by the same location again. */
  lemma TokenFallbackRepeatsMunicipality()
    ensures var bj := Location("bj", "北京市", []);
            AddressMatchOf("北京 朝阳", [bj], CityProvinceMap()).candidateLocations == [bj, bj]
  {
    MunicipalityParent(Location("bj", "北京市", []));
    BeijingAddressRepeats(CityProvinceMap());
  }

  /** The province location pushed after a city-level token match, skipped when it is the matched location itself (same id). */
  function ParentOfChecked(city: Location, locations: seq<Location>, table: map<string, string>): (r: seq<Location>)
    ensures |r| <= 1 && forall m :: m in r ==> m.id != city.id
  {
    var p := ParentOf(city, locations, table);
    if p != [] && p[0].id == city.id then [] else p
  }

  /** Stage 3 with the id check stage 2 already makes: the candidate list never repeats a location. */
  function TokenFallbackChecked(input: string, locations: seq<Location>, table: map<string, string>): AddressMatch {
    var tokens := Words(input, IsAddressSeparator);
    match FirstTokenMatch(tokens, locations, true)
    case Some(c) => AddressMatch(c.name, c.name, Some(c), [c] + ParentOfChecked(c, locations, table))
    case None => TokenFallback(input, locations, table)
  }

  /**
   * The corrected stage 3 matches what the original matches and reports the
   * same names, and no two of its candidates share an id.
   */
  lemma TokenFallbackCheckedDistinct(input: string, locations: seq<Location>, table: map<string, string>)
    ensures var r := TokenFallbackChecked(input, locations, table);
            DistinctIds(r.candidateLocations)
            && r.matchedLocation == TokenFallback(input, locations, table).matchedLocation
            && r.province == TokenFallback(input, locations, table).province
            && r.city == TokenFallback(input, locations, table).city
  {
    var tokens := Words(input, IsAddressSeparator);
    var c := FirstTokenMatch(tokens, locations, true);
    var cs := TokenFallbackChecked(input, locations, table).candidateLocations;
    if c.Some? {
      var p := ParentOfChecked(c.value, locations, table);
      assert cs == [c.value] + p by {
        CheckedCityCandidates(input, locations, c.value, table);
      }
      DistinctIdsAfter(c.value, p);
    } else {
      var q := FirstTokenMatch(tokens, locations, false);
      assert cs == if q.Some? then [q.value] else [];
      DistinctIdsShort(cs);
    }
  }

  /** No two locations of the list share an id. */
  predicate DistinctIds(cs: seq<Location>) {
    forall i, j :: 0 <= i < j < |cs| ==> cs[i].id != cs[j].id
  }

  lemma DistinctIdsShort(cs: seq<Location>)
    requires |cs| <= 1
    ensures DistinctIds(cs)
  {
  }

  /** A location followed by at most one location of another id. */
  lemma DistinctIdsAfter(a: Location, p: seq<Location>)
    requires |p| <= 1 && forall m :: m in p ==> m.id != a.id
    ensures DistinctIds([a] + p)
  {
    if p != [] {
      assert p[0] in p;
    }
  }

  /** `parseAddressWithLocations` with the corrected stage 3. */
  function AddressMatchOfChecked(address: string, locations: seq<Location>, table: map<string, string>): AddressMatch {
    if Trim(address) == "" then NoMatch
    else
      var input := Trim(address);
      match Find(locations, ExactTest(ToLower(input)))
      case Some(e) => AddressMatch(e.name, e.name, Some(e), [e])
      case None =>
        var ranked := SortByRank(Filter(locations, ContainmentTest(ToLower(input))));
        if ranked != [] then RankedMatch(ranked, locations, table) else TokenFallbackChecked(input, locations, table)
  }

  /** Without any overlap the corrected parse also falls back to its token stage. */
  lemma CheckedFallsBack(address: string, locations: seq<Location>, table: map<string, string>)
    requires Trim(address) != "" && NoOverlap(ToLower(Trim(address)), locations)
    ensures AddressMatchOfChecked(address, locations, table) == TokenFallbackChecked(Trim(address), locations, table)
  {
    var input := ToLower(Trim(address));
    FindNone(locations, ExactTest(input));
    FilterNone(locations, ContainmentTest(input));
  }

  /** Where the original lists a location that is its own province twice, the corrected parse lists it once. */
  lemma OwnProvinceOnceChecked(a: string, b: string, l: Location, c: char, table: map<string, string>)
    requires HanEnds(a) && HanEnds(b) && |a| == 2 && |b| == 2
    requires forall i :: 0 <= i < |a + " " + b| ==> !('A' <= (a + " " + b)[i] <= 'Z')
    requires forall i :: 0 <= i < |l.name| ==> !('A' <= l.name[i] <= 'Z')
    requires c in l.name && c !in a + " " + b && ' ' !in l.name
    requires IsCityLevel(l.name) && OccursAt(l.name, a, 0)
    requires ParentOf(l, [l], table) == [l]
    ensures AddressMatchOfChecked(a + " " + b, [l], table).candidateLocations == [l]
  {
    var address := a + " " + b;
    calc {
      AddressMatchOfChecked(address, [l], table).candidateLocations;
      { TwoNamesFallBack(a, b, l, c, table); CheckedFallsBack(address, [l], table); }
      TokenFallbackChecked(address, [l], table).candidateLocations;
      { FirstTokenOfTwo(a, b, l); CheckedCityCandidates(address, [l], l, table); }
      [l] + ParentOfChecked(l, [l], table);
    }
  }

  /** A city-level token match is followed by its province's location only when that is another location. */
  lemma CheckedCityCandidates(input: string, locations: seq<Location>, c: Location, table: map<string, string>)
    requires FirstTokenMatch(Words(input, IsAddressSeparator), locations, true) == Some(c)
    ensures TokenFallbackChecked(input, locations, table).candidateLocations == [c] + ParentOfChecked(c, locations, table)
  {
  }

  /** On the example the corrected parse lists 北京市 once. */
  lemma BeijingAddressOnceChecked(table: map<string, string>)
    requires ParentOf(Location("bj", "北京市", []), [Location("bj", "北京市", [])], table) == [Location("bj", "北京市", [])]
    ensures var bj := Location("bj", "北京市", []);
            AddressMatchOfChecked("北京 朝阳", [bj], table).candidateLocations == [bj]
  {
    var bj := Location("bj", "北京市", []);
    assert "北京" + " " + "朝阳" == "北京 朝阳";
    assert bj.name[2] == '市';
    assert bj.name[..2] == "北京";
    OwnProvinceOnceChecked("北京", "朝阳", bj, '市', table);
  }

  /** With the source's table the corrected parse lists 北京市 once. */
  lemma CheckedListsMunicipalityOnce()
    ensures var bj := Location("bj", "北京市", []);
            AddressMatchOfChecked("北京 朝阳", [bj], CityProvinceMap()).candidateLocations == [bj]
  {
    MunicipalityParent(Location("bj", "北京市", []));
    BeijingAddressOnceChecked(CityProvinceMap());
  }

  /** `parseAddressWithLocations`, with the candidate list and the token loops as the source builds them. */
  method ParseAddressWithLocations(address: string, locations: seq<Location>) returns (r: AddressMatch)
    ensures r == AddressMatchOf(address, locations, CityProvinceMap())
  {
    if Trim(address) == "" {
      return NoMatch;
    }
    var input := Trim(address);
    var exactMatch := Find(locations, ExactTest(ToLower(input)));
    if exactMatch.Some? {
      var e := exactMatch.value;
      return AddressMatch(e.name, e.name, Some(e), [e]);
    }
    var allMatches := SortByRank(Filter(locations, ContainmentTest(ToLower(input))));
    if |allMatches| > 0 {
      var bestMatch := allMatches[0];
      allMatches := AddParentProvince(allMatches, locations, CityProvinceMap());
      return AddressMatch(bestMatch.name, bestMatch.name, Some(bestMatch), allMatches);
    }

    r := TokenFallbackLoops(input, locations, CityProvinceMap());
  }

  /** Stage 2 of `parseAddressWithLocations`: the province of a city-level best match is pushed unless already a candidate. */
  method AddParentProvince(allMatches: seq<Location>, locations: seq<Location>, table: map<string, string>) returns (r: seq<Location>)
    requires allMatches != []
    ensures r == WithParentProvince(allMatches, locations, table)
  {
    r := allMatches;
    var bestMatch := allMatches[0];
    if IsCityLevel(bestMatch.name) {
      var provinceName := ProvinceIn(table, bestMatch.name);
      if provinceName.Some? {
        var provinceMatch := Find(locations, NameIs(provinceName.value));
        if provinceMatch.Some? && Find(allMatches, IdIs(provinceMatch.value.id)).None? {
          r := r + [provinceMatch.value];
        }
      }
    }
  }

  /** Stage 3 of `parseAddressWithLocations`: the city-level token loop, then the province-level one. */
  method TokenFallbackLoops(input: string, locations: seq<Location>, table: map<string, string>) returns (r: AddressMatch)
    ensures r == TokenFallback(input, locations, table)
  {
    var addressParts := Words(input, IsAddressSeparator);
    var matchedCity, matchedLocation, candidateLocations := CityTokenLoop(addressParts, locations, table);
    var matchedProvince := "";
    if matchedLocation.None? {
      matchedProvince, matchedLocation, candidateLocations := ProvinceTokenLoop(addressParts, locations);
    }
    return AddressMatch(Or(matchedProvince, matchedCity), Or(matchedCity, matchedProvince), matchedLocation, candidateLocations);
  }

  /** The city-level loop of stage 3: the first token matched at city level, followed by its province's location. */
  method CityTokenLoop(addressParts: seq<string>, locations: seq<Location>, table: map<string, string>)
    returns (matchedCity: string, matchedLocation: Option<Location>, candidateLocations: seq<Location>)
    ensures matchedLocation == FirstTokenMatch(addressParts, locations, true)
    ensures matchedLocation.Some? ==> matchedCity == matchedLocation.value.name
                                      && candidateLocations == [matchedLocation.value] + ParentOf(matchedLocation.value, locations, table)
    ensures matchedLocation.None? ==> matchedCity == "" && candidateLocations == []
  {
    matchedCity, matchedLocation, candidateLocations := "", None, [];
    var i := 0;
    while i < |addressParts|
      invariant 0 <= i <= |addressParts|
      invariant FirstHit(addressParts[i..], TokenHit(locations, true)) == FirstTokenMatch(addressParts, locations, true)
    {
      assert addressParts[i..][1..] == addressParts[i + 1..];
      if Trim(addressParts[i]) != "" {
        var cityMatch := TokenHit(locations, true)(addressParts[i]);
        if cityMatch.Some? {
          matchedCity := cityMatch.value.name;
          matchedLocation := cityMatch;
          candidateLocations := PushProvinceOf([cityMatch.value], cityMatch.value, locations, table);
          return;
        }
      }
      i := i + 1;
    }
  }

  /** Pushes the location the table names as the city's province, when there is one. */
  method PushProvinceOf(candidates: seq<Location>, city: Location, locations: seq<Location>, table: map<string, string>) returns (r: seq<Location>)
    ensures r == candidates + ParentOf(city, locations, table)
  {
    r := candidates;
    var provinceName := ProvinceIn(table, city.name);
    if provinceName.Some? {
      var provinceMatch := Find(locations, NameIs(provinceName.value));
      if provinceMatch.Some? {
        r := r + [provinceMatch.value];
      }
    }
  }

  /** The province-level loop of stage 3: the first token matched at province level. */
  method ProvinceTokenLoop(addressParts: seq<string>, locations: seq<Location>)
    returns (matchedProvince: string, matchedLocation: Option<Location>, candidateLocations: seq<Location>)
    ensures matchedLocation == FirstTokenMatch(addressParts, locations, false)
    ensures matchedLocation.Some? ==> matchedProvince == matchedLocation.value.name && candidateLocations == [matchedLocation.value]
    ensures matchedLocation.None? ==> matchedProvince == "" && candidateLocations == []
  {
    matchedProvince, matchedLocation, candidateLocations := "", None, [];
    var k := 0;
    while k < |addressParts|
      invariant 0 <= k <= |addressParts|
      invariant FirstHit(addressParts[k..], TokenHit(locations, false)) == FirstTokenMatch(addressParts, locations, false)
    {
      assert addressParts[k..][1..] == addressParts[k + 1..];
      if Trim(addressParts[k]) != "" {
        var provinceMatch := TokenHit(locations, false)(addressParts[k]);
        if provinceMatch.Some? {
          matchedProvince := provinceMatch.value.name;
          matchedLocation := provinceMatch;
          candidateLocations := [provinceMatch.value];
          return;
        }
      }
      k := k + 1;
    }
  }
}
