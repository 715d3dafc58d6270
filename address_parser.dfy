/**
 * The free-text address parser: it cleans the text, finds a phone number, a
 * province and a city, takes a person's name from what is left, and formats
 * the result. The parse is written over a `Tables` value holding the province
 * list, the city keywords and the two city-to-province tables; `SourceTables`
 * holds the library's own, and `ParseAddress` uses them.
 */
module AddressParser {
  import opened Wrappers
  import opened JsString
  import opened JsArray
  import opened JsRegex
  import opened Types

  // ---------------------------------------------------------------- tables

  datatype Tables = Tables(provinces: seq<string>, keywords: seq<string>,
                           directCities: map<string, string>, cityProvinces: map<string, string>)

  /** The province names looked for in the text, in the order they are tried. */
  function Provinces(): seq<string> {
    ["北京市", "天津市", "河北省", "山西省", "内蒙古", "辽宁省", "吉林省", "黑龙江省",
     "上海市", "江苏省", "浙江省", "安徽省", "福建省", "江西省", "山东省", "河南省",
     "湖北省", "湖南省", "广东省", "广西", "海南省", "重庆市", "四川省", "贵州省",
     "云南省", "西藏", "陕西省", "甘肃省", "青海省", "宁夏", "新疆"]
  }

  /** The endings that mark a place name, in the order they are tried. */
  function CityKeywords(): seq<string> {
    ["市", "县", "区", "旗", "盟", "州", "省", "自治区", "特别行政区"]
  }

  /** The municipalities, looked up before any other city. */
  function DirectCities(): map<string, string> {
    map["北京" := "北京市", "上海" := "上海市", "天津" := "天津市", "重庆" := "重庆市"]
  }

  function ZhejiangCities(): map<string, string> {
    map[
        "杭州" := "浙江省", "宁波" := "浙江省", "温州" := "浙江省", "嘉兴" := "浙江省", "湖州" := "浙江省",
        "绍兴" := "浙江省", "金华" := "浙江省", "衢州" := "浙江省", "舟山" := "浙江省", "台州" := "浙江省",
        "丽水" := "浙江省", "义乌" := "浙江省", "东阳" := "浙江省", "永康" := "浙江省", "兰溪" := "浙江省",
        "富阳" := "浙江省", "临安" := "浙江省", "诸暨" := "浙江省", "上虞" := "浙江省", "嵊州" := "浙江省",
        "慈溪" := "浙江省", "余姚" := "浙江省", "海宁" := "浙江省", "桐乡" := "浙江省", "乐清" := "浙江省",
        "温岭" := "浙江省", "奉化" := "浙江省", "瑞安" := "浙江省"]
  }

  function JiangsuCities(): map<string, string> {
    map[
        "南京" := "江苏省", "苏州" := "江苏省", "无锡" := "江苏省", "常州" := "江苏省", "镇江" := "江苏省",
        "南通" := "江苏省", "泰州" := "江苏省", "扬州" := "江苏省", "盐城" := "江苏省", "连云港" := "江苏省",
        "徐州" := "江苏省", "淮安" := "江苏省", "宿迁" := "江苏省", "江阴" := "江苏省", "宜兴" := "江苏省",
        "新沂" := "江苏省", "邳州" := "江苏省", "溧阳" := "江苏省", "金坛" := "江苏省", "张家港" := "江苏省",
        "常熟" := "江苏省", "太仓" := "江苏省", "昆山" := "江苏省", "吴江" := "江苏省", "如皋" := "江苏省",
        "启东" := "江苏省", "海门" := "江苏省", "东台" := "江苏省", "大丰" := "江苏省", "高邮" := "江苏省",
        "仪征" := "江苏省", "丹阳" := "江苏省", "扬中" := "江苏省", "句容" := "江苏省", "泰兴" := "江苏省",
        "靖江" := "江苏省", "兴化" := "江苏省", "姜堰" := "江苏省", "高港" := "江苏省"]
  }

  function GuangdongCities(): map<string, string> {
    map[
        "广州" := "广东省", "深圳" := "广东省", "珠海" := "广东省", "汕头" := "广东省", "佛山" := "广东省",
        "韶关" := "广东省", "湛江" := "广东省", "肇庆" := "广东省", "江门" := "广东省", "茂名" := "广东省",
        "惠州" := "广东省", "梅州" := "广东省", "汕尾" := "广东省", "河源" := "广东省", "阳江" := "广东省",
        "清远" := "广东省", "东莞" := "广东省", "中山" := "广东省", "潮州" := "广东省", "揭阳" := "广东省",
        "云浮" := "广东省", "普宁" := "广东省", "化州" := "广东省", "信宜" := "广东省", "潮汕" := "广东省",
        "鹤山" := "广东省", "恩平" := "广东省", "台山" := "广东省", "开平" := "广东省", "陆丰" := "广东省",
        "雷州" := "广东省", "阳西" := "广东省", "阳春" := "广东省", "高州" := "广东省"]
  }

  function OtherCities(): map<string, string> {
    map[
        "成都" := "四川省", "重庆" := "重庆市", "西安" := "陕西省", "武汉" := "湖北省", "长沙" := "湖南省",
        "郑州" := "河南省", "济南" := "山东省", "青岛" := "山东省", "石家庄" := "河北省", "太原" := "山西省",
        "沈阳" := "辽宁省", "大连" := "辽宁省", "长春" := "吉林省", "哈尔滨" := "黑龙江", "合肥" := "安徽省",
        "福州" := "福建省", "厦门" := "福建省", "南昌" := "江西省", "南宁" := "广西省", "海口" := "海南省",
        "昆明" := "云南省", "贵阳" := "贵州省", "兰州" := "甘肃省", "西宁" := "青海省", "银川" := "宁夏",
        "乌鲁木齐" := "新疆", "拉萨" := "西藏", "呼和浩特" := "内蒙古", "包头" := "内蒙古"]
  }

  /** Bare city names (without any suffix) mapped to their province, in the source's four groups. */
  function CityProvinces(): map<string, string> {
    ZhejiangCities() + JiangsuCities() + GuangdongCities() + OtherCities()
  }

  function SourceTables(): Tables {
    Tables(Provinces(), CityKeywords(), DirectCities(), CityProvinces())
  }

  // ------------------------------------------------------ province inference

  /** `inferProvinceFromCity` over the given tables: the municipality table first, then the city table, else "". */
  function InferIn(t: Tables, city: string): string {
    if city in t.directCities && t.directCities[city] != "" then t.directCities[city]
    else if city in t.cityProvinces then t.cityProvinces[city]
    else ""
  }

  function InferProvinceFromCity(city: string): string {
    InferIn(SourceTables(), city)
  }

  /**
   * The lookup in general: a name in neither table gives "", a non-empty
   * result is a province one of the tables holds, and the municipality
   * table decides whenever it has a non-empty entry for the name.
   */
  lemma InferInKnown(t: Tables, city: string)
    ensures city !in t.directCities && city !in t.cityProvinces ==> InferIn(t, city) == ""
    ensures InferIn(t, city) != "" ==> InferIn(t, city) in t.directCities.Values || InferIn(t, city) in t.cityProvinces.Values
    ensures city in t.directCities && t.directCities[city] != "" ==> InferIn(t, city) == t.directCities[city]
    ensures (city !in t.directCities || t.directCities[city] == "") && city in t.cityProvinces ==>
              InferIn(t, city) == t.cityProvinces[city]
  {
  }

  /** A municipality resolves through the first table, even where the second one also lists it. */
  lemma InferMunicipalityFirst()
    ensures InferProvinceFromCity("北京") == "北京市"
    ensures InferProvinceFromCity("重庆") == "重庆市"
  {
    assert DirectCities()["北京"] == "北京市";
  }

  /** Other cities resolve through the second table, by their bare names. */
  lemma InferBareName()
    ensures InferProvinceFromCity("包头") == "内蒙古"
  {
    assert OtherCities()["包头"] == "内蒙古";
  }

  /** The same city with its keyword attached is not found. */
  lemma InferSuffixedName()
    ensures InferProvinceFromCity("包头市") == ""
  {
    SuffixedNameUnknown("包头市");
  }

  /** The characters the keywords end in. */
  function KeywordEnds(): string {
    "市县区旗盟州省"
  }

  lemma KeywordsEndInKeywordEnds()
    ensures forall kw :: kw in CityKeywords() ==> kw != "" && kw[|kw| - 1] in KeywordEnds()
  {
  }

  /** A name of at least three characters ending in a keyword character. */
  predicate Suffixed(city: string) {
    |city| >= 3 && city[|city| - 1] in KeywordEnds()
  }

  /** No key of `m` is a suffixed name. */
  predicate NoSuffixedKey(m: map<string, string>) {
    forall k :: k in m ==> !Suffixed(k)
  }

  lemma DirectUnsuffixed()
    ensures NoSuffixedKey(DirectCities())
  {
  }

  lemma ZhejiangUnsuffixed()
    ensures NoSuffixedKey(ZhejiangCities())
  {
  }

  lemma JiangsuUnsuffixed()
    ensures NoSuffixedKey(JiangsuCities())
  {
  }

  lemma GuangdongUnsuffixed()
    ensures NoSuffixedKey(GuangdongCities())
  {
  }

  lemma OtherUnsuffixed()
    ensures NoSuffixedKey(OtherCities())
  {
  }

  /**
   * No name of three or more characters that ends in a keyword character is
   * in either table: every key is a bare name of two characters, or ends in
   * some other character (连云港, 张家港, 石家庄, 哈尔滨, 乌鲁木齐, 呼和浩特).
   */
  lemma SuffixedNameUnknown(city: string)
    requires Suffixed(city)
    ensures InferProvinceFromCity(city) == ""
  {
    DirectUnsuffixed();
    ZhejiangUnsuffixed();
    JiangsuUnsuffixed();
    GuangdongUnsuffixed();
    OtherUnsuffixed();
  }

  // ---------------------------------------------------- the city pattern

  /** The class `[^，,。\s]` of the city pattern. */
  predicate IsWordChar(c: char) {
    c != '，' && c != ',' && c != '。' && !IsSpace(c)
  }

  /** The separators of `split(/[，,。\s]/)`. */
  predicate IsCitySeparator(c: char) {
    !IsWordChar(c)
  }

  /** `n` class characters start at `i`, and `kw` follows them. */
  predicate CityFits(s: string, kw: string, i: nat, n: nat) {
    i + n <= |s| && (forall k :: i <= k < i + n ==> IsWordChar(s[k])) && OccursAt(s, kw, i + n)
  }

  function CityFitsAt(s: string, kw: string, i: nat): nat -> bool {
    (n: nat) => CityFits(s, kw, i, n)
  }

  /** The attempt of `([^，,。\s]{2,10}kw)` at `i`: the greedy count first, backing off to 2. */
  function CityAt(s: string, kw: string, i: nat): (r: Option<string>)
    ensures r.Some? ==> 2 + |kw| <= |r.value| <= 10 + |kw| && OccursAt(s, r.value, i) && EndsWith(r.value, kw)
  {
    match GreedyCount(CityFitsAt(s, kw, i), 2, 10)
    case None => None
    case Some(n) =>
      assert s[i..i + n + |kw|][n..] == s[i + n..i + n + |kw|];
      Some(s[i..i + n + |kw|])
  }

  function CityAttempt(s: string, kw: string): nat -> Option<string> {
    (i: nat) => CityAt(s, kw, i)
  }

  /** The leftmost attempt that succeeds ends with the keyword and is contained in the text. */
  lemma CityFound(s: string, kw: string)
    ensures var r := FirstMatch(s, CityAttempt(s, kw));
            r.Some? ==> 2 + |kw| <= |r.value| <= 10 + |kw| && Includes(s, r.value) && EndsWith(r.value, kw)
  {
    var r := FirstMatch(s, CityAttempt(s, kw));
    FirstMatchLeftmost(s, CityAttempt(s, kw));
    if r.Some? {
      var k: nat :| k < |s| && CityAttempt(s, kw)(k) == r;
      IncludesAt(s, r.value, k);
    }
  }

  /** `s.match(new RegExp('([^，,。\\s]{2,10}' + kw + ')'))`, its first group (the whole match). */
  function CityMatch(s: string, kw: string): (r: Option<string>)
    ensures r.Some? ==> 2 + |kw| <= |r.value| <= 10 + |kw| && Includes(s, r.value) && EndsWith(r.value, kw)
  {
    CityFound(s, kw);
    FirstMatch(s, CityAttempt(s, kw))
  }

  /** No count from 2 to 10 fits at `j`. */
  predicate NoCityAt(s: string, kw: string, j: nat) {
    forall m: nat :: 2 <= m <= 10 ==> !CityFits(s, kw, j, m)
  }

  /** `n` class characters fit at `i`, and no larger count up to 10 does. */
  predicate GreedyCity(s: string, kw: string, i: nat, n: nat) {
    2 <= n <= 10 && CityFits(s, kw, i, n) && forall m: nat :: n < m <= 10 ==> !CityFits(s, kw, i, m)
  }

  /** The city match starts at `i` with `n` class characters: nothing fits earlier, and no larger count fits at `i`. */
  predicate LeftmostCity(s: string, kw: string, i: nat, n: nat) {
    GreedyCity(s, kw, i, n) && forall j: nat :: j < i ==> NoCityAt(s, kw, j)
  }

  lemma CityAtNone(s: string, kw: string, j: nat)
    ensures CityAt(s, kw, j).None? <==> NoCityAt(s, kw, j)
  {
    assert forall m: nat :: CityFitsAt(s, kw, j)(m) == CityFits(s, kw, j, m);
  }

  lemma CityAtSome(s: string, kw: string, i: nat)
    requires CityAt(s, kw, i).Some?
    ensures var v := CityAt(s, kw, i).value;
            GreedyCity(s, kw, i, |v| - |kw|) && v == s[i..i + |v|]
  {
    assert forall m: nat :: CityFitsAt(s, kw, i)(m) == CityFits(s, kw, i, m);
  }

  /** The first position whose attempt succeeds is where the leftmost, greedy match starts. */
  lemma LeftmostCityAt(s: string, kw: string, i: nat)
    requires CityAt(s, kw, i).Some? && forall j: nat :: j < i ==> CityAt(s, kw, j).None?
    ensures exists n: nat :: LeftmostCity(s, kw, i, n) && CityAt(s, kw, i).value == s[i..i + n + |kw|]
  {
    forall j: nat | j < i
      ensures NoCityAt(s, kw, j)
    {
      CityAtNone(s, kw, j);
    }
    CityAtSome(s, kw, i);
    var v := CityAt(s, kw, i).value;
    var n := |v| - |kw|;
    assert LeftmostCity(s, kw, i, n);
    assert i + n + |kw| == i + |v|;
  }

  /** The match is the leftmost, and at its position the longest, run of class characters followed by the keyword. */
  lemma CityMatchLeftmost(s: string, kw: string)
    ensures CityMatch(s, kw).Some? ==>
              exists i: nat, n: nat :: LeftmostCity(s, kw, i, n) && CityMatch(s, kw).value == s[i..i + n + |kw|]
    ensures CityMatch(s, kw).None? ==> forall j: nat :: j < |s| ==> NoCityAt(s, kw, j)
  {
    var at := CityAttempt(s, kw);
    var r := FirstMatch(s, at);
    assert CityMatch(s, kw) == r;
    FirstMatchLeftmost(s, at);
    if r.Some? {
      var i: nat :| i < |s| && at(i) == r && forall j: nat :: j < i ==> at(j).None?;
      assert forall j: nat :: j < i ==> CityAt(s, kw, j).None? by {
        forall j: nat | j < i
          ensures CityAt(s, kw, j).None?
        {
          assert at(j).None?;
        }
      }
      assert CityAt(s, kw, i) == r by {
        assert at(i) == CityAt(s, kw, i);
      }
      LeftmostCityAt(s, kw, i);
    } else {
      forall j: nat | j < |s|
        ensures NoCityAt(s, kw, j)
      {
        assert at(j).None?;
        CityAtNone(s, kw, j);
      }
    }
  }

  /** Every keyword match ends in the keyword's last character and is at least three characters long. */
  lemma KeywordMatchEnds(s: string, kw: string)
    requires kw in CityKeywords()
    ensures CityMatch(s, kw).Some? ==>
              |CityMatch(s, kw).value| >= 3 && CityMatch(s, kw).value[|CityMatch(s, kw).value| - 1] in KeywordEnds()
  {
    KeywordsEndInKeywordEnds();
    if CityMatch(s, kw).Some? {
      var m := CityMatch(s, kw).value;
      assert m[|m| - 1] == m[|m| - |kw|..][|kw| - 1];
    }
  }

  // ------------------------------------------------------- the phone pattern

  predicate IsDigit(c: char) {
    '0' <= c <= '9'
  }

  predicate DigitsAt(s: string, i: nat, n: nat) {
    i + n <= |s| && forall k :: i <= k < i + n ==> IsDigit(s[k])
  }

  predicate DashAt(s: string, i: nat) {
    i < |s| && s[i] == '-'
  }

  /** Digits and dashes fill `s[i..i + n]`. */
  predicate PhoneSpan(s: string, i: nat, n: nat) {
    i + n <= |s| && forall k :: i <= k < i + n ==> IsDigit(s[k]) || s[k] == '-'
  }

  /** A phone number as the pattern accepts it: 10 to 13 digits and dashes. */
  predicate IsPhoneNumber(p: string) {
    10 <= |p| <= 13 && forall k :: 0 <= k < |p| ==> IsDigit(p[k]) || p[k] == '-'
  }

  /** `1[3-9]\d{9}`: eleven digits, the first `1` and the second from 3 to 9. */
  function MobileAt(s: string, i: nat): (r: Option<nat>)
    ensures r.Some? <==> DigitsAt(s, i, 11) && s[i] == '1' && '3' <= s[i + 1] <= '9'
    ensures r.Some? ==> r.value == 11 && PhoneSpan(s, i, 11)
  {
    if i + 2 <= |s| && s[i] == '1' && '3' <= s[i + 1] <= '9' && DigitsAt(s, i + 2, 9) then Some(11) else None
  }

  /** `\d{7,8}`, greedy: eight digits when there are eight, seven otherwise. */
  function LocalAt(s: string, j: nat): (r: Option<nat>)
    ensures r.Some? ==> 7 <= r.value <= 8 && DigitsAt(s, j, r.value) && PhoneSpan(s, j, r.value)
    ensures DigitsAt(s, j, 8) ==> r == Some(8)
    ensures r.None? <==> !DigitsAt(s, j, 7)
  {
    if DigitsAt(s, j, 8) then Some(8) else if DigitsAt(s, j, 7) then Some(7) else None
  }

  /** `-?\d{7,8}`: the dash is taken when present; backing off from it leaves a dash where a digit is needed. */
  function DashLocalAt(s: string, j: nat): (r: Option<nat>)
    ensures r.Some? ==> 7 <= r.value <= 9 && PhoneSpan(s, j, r.value)
    ensures DashAt(s, j) ==> r == (if DigitsAt(s, j + 1, 8) then Some(9) else if DigitsAt(s, j + 1, 7) then Some(8) else None)
    ensures !DashAt(s, j) ==> r == LocalAt(s, j)
  {
    if DashAt(s, j) && LocalAt(s, j + 1).Some? then Some(1 + LocalAt(s, j + 1).value) else LocalAt(s, j)
  }

  /** `0\d{2,3}-?\d{7,8}`: a three-digit area code is tried before a two-digit one. */
  function LandlineAt(s: string, i: nat): (r: Option<nat>)
    ensures r.Some? ==> 10 <= r.value <= 13 && PhoneSpan(s, i, r.value) && s[i] == '0'
    ensures i < |s| && s[i] == '0' && DigitsAt(s, i + 1, 3) && DashLocalAt(s, i + 4).Some? ==>
              r == Some(4 + DashLocalAt(s, i + 4).value)
    ensures r.Some? ==>
              || (DigitsAt(s, i + 1, 3) && DashLocalAt(s, i + 4) == Some(r.value - 4))
              || (DigitsAt(s, i + 1, 2) && DashLocalAt(s, i + 3) == Some(r.value - 3))
    ensures r.None? <==> !(i < |s| && s[i] == '0')
                         || ((!DigitsAt(s, i + 1, 3) || DashLocalAt(s, i + 4).None?)
                             && (!DigitsAt(s, i + 1, 2) || DashLocalAt(s, i + 3).None?))
  {
    if !(i < |s| && s[i] == '0') then None
    else if DigitsAt(s, i + 1, 3) && DashLocalAt(s, i + 4).Some? then Some(4 + DashLocalAt(s, i + 4).value)
    else if DigitsAt(s, i + 1, 2) && DashLocalAt(s, i + 3).Some? then Some(3 + DashLocalAt(s, i + 3).value)
    else None
  }

  /** `\d{3}-?\d{4}`: three digits, an optional dash, four digits. */
  function ServiceTailAt(s: string, j: nat): (r: Option<nat>)
    ensures r.Some? ==> 7 <= r.value <= 8 && PhoneSpan(s, j, r.value)
    ensures r.Some? <==> DigitsAt(s, j, 3) && ((DashAt(s, j + 3) && DigitsAt(s, j + 4, 4)) || DigitsAt(s, j + 3, 4))
    ensures r.Some? ==> (r.value == 8 <==> DashAt(s, j + 3))
  {
    if !DigitsAt(s, j, 3) then None
    else if DashAt(s, j + 3) && DigitsAt(s, j + 4, 4) then Some(8)
    else if DigitsAt(s, j + 3, 4) then Some(7)
    else None
  }

  /** `400-?\d{3}-?\d{4}`: a service number; a dash after `400` is taken when present. */
  function ServiceAt(s: string, i: nat): (r: Option<nat>)
    ensures r.Some? ==> 10 <= r.value <= 12 && PhoneSpan(s, i, r.value)
    ensures r.Some? ==> s[i] == '4' && s[i + 1] == '0' && s[i + 2] == '0'
    ensures r.Some? <==> i + 3 <= |s| && s[i] == '4' && s[i + 1] == '0' && s[i + 2] == '0'
                         && ((DashAt(s, i + 3) && ServiceTailAt(s, i + 4).Some?) || ServiceTailAt(s, i + 3).Some?)
    ensures r.Some? && DashAt(s, i + 3) ==> r == Some(4 + ServiceTailAt(s, i + 4).value)
    ensures r.Some? && !DashAt(s, i + 3) ==> r == Some(3 + ServiceTailAt(s, i + 3).value)
  {
    if !(i + 3 <= |s| && s[i] == '4' && s[i + 1] == '0' && s[i + 2] == '0') then None
    else if DashAt(s, i + 3) && ServiceTailAt(s, i + 4).Some? then Some(4 + ServiceTailAt(s, i + 4).value)
    else if ServiceTailAt(s, i + 3).Some? then Some(3 + ServiceTailAt(s, i + 3).value)
    else None
  }

  /** The three alternatives start with different characters, so at most one of them matches at a position. */
  lemma PhoneAlternativesExclusive(s: string, i: nat)
    ensures !(MobileAt(s, i).Some? && LandlineAt(s, i).Some?)
    ensures !(MobileAt(s, i).Some? && ServiceAt(s, i).Some?)
    ensures !(LandlineAt(s, i).Some? && ServiceAt(s, i).Some?)
  { }

  /** The attempt of `PHONE_REGEX` at `i`: the span of whichever alternative matches there, if any. */
  function PhoneAt(s: string, i: nat): (r: Option<string>)
    ensures r.Some? ==> IsPhoneNumber(r.value) && OccursAt(s, r.value, i)
    ensures r.None? <==> MobileAt(s, i).None? && LandlineAt(s, i).None? && ServiceAt(s, i).None?
    ensures MobileAt(s, i).Some? ==> r == Some(s[i..i + 11])
    ensures LandlineAt(s, i).Some? ==> r == Some(s[i..i + LandlineAt(s, i).value])
    ensures ServiceAt(s, i).Some? ==> r == Some(s[i..i + ServiceAt(s, i).value])
  {
    PhoneAlternativesExclusive(s, i);
    var n := if MobileAt(s, i).Some? then MobileAt(s, i)
             else if LandlineAt(s, i).Some? then LandlineAt(s, i)
             else ServiceAt(s, i);
    if n.Some? then Some(s[i..i + n.value]) else None
  }

  function PhoneAttempt(s: string): nat -> Option<string> {
    (i: nat) => PhoneAt(s, i)
  }

  /** The leftmost attempt that succeeds is a phone number contained in the text. */
  lemma PhoneFound(s: string)
    ensures var r := FirstMatch(s, PhoneAttempt(s));
            r.Some? ==> IsPhoneNumber(r.value) && Includes(s, r.value)
  {
    var r := FirstMatch(s, PhoneAttempt(s));
    FirstMatchLeftmost(s, PhoneAttempt(s));
    if r.Some? {
      var k: nat :| k < |s| && PhoneAttempt(s)(k) == r;
      IncludesAt(s, r.value, k);
    }
  }

  /** `s.match(PHONE_REGEX)[0]`: the leftmost phone number. */
  function PhoneMatch(s: string): (r: Option<string>)
    ensures r.Some? ==> IsPhoneNumber(r.value) && Includes(s, r.value)
  {
    PhoneFound(s);
    FirstMatch(s, PhoneAttempt(s))
  }

  /** The phone number starts at the first position where the pattern matches. */
  lemma PhoneMatchLeftmost(s: string)
    ensures PhoneMatch(s).Some? ==>
              exists i: nat :: i < |s| && PhoneAt(s, i) == PhoneMatch(s) && forall j: nat :: j < i ==> PhoneAt(s, j).None?
    ensures PhoneMatch(s).None? ==> forall j: nat :: j < |s| ==> PhoneAt(s, j).None?
  {
    FirstMatchLeftmost(s, PhoneAttempt(s));
    assert forall k: nat :: PhoneAttempt(s)(k) == PhoneAt(s, k);
  }

  // -------------------------------------------------------- the name pattern

  /** The lookahead `(?=\s|$|，|,)` at `j`. */
  predicate NameBoundary(s: string, j: nat) {
    j == |s| || (j < |s| && (IsSpace(s[j]) || s[j] == '，' || s[j] == ','))
  }

  predicate NameFits(s: string, i: nat, n: nat) {
    i + n <= |s| && (forall k :: i <= k < i + n ==> IsHan(s[k])) && NameBoundary(s, i + n)
  }

  function NameFitsAt(s: string, i: nat): nat -> bool {
    (n: nat) => NameFits(s, i, n)
  }

  /** A name as the pattern accepts it: two to four ideographs. */
  predicate IsNameText(n: string) {
    2 <= |n| <= 4 && forall k :: 0 <= k < |n| ==> IsHan(n[k])
  }

  /** The attempt of `NAME_REGEX` at `i`. */
  function NameAt(s: string, i: nat): (r: Option<string>)
    ensures r.Some? ==> IsNameText(r.value) && OccursAt(s, r.value, i) && NameBoundary(s, i + |r.value|)
    ensures r.Some? ==> NameFits(s, i, |r.value|)
    ensures forall n :: 2 <= n <= 4 && NameFits(s, i, n) ==> r.Some? && n <= |r.value|
  {
    assert forall m: nat :: NameFitsAt(s, i)(m) == NameFits(s, i, m);
    match GreedyCount(NameFitsAt(s, i), 2, 4)
    case None => None
    case Some(n) => Some(s[i..i + n])
  }

  function NameAttempt(s: string): nat -> Option<string> {
    (i: nat) => NameAt(s, i)
  }

  /** The leftmost attempt that succeeds is a name contained in the text. */
  lemma NameFound(s: string)
    ensures var r := FirstMatch(s, NameAttempt(s));
            r.Some? ==> IsNameText(r.value) && Includes(s, r.value)
  {
    var r := FirstMatch(s, NameAttempt(s));
    FirstMatchLeftmost(s, NameAttempt(s));
    if r.Some? {
      var k: nat :| k < |s| && NameAttempt(s)(k) == r;
      IncludesAt(s, r.value, k);
    }
  }

  /** `s.match(NAME_REGEX)[0]`: the leftmost name. */
  function NameMatch(s: string): (r: Option<string>)
    ensures r.Some? ==> IsNameText(r.value) && Includes(s, r.value)
  {
    NameFound(s);
    FirstMatch(s, NameAttempt(s))
  }

  /** The name starts at the first position where the pattern matches. */
  lemma NameMatchLeftmost(s: string)
    ensures NameMatch(s).Some? ==>
              exists i: nat :: i < |s| && NameAt(s, i) == NameMatch(s) && forall j: nat :: j < i ==> NameAt(s, j).None?
    ensures NameMatch(s).None? ==> forall j: nat :: j < |s| ==> NameAt(s, j).None?
  {
    FirstMatchLeftmost(s, NameAttempt(s));
    assert forall k: nat :: NameAttempt(s)(k) == NameAt(s, k);
  }

  // ------------------------------------------------ province and city (spec)

  function IncludedIn(text: string): string -> bool {
    (p: string) => Includes(text, p)
  }

  /** The first listed province the text contains, or "". */
  function ListedProvince(t: Tables, text: string): (r: string)
    ensures r != "" ==> r in t.provinces && Includes(text, r)
  {
    Find(t.provinces, IncludedIn(text)).GetOr("")
  }

  /** The window searched for a city: from 20 characters before the province's first occurrence to 50 after it. */
  function SearchText(text: string, province: string): string {
    var idx := IndexOf(text, province);
    Substring(text, if idx - 20 > 0 then idx - 20 else 0,
              if |text| < idx + |province| + 50 then |text| else idx + |province| + 50)
  }

  function AfterProvince(w: string, province: string): string {
    Substring(w, IndexOf(w, province) + |province|, |w|)
  }

  function BeforeProvince(w: string, province: string): string {
    Substring(w, 0, IndexOf(w, province))
  }

  /** One keyword's attempt: the text after the province first, then the text before it. */
  function CityNear(after: string, before: string): string -> Option<string> {
    (kw: string) => if CityMatch(after, kw).Some? then CityMatch(after, kw) else CityMatch(before, kw)
  }

  /** The city of the first keyword that matches next to the province. */
  function KeywordCity(keywords: seq<string>, after: string, before: string): Option<string> {
    FirstHit(keywords, CityNear(after, before))
  }

  /** The city guessed from the first word after the province when no keyword matched. */
  function FirstWordCity(keywords: seq<string>, after: string): (r: string)
    ensures var ws := Words(Trim(after), IsCitySeparator);
            var known := ws != [] && exists kw :: kw in keywords && Includes(ws[0], kw);
            (known ==> r == ws[0])
            && (ws != [] && !known && 2 <= |ws[0]| <= 6 ==> r == ws[0] + "市")
            && (ws == [] || (!known && !(2 <= |ws[0]| <= 6)) ==> r == "")
  {
    var words := Words(Trim(after), IsCitySeparator);
    if words == [] then ""
    else
      var firstWord := words[0];
      if Find(keywords, IncludedIn(firstWord)).Some? then firstWord
      else if 2 <= |firstWord| <= 6 then firstWord + "市"
      else ""
  }

  /** The city found around a listed province. */
  function CityWithProvince(t: Tables, text: string, province: string): string {
    var w := SearchText(text, province);
    var after := AfterProvince(w, province);
    var city := KeywordCity(t.keywords, after, BeforeProvince(w, province)).GetOr("");
    if city != "" then city else FirstWordCity(t.keywords, after)
  }

  /**
   * The scan over the keywords when no province was listed: each match
   * becomes the city and is looked up; the scan stops at the first lookup
   * that gives a province.
   */
  function InferScan(t: Tables, text: string, keywords: seq<string>, city: string): (r: (string, string))
    ensures r.0 != "" ==> r.0 == InferIn(t, r.1) && exists kw :: kw in keywords && CityMatch(text, kw) == Some(r.1)
    ensures r.0 == "" ==> r.1 == city || exists kw :: kw in keywords && CityMatch(text, kw) == Some(r.1)
    decreases |keywords|
  {
    if keywords == [] then ("", city)
    else match CityMatch(text, keywords[0])
      case None => InferScan(t, text, keywords[1..], city)
      case Some(c) =>
        var p := InferIn(t, c);
        if p != "" then (p, c) else InferScan(t, text, keywords[1..], c)
  }

  /** `parseProvinceCity` over the given tables: the pair (province, city). */
  function ProvinceCityIn(t: Tables, text: string): (string, string) {
    var listed := ListedProvince(t, text);
    var city := if listed != "" then CityWithProvince(t, text, listed) else "";
    var province := if listed == "" && city != "" then InferIn(t, city) else listed;
    if province == "" && city == "" then InferScan(t, text, t.keywords, city) else (province, city)
  }

  // ----------------------------------------- province and city (the loops)

  method FindListedProvince(provinces: seq<string>, text: string) returns (province: string)
    ensures province == Find(provinces, IncludedIn(text)).GetOr("")
  {
    province := "";
    for i := 0 to |provinces|
      invariant forall j :: 0 <= j < i ==> !Includes(text, provinces[j])
    {
      if Includes(text, provinces[i]) {
        province := provinces[i];
        FindFirst(provinces, IncludedIn(text), i);
        return;
      }
    }
    FindNone(provinces, IncludedIn(text));
  }

  method FindKeywordCity(keywords: seq<string>, after: string, before: string) returns (city: string)
    ensures city == KeywordCity(keywords, after, before).GetOr("")
  {
    city := "";
    for i := 0 to |keywords|
      invariant KeywordCity(keywords, after, before) == FirstHit(keywords[i..], CityNear(after, before))
    {
      assert keywords[i..][0] == keywords[i] && keywords[i..][1..] == keywords[i + 1..];
      var cityMatch := CityMatch(after, keywords[i]);
      if cityMatch.Some? {
        city := cityMatch.value;
        return;
      }
      var cityMatchBefore := CityMatch(before, keywords[i]);
      if cityMatchBefore.Some? {
        city := cityMatchBefore.value;
        return;
      }
    }
  }

  method ScanKeywordCities(t: Tables, text: string) returns (province: string, city: string)
    ensures (province, city) == InferScan(t, text, t.keywords, "")
  {
    province, city := "", "";
    for i := 0 to |t.keywords|
      invariant province == ""
      invariant InferScan(t, text, t.keywords, "") == InferScan(t, text, t.keywords[i..], city)
    {
      assert t.keywords[i..][0] == t.keywords[i] && t.keywords[i..][1..] == t.keywords[i + 1..];
      var cityMatch := CityMatch(text, t.keywords[i]);
      if cityMatch.Some? {
        city := cityMatch.value;
        province := InferIn(t, city);
        if province != "" {
          return;
        }
      }
    }
  }

  /** The city looked for around a province the text names. */
  method FindCityNearProvince(t: Tables, addressText: string, province: string) returns (city: string)
    ensures city == CityWithProvince(t, addressText, province)
  {
    var searchText := SearchText(addressText, province);
    var afterProvince := AfterProvince(searchText, province);
    city := FindKeywordCity(t.keywords, afterProvince, BeforeProvince(searchText, province));
    if city == "" {
      city := FirstWordCity(t.keywords, afterProvince);
    }
  }

  /** `parseProvinceCity(addressText)`. */
  method ParseProvinceCity(t: Tables, addressText: string) returns (province: string, city: string)
    ensures (province, city) == ProvinceCityIn(t, addressText)
  {
    province := FindListedProvince(t.provinces, addressText);
    city := "";
    if province != "" {
      city := FindCityNearProvince(t, addressText, province);
    }
    if province == "" && city != "" {
      province := InferIn(t, city);
    }
    if province == "" && city == "" {
      province, city := ScanKeywordCities(t, addressText);
    }
  }

  // ------------------------------ what the province and city parse promises

  /**
   * The text searched before the province is the stretch of up to 20
   * characters that ends at its first occurrence, all of them when fewer.
   */
  lemma BeforeWindow(text: string, province: string)
    requires Includes(text, province)
    ensures var idx := IndexOf(text, province);
            var before := BeforeProvince(SearchText(text, province), province);
            |before| <= 20 && |before| <= idx && (|before| < 20 ==> |before| == idx) && before == text[idx - |before|..idx]
  {
    WindowIndex(text, province);
  }

  /**
   * The text searched after the province is the stretch of up to 50
   * characters that follows its first occurrence, all of them when fewer.
   */
  lemma AfterWindow(text: string, province: string)
    requires Includes(text, province)
    ensures var from := IndexOf(text, province) + |province|;
            var after := AfterProvince(SearchText(text, province), province);
            |after| <= 50 && from + |after| <= |text| && (|after| < 50 ==> from + |after| == |text|)
            && after == text[from..from + |after|]
  {
    WindowIndex(text, province);
    var w := SearchText(text, province);
    var q := IndexOf(w, province);
    assert AfterProvince(w, province) == w[q + |province|..];
  }

  /** The window is a slice of the text, and the province's first occurrence in it is the one in the text. */
  lemma WindowIndex(text: string, province: string)
    requires Includes(text, province)
    ensures var idx := IndexOf(text, province);
            var start := if idx - 20 > 0 then idx - 20 else 0;
            var end := if |text| < idx + |province| + 50 then |text| else idx + |province| + 50;
            start <= idx && idx + |province| <= end <= |text|
            && SearchText(text, province) == text[start..end]
            && IndexOf(SearchText(text, province), province) == idx - start
  {
    var idx := IndexOf(text, province);
    assert OccursAt(text, province, idx);
    var start := if idx - 20 > 0 then idx - 20 else 0;
    var end := if |text| < idx + |province| + 50 then |text| else idx + |province| + 50;
    IndexOfInSlice(text, province, start, end);
  }

  /**
   * The city next to a province is the match of the first keyword that
   * matches on either side, the text after the province tried before the
   * text before it; no city means no keyword matches on either side.
   */
  lemma KeywordCityFirst(keywords: seq<string>, after: string, before: string)
    ensures KeywordCity(keywords, after, before).Some? ==>
              exists k :: 0 <= k < |keywords|
                && (forall j :: 0 <= j < k ==> CityMatch(after, keywords[j]).None? && CityMatch(before, keywords[j]).None?)
                && KeywordCity(keywords, after, before)
                   == (if CityMatch(after, keywords[k]).Some? then CityMatch(after, keywords[k]) else CityMatch(before, keywords[k]))
    ensures KeywordCity(keywords, after, before).None? ==>
              forall k :: 0 <= k < |keywords| ==> CityMatch(after, keywords[k]).None? && CityMatch(before, keywords[k]).None?
  {
    var f := CityNear(after, before);
    var r := KeywordCity(keywords, after, before);
    FirstHitFirst(keywords, f);
    if r.Some? {
      var k :| 0 <= k < |keywords| && f(keywords[k]) == r && forall j :: 0 <= j < k ==> f(keywords[j]).None?;
      forall j | 0 <= j < k
        ensures CityMatch(after, keywords[j]).None? && CityMatch(before, keywords[j]).None?
      {
        assert f(keywords[j]).None?;
      }
      assert r == (if CityMatch(after, keywords[k]).Some? then CityMatch(after, keywords[k]) else CityMatch(before, keywords[k]));
    } else {
      forall k | 0 <= k < |keywords|
        ensures CityMatch(after, keywords[k]).None? && CityMatch(before, keywords[k]).None?
      {
        assert f(keywords[k]).None?;
      }
    }
  }

  /** A province the text names wins: the first listed one it contains, with the city looked for around it. */
  lemma ProvinceFirstListed(t: Tables, text: string, k: nat)
    requires k < |t.provinces| && t.provinces[k] != "" && Includes(text, t.provinces[k])
    requires forall j :: 0 <= j < k ==> !Includes(text, t.provinces[j])
    ensures ProvinceCityIn(t, text) == (t.provinces[k], CityWithProvince(t, text, t.provinces[k]))
  {
    FindFirst(t.provinces, IncludedIn(text), k);
  }

  /** A text naming no listed province falls through to the keyword scan. */
  lemma NoListedProvince(t: Tables, text: string)
    requires forall j :: 0 <= j < |t.provinces| ==> !Includes(text, t.provinces[j])
    ensures ProvinceCityIn(t, text) == InferScan(t, text, t.keywords, "")
  {
    FindNone(t.provinces, IncludedIn(text));
  }

  /** A scan over keywords none of which match keeps the city it started with and finds no province. */
  lemma {:induction false} ScanWithoutMatches(t: Tables, text: string, keywords: seq<string>, city: string)
    requires forall j :: 0 <= j < |keywords| ==> CityMatch(text, keywords[j]).None?
    ensures InferScan(t, text, keywords, city) == ("", city)
    decreases |keywords|
  {
    if keywords != [] {
      ScanWithoutMatches(t, text, keywords[1..], city);
    }
  }

  /** With lookups that know no suffixed name, the keyword scan never finds a province. */
  lemma {:induction false} ScanFindsNoProvince(t: Tables, text: string, keywords: seq<string>, city: string)
    requires forall j :: 0 <= j < |keywords| ==> keywords[j] in CityKeywords()
    requires forall c :: Suffixed(c) ==> InferIn(t, c) == ""
    ensures InferScan(t, text, keywords, city).0 == ""
    decreases |keywords|
  {
    if keywords != [] {
      KeywordMatchEnds(text, keywords[0]);
      match CityMatch(text, keywords[0]) {
        case None =>
          ScanFindsNoProvince(t, text, keywords[1..], city);
        case Some(c) =>
          assert Suffixed(c);
          ScanFindsNoProvince(t, text, keywords[1..], c);
      }
    }
  }

  /** Over tables whose lookups know no suffixed name, a province only ever comes from the list. */
  lemma ProvinceOnlyListedIn(t: Tables, text: string)
    requires forall j :: 0 <= j < |t.keywords| ==> t.keywords[j] in CityKeywords()
    requires forall c :: Suffixed(c) ==> InferIn(t, c) == ""
    ensures var r := ProvinceCityIn(t, text);
            r.0 != "" ==> r.0 == ListedProvince(t, text)
  {
    ScanFindsNoProvince(t, text, t.keywords, "");
  }

  lemma SourceSuffixedUnknown()
    ensures forall c :: Suffixed(c) ==> InferIn(SourceTables(), c) == ""
  {
    forall c | Suffixed(c)
      ensures InferIn(SourceTables(), c) == ""
    {
      SuffixedNameUnknown(c);
    }
  }

  /**
   * As written, the library's parse finds a province only by its listed
   * name: the fallback scan looks up keyword-suffixed matches such as
   * "包头市" in tables keyed by bare names such as "包头", and never finds one.
   */
  lemma ProvinceOnlyListed(text: string)
    ensures var r := ProvinceCityIn(SourceTables(), text);
            r.0 != "" ==> r.0 == ListedProvince(SourceTables(), text)
  {
    SourceSuffixedUnknown();
    ProvinceOnlyListedIn(SourceTables(), text);
  }

  /** The first characters of the listed provinces. */
  function ProvinceInitials(): set<char> {
    {'北', '天', '河', '山', '内', '辽', '吉', '黑', '上', '江', '浙', '安', '福',
     '湖', '广', '海', '重', '四', '贵', '云', '西', '陕', '甘', '青', '宁', '新'}
  }

  lemma ProvincesStartWithInitials()
    ensures forall j :: 0 <= j < |Provinces()| ==> Provinces()[j] != "" && Provinces()[j][0] in ProvinceInitials()
  {
  }

  /** A text without any province's first character names no province. */
  lemma NoProvinceNamed(t: Tables, text: string)
    requires t.provinces == Provinces()
    requires forall i :: 0 <= i < |text| ==> text[i] !in ProvinceInitials()
    ensures forall j :: 0 <= j < |t.provinces| ==> !Includes(text, t.provinces[j])
  {
    ProvincesStartWithInitials();
    forall j | 0 <= j < |t.provinces|
      ensures !Includes(text, t.provinces[j])
    {
      IncludesCharOf(text, t.provinces[j], t.provinces[j][0]);
    }
  }

  /** In a three-character text a keyword can only match the whole text, and only a one-character keyword it ends in. */
  lemma CityMatchOfThree(s: string, kw: string)
    requires |s| == 3 && kw != ""
    ensures CityMatch(s, kw).Some? ==> |kw| == 1 && s[2] == kw[0] && CityMatch(s, kw).value == s
  {
    if CityMatch(s, kw).Some? {
      var m := CityMatch(s, kw).value;
      var i := IndexOf(s, m);
      assert OccursAt(s, m, i);
      assert |m| == 3 && i == 0;
      assert m == s by {
        assert s[0..3] == s;
      }
      assert m[|m| - |kw|..] == kw;
      assert m[2..][0] == m[2];
    }
  }

  /** Two word characters followed by 市, none of them a province's first character: the shape of "包头市". */
  predicate CityOnlyText(s: string) {
    |s| == 3 && IsWordChar(s[0]) && IsWordChar(s[1]) && s[2] == '市'
    && s[0] !in ProvinceInitials() && s[1] !in ProvinceInitials() && s[2] !in ProvinceInitials()
  }

  /** Such a text is matched as a whole by the keyword "市", and by no other keyword. */
  lemma CityOnlyMatches(s: string)
    requires CityOnlyText(s)
    ensures CityMatch(s, "市") == Some(s)
    ensures forall j :: 1 <= j < |CityKeywords()| ==> CityMatch(s, CityKeywords()[j]).None?
  {
    CityMatchOfThree(s, "市");
    assert CityFits(s, "市", 0, 2) by {
      assert s[2..3] == "市";
    }
    assert CityFitsAt(s, "市", 0)(2);
    assert CityAt(s, "市", 0).Some?;
    FirstMatchFromAt(s, CityAttempt(s, "市"), 0, 0);
    forall j | 1 <= j < |CityKeywords()|
      ensures CityMatch(s, CityKeywords()[j]).None?
    {
      CityMatchOfThree(s, CityKeywords()[j]);
    }
  }

  /** What the parse needs to know of such a text over tables with the library's province list and keywords. */
  lemma CityOnlyFacts(t: Tables, s: string)
    requires CityOnlyText(s)
    requires t.provinces == Provinces() && t.keywords == CityKeywords()
    ensures forall j :: 0 <= j < |t.provinces| ==> !Includes(s, t.provinces[j])
    ensures t.keywords != [] && CityMatch(s, t.keywords[0]) == Some(s)
    ensures forall j :: 1 <= j < |t.keywords| ==> CityMatch(s, t.keywords[j]).None?
  {
    NoProvinceNamed(t, s);
    CityOnlyMatches(s);
  }

  /**
   * A text naming no province, matched as a whole by the first keyword and by
   * no other, parses to that city and, when the lookup does not know the
   * text itself, no province.
   */
  lemma CityOnlyParseIn(t: Tables, s: string)
    requires forall j :: 0 <= j < |t.provinces| ==> !Includes(s, t.provinces[j])
    requires t.keywords != [] && CityMatch(s, t.keywords[0]) == Some(s)
    requires forall j :: 1 <= j < |t.keywords| ==> CityMatch(s, t.keywords[j]).None?
    requires InferIn(t, s) == ""
    ensures ProvinceCityIn(t, s) == ("", s)
  {
    NoListedProvince(t, s);
    var rest := t.keywords[1..];
    assert forall j :: 0 <= j < |rest| ==> rest[j] == t.keywords[j + 1];
    ScanWithoutMatches(t, s, rest, s);
  }

  /** Over tables with the library's province list and keywords, such a text parses to its city, and no province when the lookup does not know it. */
  lemma CityOnlyParse(t: Tables, s: string)
    requires CityOnlyText(s)
    requires t.provinces == Provinces() && t.keywords == CityKeywords()
    requires InferIn(t, s) == ""
    ensures ProvinceCityIn(t, s) == ("", s)
  {
    CityOnlyFacts(t, s);
    CityOnlyParseIn(t, s);
  }

  /** The parse of "包头市" over tables shaped like the library's that do not know "包头市" itself. */
  lemma BaotouParseIn(t: Tables, s: string)
    requires s == "包头市"
    requires t.provinces == Provinces() && t.keywords == CityKeywords()
    requires InferIn(t, s) == ""
    ensures ProvinceCityIn(t, s) == ("", s)
  {
    assert CityOnlyText(s);
    CityOnlyParse(t, s);
  }

  /** "包头市" parses to its city and no province, although its bare name maps to 内蒙古: the address does not validate. */
  lemma BaotouWithoutProvince()
    ensures ProvinceCityIn(SourceTables(), "包头市") == ("", "包头市")
    ensures InferProvinceFromCity("包头") == "内蒙古"
  {
    InferBareName();
    InferSuffixedName();
    BaotouParseIn(SourceTables(), "包头市");
  }

  // -------------------------------- the keyword scan as evidently intended

  /** A keyword match without its keyword: the bare name the tables are keyed by. */
  function Stem(c: string, kw: string): string
    requires |kw| <= |c|
  {
    c[..|c| - |kw|]
  }

  /** The keyword scan, with each match looked up by its bare name. */
  function InferScanStripped(t: Tables, text: string, keywords: seq<string>, city: string): (r: (string, string))
    ensures r.0 != "" ==> exists kw :: kw in keywords && CityMatch(text, kw) == Some(r.1)
                             && |kw| <= |r.1| && r.0 == InferIn(t, Stem(r.1, kw))
    decreases |keywords|
  {
    if keywords == [] then ("", city)
    else match CityMatch(text, keywords[0])
      case None => InferScanStripped(t, text, keywords[1..], city)
      case Some(c) =>
        var p := InferIn(t, Stem(c, keywords[0]));
        if p != "" then (p, c) else InferScanStripped(t, text, keywords[1..], c)
  }

  /** `parseProvinceCity` with the fallback scan looking up bare names. */
  function ProvinceCityStrippedIn(t: Tables, text: string): (r: (string, string))
    ensures ListedProvince(t, text) != "" ==> r == ProvinceCityIn(t, text)
  {
    if ListedProvince(t, text) == "" then InferScanStripped(t, text, t.keywords, "")
    else ProvinceCityIn(t, text)
  }

  /** The fixed scan stops at the first keyword match whose bare name the tables know. */
  lemma {:induction false} StrippedScanAt(t: Tables, text: string, keywords: seq<string>, city: string, k: nat)
    requires k < |keywords| && CityMatch(text, keywords[k]).Some?
    requires InferIn(t, Stem(CityMatch(text, keywords[k]).value, keywords[k])) != ""
    requires forall j :: 0 <= j < k ==> CityMatch(text, keywords[j]).None?
    ensures InferScanStripped(t, text, keywords, city)
            == (InferIn(t, Stem(CityMatch(text, keywords[k]).value, keywords[k])), CityMatch(text, keywords[k]).value)
    decreases k
  {
    if k > 0 {
      StrippedScanAt(t, text, keywords[1..], city, k - 1);
    }
  }

  /**
   * With the fix, a text naming no listed province takes the province of the
   * first keyword match, when the tables know its bare name.
   */
  lemma StrippedFallbackInfers(t: Tables, text: string, k: nat)
    requires forall j :: 0 <= j < |t.provinces| ==> !Includes(text, t.provinces[j])
    requires k < |t.keywords| && CityMatch(text, t.keywords[k]).Some?
    requires forall j :: 0 <= j < k ==> CityMatch(text, t.keywords[j]).None?
    requires InferIn(t, Stem(CityMatch(text, t.keywords[k]).value, t.keywords[k])) != ""
    ensures ProvinceCityStrippedIn(t, text)
            == (InferIn(t, Stem(CityMatch(text, t.keywords[k]).value, t.keywords[k])), CityMatch(text, t.keywords[k]).value)
  {
    FindNone(t.provinces, IncludedIn(text));
    StrippedScanAt(t, text, t.keywords, "", k);
  }

  /** With the fix, such a text takes the province its bare name maps to. */
  lemma CityOnlyStripped(t: Tables, s: string)
    requires CityOnlyText(s)
    requires t.provinces == Provinces() && t.keywords == CityKeywords()
    requires InferIn(t, s[..2]) != ""
    ensures ProvinceCityStrippedIn(t, s) == (InferIn(t, s[..2]), s)
  {
    CityOnlyFacts(t, s);
    assert Stem(s, t.keywords[0]) == s[..2];
    StrippedFallbackInfers(t, s, 0);
  }

  /** The fixed parse of "包头市" over tables shaped like the library's that map "包头" to 内蒙古. */
  lemma BaotouStrippedIn(t: Tables, s: string)
    requires s == "包头市"
    requires t.provinces == Provinces() && t.keywords == CityKeywords()
    requires InferIn(t, "包头") == "内蒙古"
    ensures ProvinceCityStrippedIn(t, s) == ("内蒙古", s)
  {
    assert CityOnlyText(s) && s[..2] == "包头";
    CityOnlyStripped(t, s);
  }

  /** With the fix, "包头市" resolves to 内蒙古. */
  lemma BaotouStripped()
    ensures ProvinceCityStrippedIn(SourceTables(), "包头市") == ("内蒙古", "包头市")
  {
    InferBareName();
    BaotouStrippedIn(SourceTables(), "包头市");
  }

  // -------------------------------------------------------- parseAddress

  /** The cleaned text: white-space runs collapsed to one space, then trimmed. */
  function CleanText(text: string): string {
    Trim(CollapseSpaces(text))
  }

  /** The text left once the phone number, the province and the city are removed, each at its first occurrence. */
  function RemainingText(clean: string, phone: Option<string>, province: string, city: string): string {
    var a := if NonEmpty(phone) then Trim(ReplaceFirst(clean, phone.value, "")) else clean;
    var b := if province != "" then Trim(ReplaceFirst(a, province, "")) else a;
    if city != "" then Trim(ReplaceFirst(b, city, "")) else b
  }

  function ParsedAddressIn(t: Tables, text: string): ParsedAddress {
    var clean := CleanText(text);
    var phone := PhoneMatch(clean);
    var pc := ProvinceCityIn(t, clean);
    ParsedAddress(pc.0, pc.1, NameMatch(RemainingText(clean, phone, pc.0, pc.1)), phone, clean)
  }

  /** `parseAddress(text)`. */
  method ParseAddress(text: string) returns (r: ParsedAddress)
    ensures r == ParsedAddressIn(SourceTables(), text)
  {
    var cleanText := Trim(CollapseSpaces(text));
    var phone := PhoneMatch(cleanText);
    var province, city := ParseProvinceCity(SourceTables(), cleanText);
    var remainingText := cleanText;
    if NonEmpty(phone) {
      remainingText := Trim(ReplaceFirst(remainingText, phone.value, ""));
    }
    if province != "" {
      remainingText := Trim(ReplaceFirst(remainingText, province, ""));
    }
    if city != "" {
      remainingText := Trim(ReplaceFirst(remainingText, city, ""));
    }
    r := ParsedAddress(province, city, NameMatch(remainingText), phone, cleanText);
  }

  /**
   * What `parseAddress` promises of each field: the address is the cleaned
   * text, single-spaced and trimmed, with every other character of the input
   * kept in order; a phone number comes from the address; a name is two to
   * four ideographs found in what is left once the phone number, the province
   * and the city are taken out; the province and the city are the pair the
   * province/city parse gives for the address.
   */
  lemma ParsedAddressShape(t: Tables, text: string)
    ensures var r := ParsedAddressIn(t, text);
            r.address == CleanText(text) && SingleSpaced(r.address) && NonSpaces(r.address) == NonSpaces(text)
            && (r.address == "" || (!IsSpace(r.address[0]) && !IsSpace(r.address[|r.address| - 1])))
            && (r.phone.Some? ==> IsPhoneNumber(r.phone.value) && Includes(r.address, r.phone.value))
            && (r.name.Some? ==> IsNameText(r.name.value)
                                 && Includes(RemainingText(r.address, r.phone, r.province, r.city), r.name.value))
            && (r.province, r.city) == ProvinceCityIn(t, r.address)
  {
    CleanTextShape(text);
  }

  /** The cleaned text is single-spaced and trimmed, and keeps every other character of the input in order. */
  lemma CleanTextShape(text: string)
    ensures SingleSpaced(CleanText(text)) && NonSpaces(CleanText(text)) == NonSpaces(text)
  {
    var c := CollapseSpaces(text);
    CollapseKeepsText(text);
    TrimKeepsText(c);
    SingleSpacedTrim(c);
  }

  /** Cleaning a cleaned text changes nothing, so parsing the address a parse returns gives the same result. */
  lemma ReparseStable(t: Tables, text: string)
    ensures ParsedAddressIn(t, ParsedAddressIn(t, text).address) == ParsedAddressIn(t, text)
  {
    var c := CollapseSpaces(text);
    SingleSpacedTrim(c);
    CollapseSingleSpaced(Trim(c));
    TrimIdempotent(c);
  }

  // ------------------------------------------------- validate and format

  /** `validateAddress`: both province and city are present. */
  predicate ValidateAddress(a: ParsedAddress) {
    a.province != "" && a.city != ""
  }

  /** The lines `formatAddress` emits, in order. */
  function FormatLines(a: ParsedAddress): seq<string> {
    (if NonEmpty(a.name) then ["姓名：" + a.name.value] else [])
    + (if NonEmpty(a.phone) then ["电话：" + a.phone.value] else [])
    + (if ValidateAddress(a) then ["地址：" + a.province + " " + a.city] else [])
  }

  /** `formatAddress`. */
  method FormatAddress(a: ParsedAddress) returns (r: string)
    ensures r == Join(FormatLines(a), "\n")
  {
    var parts: seq<string> := [];
    if NonEmpty(a.name) {
      parts := parts + ["姓名：" + a.name.value];
    }
    if NonEmpty(a.phone) {
      parts := parts + ["电话：" + a.phone.value];
    }
    if a.province != "" && a.city != "" {
      parts := parts + ["地址：" + a.province + " " + a.city];
    }
    assert parts == FormatLines(a);
    r := Join(parts, "\n");
  }

  /** No field of the address holds a line break. */
  predicate NoLineBreak(a: ParsedAddress) {
    '\n' !in a.province && '\n' !in a.city
    && (a.name.Some? ==> '\n' !in a.name.value) && (a.phone.Some? ==> '\n' !in a.phone.value)
  }

  /**
   * The lines come in the order name, phone, address, each present exactly
   * when its field is truthy, and the address line exactly when the address
   * validates.
   */
  lemma FormatLinesShape(a: ParsedAddress)
    ensures var ls := FormatLines(a);
            var n := if NonEmpty(a.name) then 1 else 0;
            var p := if NonEmpty(a.phone) then 1 else 0;
            |ls| == n + p + (if ValidateAddress(a) then 1 else 0)
            && (NonEmpty(a.name) ==> ls[0] == "姓名：" + a.name.value)
            && (NonEmpty(a.phone) ==> ls[n] == "电话：" + a.phone.value)
            && (ValidateAddress(a) ==> ls[n + p] == "地址：" + a.province + " " + a.city)
  {
  }

  /** The formatted text has an address line exactly when the address validates. */
  lemma AddressLineIffValid(a: ParsedAddress)
    ensures ValidateAddress(a) <==>
              exists k :: 0 <= k < |FormatLines(a)| && |FormatLines(a)[k]| >= 3 && FormatLines(a)[k][..3] == "地址："
  {
    var ls := FormatLines(a);
    FormatLinesShape(a);
    var n := if NonEmpty(a.name) then 1 else 0;
    var p := if NonEmpty(a.phone) then 1 else 0;
    if ValidateAddress(a) {
      assert ls[n + p][..3] == "地址：";
    }
    forall k | 0 <= k < n + p
      ensures ls[k][..3] != "地址："
    {
      if NonEmpty(a.name) && k == 0 {
        assert ls[k][..3] == "姓名：";
      } else {
        assert ls[k][..3] == "电话：";
      }
    }
  }

  /** Splitting the formatted text at line breaks gives back its lines, when no field holds a line break. */
  lemma FormatAddressLines(a: ParsedAddress)
    requires NoLineBreak(a) && FormatLines(a) != []
    ensures SplitOn(Join(FormatLines(a), "\n"), '\n') == FormatLines(a)
  {
    var ls := FormatLines(a);
    FormatLinesShape(a);
    forall k | 0 <= k < |ls|
      ensures '\n' !in ls[k]
    {
    }
    SplitOnJoin(ls, '\n');
  }
}
