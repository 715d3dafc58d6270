/**
 * Standardising province and city names: a table of official and short
 * province names with a containment fallback, and single-suffix stripping for
 * cities.
 */
module NameNormalizer {
  import opened Wrappers
  import opened JsString
  import opened JsArray

  /** One province: its short name and its official full name. */
  datatype ProvinceAlias = ProvinceAlias(short: string, full: string)

  /** The municipalities, in declaration order. */
  function Municipalities(): seq<ProvinceAlias> {
    [ProvinceAlias("北京", "北京市"), ProvinceAlias("上海", "上海市"),
     ProvinceAlias("天津", "天津市"), ProvinceAlias("重庆", "重庆市")]
  }

  /** The northern and north-eastern provinces and 江苏, in declaration order. */
  function ProvincesNorth(): seq<ProvinceAlias> {
    [ProvinceAlias("河北", "河北省"), ProvinceAlias("山西", "山西省"),
     ProvinceAlias("辽宁", "辽宁省"), ProvinceAlias("吉林", "吉林省"),
     ProvinceAlias("黑龙江", "黑龙江省"), ProvinceAlias("江苏", "江苏省")]
  }

  /** The eastern provinces after 江苏, in declaration order. */
  function ProvincesEast(): seq<ProvinceAlias> {
    [ProvinceAlias("浙江", "浙江省"), ProvinceAlias("安徽", "安徽省"),
     ProvinceAlias("福建", "福建省"), ProvinceAlias("江西", "江西省"),
     ProvinceAlias("山东", "山东省")]
  }

  /** The central and southern provinces, in declaration order. */
  function ProvincesSouth(): seq<ProvinceAlias> {
    [ProvinceAlias("河南", "河南省"), ProvinceAlias("湖北", "湖北省"),
     ProvinceAlias("湖南", "湖南省"), ProvinceAlias("广东", "广东省"),
     ProvinceAlias("海南", "海南省")]
  }

  /** The western provinces, in declaration order. */
  function ProvincesWest(): seq<ProvinceAlias> {
    [ProvinceAlias("四川", "四川省"), ProvinceAlias("贵州", "贵州省"),
     ProvinceAlias("云南", "云南省"), ProvinceAlias("陕西", "陕西省"),
     ProvinceAlias("甘肃", "甘肃省"), ProvinceAlias("青海", "青海省")]
  }

  /** The autonomous regions and the special administrative regions, in declaration order. */
  function Regions(): seq<ProvinceAlias> {
    [ProvinceAlias("内蒙古", "内蒙古自治区"), ProvinceAlias("广西", "广西壮族自治区"),
     ProvinceAlias("西藏", "西藏自治区"), ProvinceAlias("宁夏", "宁夏回族自治区"),
     ProvinceAlias("新疆", "新疆维吾尔自治区"), ProvinceAlias("香港", "香港特别行政区"),
     ProvinceAlias("澳门", "澳门特别行政区")]
  }

  /** The provinces of the normalisation table, in declaration order. */
  function Aliases(): seq<ProvinceAlias> {
    Municipalities() + ProvincesNorth() + ProvincesEast() + ProvincesSouth() + ProvincesWest() + Regions()
  }

  /** A key of the table and the short name it maps to. */
  datatype Entry = Entry(key: string, value: string)

  /** The entries of the aliases, in declaration order: each short name, then its full name. */
  function AliasEntries(aliases: seq<ProvinceAlias>): (es: seq<Entry>)
    ensures |es| == 2 * |aliases|
  {
    if aliases == [] then []
    else [Entry(aliases[0].short, aliases[0].short), Entry(aliases[0].full, aliases[0].short)]
         + AliasEntries(aliases[1..])
  }

  /** Entry 2i is alias i's short name mapped to itself, entry 2i+1 its full name mapped to the short name. */
  lemma {:induction false} AliasEntriesAt(aliases: seq<ProvinceAlias>, i: nat)
    requires i < |aliases|
    ensures AliasEntries(aliases)[2 * i] == Entry(aliases[i].short, aliases[i].short)
    ensures AliasEntries(aliases)[2 * i + 1] == Entry(aliases[i].full, aliases[i].short)
  {
    if i > 0 {
      AliasEntriesAt(aliases[1..], i - 1);
    }
  }

  /** Every entry is one of the two entries of some alias. */
  lemma AliasEntriesFrom(aliases: seq<ProvinceAlias>, k: nat)
    requires k < 2 * |aliases|
    ensures k / 2 < |aliases| && aliases[k / 2] in aliases
    ensures k % 2 == 0 ==> AliasEntries(aliases)[k] == Entry(aliases[k / 2].short, aliases[k / 2].short)
    ensures k % 2 == 1 ==> AliasEntries(aliases)[k] == Entry(aliases[k / 2].full, aliases[k / 2].short)
  {
    var i := k / 2;
    AliasEntriesAt(aliases, i);
    if k % 2 == 0 {
      assert k == 2 * i;
    } else {
      assert k == 2 * i + 1;
    }
  }

  /** The table's entries in declaration order, which is the order the containment fallback visits them. */
  function Entries(): seq<Entry> {
    AliasEntries(Aliases())
  }

  /** Suffixes that mark a full name: official names end with one, short names never do. */
  predicate IsLevelMark(c: char) {
    c == '省' || c == '市' || c == '区'
  }

  /** The table's shape: short names are trimmed and end without a level mark; full names are trimmed and end with one. */
  predicate WellFormed(aliases: seq<ProvinceAlias>) {
    forall a | a in aliases :: WellFormedAlias(a)
  }

  predicate WellFormedAlias(a: ProvinceAlias) {
    HanEnds(a.short) && !IsLevelMark(a.short[|a.short| - 1])
    && HanEnds(a.full) && IsLevelMark(a.full[|a.full| - 1])
  }

  lemma MunicipalitiesWellFormed()
    ensures WellFormed(Municipalities())
  {
    var g := Municipalities();
    assert WellFormedAlias(g[0]) && WellFormedAlias(g[1]) && WellFormedAlias(g[2]) && WellFormedAlias(g[3]);
  }

  lemma ProvincesNorthWellFormed()
    ensures WellFormed(ProvincesNorth())
  {
    var g := ProvincesNorth();
    assert WellFormedAlias(g[0]) && WellFormedAlias(g[1]) && WellFormedAlias(g[2]);
    assert WellFormedAlias(g[3]) && WellFormedAlias(g[4]) && WellFormedAlias(g[5]);
  }

  lemma ProvincesEastWellFormed()
    ensures WellFormed(ProvincesEast())
  {
    var g := ProvincesEast();
    assert WellFormedAlias(g[0]) && WellFormedAlias(g[1]) && WellFormedAlias(g[2]);
    assert WellFormedAlias(g[3]) && WellFormedAlias(g[4]);
  }

  lemma ProvincesSouthWellFormed()
    ensures WellFormed(ProvincesSouth())
  {
    var g := ProvincesSouth();
    assert WellFormedAlias(g[0]) && WellFormedAlias(g[1]) && WellFormedAlias(g[2]);
    assert WellFormedAlias(g[3]) && WellFormedAlias(g[4]);
  }

  lemma ProvincesWestWellFormed()
    ensures WellFormed(ProvincesWest())
  {
    var g := ProvincesWest();
    assert WellFormedAlias(g[0]) && WellFormedAlias(g[1]) && WellFormedAlias(g[2]);
    assert WellFormedAlias(g[3]) && WellFormedAlias(g[4]) && WellFormedAlias(g[5]);
  }

  lemma RegionsWellFormed()
    ensures WellFormed(Regions())
  {
    var g := Regions();
    assert WellFormedAlias(g[0]) && WellFormedAlias(g[1]) && WellFormedAlias(g[2]) && WellFormedAlias(g[3]);
    assert WellFormedAlias(g[4]) && WellFormedAlias(g[5]) && WellFormedAlias(g[6]);
  }

  /** Every short name of the table is trimmed and ends without a level mark, every full name ends with one. */
  lemma AliasesWellFormed()
    ensures WellFormed(Aliases())
  {
    MunicipalitiesWellFormed();
    ProvincesNorthWellFormed();
    ProvincesEastWellFormed();
    ProvincesSouthWellFormed();
    ProvincesWestWellFormed();
    RegionsWellFormed();
  }

  /** Every entry of a well-formed table maps to a short name, and a key that is some short name maps to itself. */
  lemma {:induction false} EntriesMapToShortNames(aliases: seq<ProvinceAlias>)
    requires WellFormed(aliases)
    ensures forall e | e in AliasEntries(aliases) :: exists a :: a in aliases && e.value == a.short
    ensures forall e, a | e in AliasEntries(aliases) && a in aliases && e.key == a.short :: e.value == e.key
  {
    var es := AliasEntries(aliases);
    forall e | e in es
      ensures exists a :: a in aliases && e.value == a.short
    {
      var k :| 0 <= k < |es| && es[k] == e;
      AliasEntriesFrom(aliases, k);
    }
    forall e, a | e in es && a in aliases && e.key == a.short
      ensures e.value == e.key
    {
      var k :| 0 <= k < |es| && es[k] == e;
      AliasEntriesFrom(aliases, k);
      var b := aliases[k / 2];
      assert WellFormedAlias(a) && WellFormedAlias(b);
      if k % 2 == 1 {
        assert false;
      }
    }
  }

  /** `PROVINCE_NORMALIZE_MAP[key]` over a list of entries: the first entry holding exactly this key. */
  function LookupIn(es: seq<Entry>, key: string): (r: Option<nat>)
    ensures r.Some? ==> r.value < |es| && es[r.value].key == key
    ensures r.None? ==> forall e | e in es :: e.key != key
  {
    FindIndex(es, (e: Entry) => e.key == key)
  }

  /** Whether an entry's key contains the text or is contained in it. */
  predicate Related(e: Entry, t: string) {
    Includes(e.key, t) || Includes(t, e.key)
  }

  /**
   * `normalizeProvince` over a list of entries: empty stays empty; the
   * trimmed text's mapped short name; else the first entry, in list order,
   * whose key contains or is contained in it; else the trimmed text itself.
   */
  function NormalFormIn(es: seq<Entry>, province: string): (r: string)
    ensures province == "" ==> r == ""
  {
    if province == "" then ""
    else
      var t := Trim(province);
      match LookupIn(es, t)
      case Some(i) => es[i].value
      case None =>
        match FindIndex(es, (e: Entry) => Related(e, t))
        case Some(i) => es[i].value
        case None => t
  }

  /** `normalizeProvince` with the normalisation table. */
  function ProvinceNormalForm(province: string): string {
    NormalFormIn(Entries(), province)
  }

  /** `normalizeProvince`, with the fallback scan as the loop the source runs. */
  method NormalizeProvince(province: string) returns (r: string)
    ensures r == ProvinceNormalForm(province)
  {
    r := NormalizeProvinceIn(Entries(), province);
  }

  /** The body of `normalizeProvince`, over the table it is given. */
  method NormalizeProvinceIn(entries: seq<Entry>, province: string) returns (r: string)
    ensures r == NormalFormIn(entries, province)
  {
    if province == "" {
      return "";
    }
    var trimmed := Trim(province);
    var hit := LookupIn(entries, trimmed);
    if hit.Some? {
      return entries[hit.value].value;
    }
    var i := 0;
    while i < |entries|
      invariant 0 <= i <= |entries|
      invariant forall j :: 0 <= j < i ==> !Related(entries[j], trimmed)
    {
      if Includes(entries[i].key, trimmed) || Includes(trimmed, entries[i].key) {
        FindIndexFirst(entries, (e: Entry) => Related(e, trimmed), i);
        return entries[i].value;
      }
      i := i + 1;
    }
    return trimmed;
  }

  /** Surrounding white space never changes the result of a non-blank input. */
  lemma ProvinceIgnoresSurroundingSpace(es: seq<Entry>, province: string)
    requires Trim(province) != ""
    ensures NormalFormIn(es, province) == NormalFormIn(es, Trim(province))
  {
    TrimIdempotent(province);
  }

  /** A short name of a well-formed table normalises to itself. */
  lemma ShortNameFixed(aliases: seq<ProvinceAlias>, a: ProvinceAlias)
    requires WellFormed(aliases) && a in aliases
    ensures NormalFormIn(AliasEntries(aliases), a.short) == a.short
  {
    EntriesMapToShortNames(aliases);
    HanEndsTrimmed(a.short);
    var es := AliasEntries(aliases);
    var k :| 0 <= k < |aliases| && aliases[k] == a;
    AliasEntriesAt(aliases, k);
    assert es[LookupIn(es, a.short).value] in es;
  }

  /** A full name of a well-formed table normalises to its short name, when no earlier alias has the same full name. */
  lemma FullNameNormalises(aliases: seq<ProvinceAlias>, i: nat)
    requires WellFormed(aliases) && i < |aliases|
    requires forall j :: 0 <= j < i ==> aliases[j].full != aliases[i].full
    ensures NormalFormIn(AliasEntries(aliases), aliases[i].full) == aliases[i].short
  {
    var a := aliases[i];
    var es := AliasEntries(aliases);
    assert WellFormedAlias(a);
    HanEndsTrimmed(a.full);
    AliasEntriesAt(aliases, i);
    var k := LookupIn(es, a.full).value;
    assert k <= 2 * i + 1;
    AliasEntriesFrom(aliases, k);
    assert WellFormedAlias(aliases[k / 2]);
    assert k % 2 == 1 && aliases[k / 2].full == a.full;
    assert k == 2 * i + 1;
  }

  /** Normalising a normalised province name changes nothing: every value of a well-formed table is a key mapped to itself. */
  lemma NormalFormIdempotent(aliases: seq<ProvinceAlias>, province: string)
    requires WellFormed(aliases) && aliases != []
    ensures var es := AliasEntries(aliases);
            NormalFormIn(es, NormalFormIn(es, province)) == NormalFormIn(es, province)
  {
    var es := AliasEntries(aliases);
    EntriesMapToShortNames(aliases);
    var r := NormalFormIn(es, province);
    if province == "" {
      return;
    }
    var t := Trim(province);
    if r == t && LookupIn(es, t).None? && FindIndex(es, (e: Entry) => Related(e, t)).None? {
      if t == "" {
        assert false;
      }
      TrimIdempotent(province);
    } else {
      var e :| e in es && e.value == r;
      var a :| a in aliases && e.value == a.short;
      ShortNameFixed(aliases, a);
    }
  }

  /** White space alone trims to the empty text, which every key contains, so the first entry's short name wins. */
  lemma BlankIsFirstShortName(aliases: seq<ProvinceAlias>, province: string)
    requires WellFormed(aliases) && aliases != []
    requires province != "" && forall i :: 0 <= i < |province| ==> IsSpace(province[i])
    ensures NormalFormIn(AliasEntries(aliases), province) == aliases[0].short
  {
    var es := AliasEntries(aliases);
    TrimEmptyIffAllSpace(province);
    AliasEntriesAt(aliases, 0);
    IncludesEmpty(es[0].key);
    FindIndexFirst(es, (e: Entry) => Related(e, ""), 0);
    if LookupIn(es, "").Some? {
      AliasEntriesFrom(aliases, LookupIn(es, "").value);
      assert false;
    }
  }

  /** Text that no key is related to comes back trimmed and otherwise unchanged. */
  lemma UnknownUnchanged(es: seq<Entry>, province: string)
    requires province != ""
    requires forall e | e in es :: !Related(e, Trim(province))
    ensures NormalFormIn(es, province) == Trim(province)
  {
    var t := Trim(province);
    if LookupIn(es, t).Some? {
      var e := es[LookupIn(es, t).value];
      assert e in es;
      IncludesSelf(t);
      assert false;
    }
  }

  /** With the normalisation table: idempotence, and a blank input becomes '北京'. */
  lemma ProvinceNormalFormProperties(province: string)
    ensures ProvinceNormalForm(ProvinceNormalForm(province)) == ProvinceNormalForm(province)
    ensures province != "" && (forall i :: 0 <= i < |province| ==> IsSpace(province[i])) ==>
              ProvinceNormalForm(province) == "北京"
  {
    AliasesWellFormed();
    NormalFormIdempotent(Aliases(), province);
    if province != "" && (forall i :: 0 <= i < |province| ==> IsSpace(province[i])) {
      BlankIsFirstShortName(Aliases(), province);
    }
  }

  /** An exact key of the table: the official name '浙江省' becomes '浙江'. */
  lemma ProvinceExactKey()
    ensures ProvinceNormalForm("浙江省") == "浙江"
  {
    AliasesWellFormed();
    var al := Aliases();
    assert al[4 + 6] == ProvinceAlias("浙江", "浙江省");
    FullNameNormalises(al, 10);
  }

  /** The city suffixes, in the order they are tried. */
  function CitySuffixes(): seq<string> {
    ["市", "县", "区", "旗", "盟", "州", "自治州", "地区", "特别行政区"]
  }

  /** The test of the suffix scan: the text ends with the suffix. */
  function EndsWithTest(t: string): string -> bool {
    (s: string) => EndsWith(t, s)
  }

  /** The text without the first suffix, in list order, that it ends with; unchanged when it ends with none. */
  function StripFirstSuffix(t: string, suffixes: seq<string>): (r: string)
    ensures |r| <= |t| && r == t[..|r|]
  {
    match FindIndex(suffixes, EndsWithTest(t))
    case Some(i) => t[..|t| - |suffixes[i]|]
    case None => t
  }

  /**
   * `normalizeCity`: empty stays empty; otherwise the trimmed text loses the
   * first suffix, in list order, that it ends with, if any.
   */
  function CityNormalForm(city: string): (r: string)
    ensures city == "" ==> r == ""
    ensures |r| <= |Trim(city)| && r == Trim(city)[..|r|]
  {
    if city == "" then "" else StripFirstSuffix(Trim(city), CitySuffixes())
  }

  /** `normalizeCity`. */
  method NormalizeCity(city: string) returns (r: string)
    ensures r == CityNormalForm(city)
  {
    if city == "" {
      return "";
    }
    r := StripSuffixLoop(Trim(city), CitySuffixes());
  }

  /** The suffix scan of `normalizeCity`: the loop stops at the first suffix the text ends with. */
  method StripSuffixLoop(trimmed: string, suffixes: seq<string>) returns (r: string)
    ensures r == StripFirstSuffix(trimmed, suffixes)
  {
    var i := 0;
    while i < |suffixes|
      invariant 0 <= i <= |suffixes|
      invariant forall j :: 0 <= j < i ==> !EndsWithTest(trimmed)(suffixes[j])
    {
      if EndsWith(trimmed, suffixes[i]) {
        assert FindIndex(suffixes, EndsWithTest(trimmed)) == Some(i) by {
          FindIndexFirst(suffixes, EndsWithTest(trimmed), i);
        }
        return trimmed[..|trimmed| - |suffixes[i]|];
      }
      i := i + 1;
    }
    return trimmed;
  }

  /** The one-character city suffixes: the first six of the list. */
  predicate IsCitySuffixChar(c: char) {
    c == '市' || c == '县' || c == '区' || c == '旗' || c == '盟' || c == '州'
  }

  /** The position of a one-character suffix in the list. */
  function SuffixCharIndex(c: char): (j: nat)
    requires IsCitySuffixChar(c)
    ensures j < 6 && CitySuffixes()[j] == [c]
  {
    if c == '市' then 0 else if c == '县' then 1 else if c == '区' then 2
    else if c == '旗' then 3 else if c == '盟' then 4 else 5
  }

  /** The first six suffixes are single suffix characters. */
  lemma ShortSuffix(i: nat)
    requires i < 6
    ensures |CitySuffixes()[i]| == 1 && IsCitySuffixChar(CitySuffixes()[i][0])
  {
  }

  /** A text that ends with a suffix ends with the suffix's last character. */
  lemma EndsWithLast(t: string, s: string)
    requires s != "" && EndsWith(t, s)
    ensures t != "" && EndsWith(t, [s[|s| - 1]])
  {
    assert t[|t| - 1] == s[|s| - 1];
  }

  /** A longer suffix ends with '州' or '区', so a text ending with it ends with a one-character suffix too. */
  lemma LongSuffixShadowed(t: string, i: nat)
    requires 6 <= i < |CitySuffixes()| && EndsWith(t, CitySuffixes()[i])
    ensures t != "" && IsCitySuffixChar(t[|t| - 1])
  {
    var s := CitySuffixes()[i];
    EndsWithLast(t, s);
  }

  /**
   * The longer suffixes '自治州', '地区' and '特别行政区' are shadowed by '州'
   * and '区', so a city name loses at most its last character, and loses it
   * exactly when that character is one of the six one-character suffixes.
   */
  lemma CityLosesAtMostOneChar(city: string)
    requires city != ""
    ensures var t := Trim(city);
            var r := CityNormalForm(city);
            (t != "" && IsCitySuffixChar(t[|t| - 1]) ==> r == t[..|t| - 1])
            && (t == "" || !IsCitySuffixChar(t[|t| - 1]) ==> r == t)
  {
    var t := Trim(city);
    if t != "" && IsCitySuffixChar(t[|t| - 1]) {
      CityLosesSuffixChar(city);
    } else {
      CityKeepsOtherName(city);
    }
  }

  lemma CityLosesSuffixChar(city: string)
    requires city != "" && Trim(city) != "" && IsCitySuffixChar(Trim(city)[|Trim(city)| - 1])
    ensures CityNormalForm(city) == Trim(city)[..|Trim(city)| - 1]
  {
    var t := Trim(city);
    var j := SuffixCharIndex(t[|t| - 1]);
    var idx := FindIndex(CitySuffixes(), EndsWithTest(t));
    assert idx.Some? && idx.value <= j by {
      assert EndsWithTest(t)(CitySuffixes()[j]);
    }
    ShortSuffix(idx.value);
    assert CityNormalForm(city) == t[..|t| - |CitySuffixes()[idx.value]|];
  }

  lemma CityKeepsOtherName(city: string)
    requires city != "" && (Trim(city) == "" || !IsCitySuffixChar(Trim(city)[|Trim(city)| - 1]))
    ensures CityNormalForm(city) == Trim(city)
  {
    var t := Trim(city);
    var idx := FindIndex(CitySuffixes(), EndsWithTest(t));
    if idx.Some? {
      var i := idx.value;
      if i >= 6 {
        LongSuffixShadowed(t, i);
        assert false;
      } else {
        ShortSuffix(i);
        assert false;
      }
    }
  }

  /** A trimmed name ending with a one-character suffix loses exactly that character. */
  lemma TrimmedCityLosesSuffixChar(t: string)
    requires HanEnds(t) && IsCitySuffixChar(t[|t| - 1])
    ensures CityNormalForm(t) == t[..|t| - 1]
  {
    HanEndsTrimmed(t);
    CityLosesSuffixChar(t);
  }

  /** A name of ideographs followed by a one-character suffix loses just that suffix. */
  lemma NameLosesSuffixChar(w: string, c: char)
    requires w != "" && IsHan(w[0]) && IsCitySuffixChar(c)
    ensures CityNormalForm(w + [c]) == w
  {
    var t := w + [c];
    assert t[0] == w[0] && t[|t| - 1] == c && t[..|t| - 1] == w;
    TrimmedCityLosesSuffixChar(t);
  }

  /** The suffix list shadows itself: '阿坝藏族羌族自治州' keeps its '自治' and '阿里地区' its '地'. */
  lemma CitySuffixShadowing()
    ensures CityNormalForm("阿坝藏族羌族自治州") == "阿坝藏族羌族自治"
    ensures CityNormalForm("阿里地区") == "阿里地"
  {
    assert "阿坝藏族羌族自治州" == "阿坝藏族羌族自治" + ['州'] && "阿里地区" == "阿里地" + ['区'];
    NameLosesSuffixChar("阿坝藏族羌族自治", '州');
    NameLosesSuffixChar("阿里地", '区');
  }

  /** Normalising a city name twice can remove a second suffix: '苏州市' becomes '苏州', then '苏'. */
  lemma CityNormalFormNotIdempotent()
    ensures CityNormalForm("苏州市") == "苏州"
    ensures CityNormalForm(CityNormalForm("苏州市")) == "苏"
  {
    assert "苏州市" == "苏州" + ['市'] && "苏州" == "苏" + ['州'];
    NameLosesSuffixChar("苏州", '市');
    NameLosesSuffixChar("苏", '州');
  }

  /** `normalizeProvinceCity`: both names normalised independently. */
  function NormalizeProvinceCity(province: string, city: string): (r: (string, string))
    ensures r.0 == ProvinceNormalForm(province) && r.1 == CityNormalForm(city)
  {
    (ProvinceNormalForm(province), CityNormalForm(city))
  }

  /** `isSameProvince`: equal after normalisation. */
  predicate IsSameProvince(p1: string, p2: string) {
    ProvinceNormalForm(p1) == ProvinceNormalForm(p2)
  }

  /** `isSameCity`: equal after normalisation. */
  predicate IsSameCity(c1: string, c2: string) {
    CityNormalForm(c1) == CityNormalForm(c2)
  }

  /** `fuzzyMatchCity`: the normalised names are equal or one contains the other. */
  predicate FuzzyMatchCity(target: string, candidate: string) {
    var t := CityNormalForm(target);
    var c := CityNormalForm(candidate);
    t == c || Includes(t, c) || Includes(c, t)
  }

  /** isSameProvince and isSameCity are equivalence relations. */
  lemma SameNameIsEquivalence(a: string, b: string, c: string)
    ensures IsSameProvince(a, a) && (IsSameProvince(a, b) ==> IsSameProvince(b, a))
    ensures IsSameProvince(a, b) && IsSameProvince(b, c) ==> IsSameProvince(a, c)
    ensures IsSameCity(a, a) && (IsSameCity(a, b) ==> IsSameCity(b, a))
    ensures IsSameCity(a, b) && IsSameCity(b, c) ==> IsSameCity(a, c)
  {
  }

  /** The two spellings of a province of a well-formed table normalise alike. */
  lemma SpellingsAgree(aliases: seq<ProvinceAlias>, i: nat)
    requires WellFormed(aliases) && i < |aliases|
    requires forall j :: 0 <= j < i ==> aliases[j].full != aliases[i].full
    ensures var es := AliasEntries(aliases);
            NormalFormIn(es, aliases[i].full) == NormalFormIn(es, aliases[i].short) == aliases[i].short
  {
    FullNameNormalises(aliases, i);
    ShortNameFixed(aliases, aliases[i]);
  }

  /** '浙江省' and '浙江' are the same province. */
  lemma SameProvinceAcrossSpellings()
    ensures IsSameProvince("浙江省", "浙江")
  {
    AliasesWellFormed();
    var al := Aliases();
    assert al[10] == ProvinceAlias("浙江", "浙江省");
    SpellingsAgree(al, 10);
  }

  /** fuzzyMatchCity is reflexive and symmetric, and holds whenever isSameCity does. */
  lemma FuzzyMatchCityProperties(a: string, b: string)
    ensures FuzzyMatchCity(a, a)
    ensures FuzzyMatchCity(a, b) <==> FuzzyMatchCity(b, a)
    ensures IsSameCity(a, b) ==> FuzzyMatchCity(a, b)
  {
  }

  /** '苏州' loses its own '州', so it is not the same city as '苏州市'; containment still makes them a fuzzy match. */
  lemma SuzhouIsOnlyAFuzzyMatch()
    ensures !IsSameCity("苏州", "苏州市") && FuzzyMatchCity("苏州", "苏州市")
  {
    CityNormalFormNotIdempotent();
    assert OccursAt("苏州", "苏", 0);
    IncludesAt("苏州", "苏", 0);
  }
}
